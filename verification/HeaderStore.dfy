/** The header queue as the contract stores it, changed in place. */
module HeaderStore {
  import opened Common
  import opened Targets
  import opened Headers
  import HR = HeaderRuns

  ghost predicate Contiguous(hs: seq<WorkHeader>) {
    forall i :: 0 <= i < |hs| ==> hs[i].header.height == hs[0].header.height + i
  }

  class HeaderQueue {
    var headers: seq<WorkHeader>
    var currentWork: nat

    function Chain(): Headers.Chain
      reads this
    {
      Headers.Chain(headers, currentWork)
    }

    /** `configure`. */
    constructor (trusted: Header)
      ensures Chain() == Configured(trusted) && Contiguous(headers)
    {
      var work := WorkOf(trusted);
      headers := [WorkHeader(trusted, work)];
      currentWork := work;
    }

    /** `validate_time`: collects the last eleven times by height, sorts them and compares. */
    method ValidateTime(time: nat) returns (ok: bool)
      requires Contiguous(headers) && |headers| >= MEDIAN_SPAN
      ensures ok == TimeOk(headers, time)
    {
      var stamps: seq<int> := [];
      var height := Height(headers);
      var h := height - 10;
      while h <= height
        invariant height - 10 <= h <= height + 1 && height == headers[0].header.height + |headers| - 1
        invariant |stamps| == h - (height - 10)
        invariant forall i :: 0 <= i < |stamps| ==> stamps[i] == headers[|headers| - MEDIAN_SPAN + i].header.block.time
      {
        var found := GetByHeight(headers, h);
        if found.Err? || found.value.None? {
          return false;
        }
        stamps := stamps + [found.value.value.header.block.time];
        h := h + 1;
      }
      assert stamps == LastTimes(headers, |headers|);
      stamps := SortTimes(stamps);
      ok := |stamps| > 5 && time > stamps[5];
    }

    /** `pop_back_to`: returns the work taken off; the work counter is left alone. */
    method PopBackTo(height: nat) returns (r: Result<nat>)
      requires Contiguous(headers)
      modifies this`headers
      ensures Contiguous(headers)
      ensures Headers.PopBackTo(old(Chain()), height) == if r.Err? then Err(r.error) else Ok(Chain())
      ensures r.Ok? ==> r.value == Sum(old(headers), QueuedWork) - Sum(headers, QueuedWork)
      ensures r.Ok? ==> Height(headers) < height
    {
      ghost var hs := headers;
      var work: nat := 0;
      while Height(headers) >= height
        invariant |headers| <= |hs| && headers == Range(hs, 0, |headers|) && Contiguous(headers)
        invariant KeepBelow(hs, |hs|, height) == KeepBelow(hs, |headers|, height)
        invariant work == Sum(hs, QueuedWork) - SumTo(hs, |headers|, QueuedWork)
        decreases |headers|
      {
        var n := |headers|;
        if n == 0 {
          return Err(Rejected);
        }
        work := work + WorkOf(headers[n - 1].header);
        headers := Range(headers, 0, n - 1);
        assert headers == Range(hs, 0, n - 1);
      }
      SumToAgrees(headers, hs, |headers|, QueuedWork, QueuedWork);
      return Ok(work);
    }

    /** One header on top of the last one. */
    method AddHeader(m: Miner, cfg: HeaderConfig, prev: Header, h: Header) returns (r: Result<()>)
      requires ValidConfig(cfg) && Contiguous(headers) && headers != [] && prev == headers[|headers| - 1].header
      modifies this
      ensures AddOne(m, cfg, old(Chain()), prev, h) == if r.Err? then Err(r.error) else Ok(Chain())
      ensures Contiguous(headers) && headers != []
      ensures r.Ok? ==> h == headers[|headers| - 1].header
    {
      if h.height != prev.height + 1 || h.block.prev != m.hash(prev.block) {
        return Err(Rejected);
      }
      if |headers| >= MEDIAN_SPAN {
        var timely := ValidateTime(h.block.time);
        if !timely {
          return Err(Rejected);
        }
      }
      var target := NextTarget(cfg, headers, h, prev);
      if target.Err? {
        return Err(target.error);
      }
      if TargetOf(h) != target.value || !m.proven(h.block) {
        return Err(Rejected);
      }
      var chainWork := currentWork + WorkOf(h);
      headers := headers + [WorkHeader(h, chainWork)];
      currentWork := chainWork;
      return Ok(());
    }

    /** `verify_and_add_headers`: returns the work added. */
    method VerifyAndAdd(m: Miner, cfg: HeaderConfig, added: seq<Header>) returns (r: Result<nat>)
      requires ValidConfig(cfg) && Contiguous(headers)
      requires added != [] ==> headers == [] || Height(headers) + 1 <= added[0].height
      modifies this
      ensures Contiguous(headers)
      ensures Headers.VerifyAndAdd(m, cfg, old(Chain()), added) == if r.Err? then Err(r.error) else Ok(Chain())
      ensures r.Ok? ==> r.value == Sum(added, HeaderWork)
    {
      if |added| == 0 || added[0].height == 0 {
        return Err(Rejected);
      }
      var found := Find(headers, added[0].height - 1);
      if found.Err? {
        return Err(found.error);
      }
      ghost var c := Chain();
      var first := found.value.header;
      var prev, work: nat := first, 0;
      for i := 0 to |added|
        invariant Contiguous(headers) && headers != [] && prev == headers[|headers| - 1].header
        invariant prev == if i == 0 then first else added[i - 1]
        invariant AddAll(m, cfg, c, first, added, i) == Ok(Chain())
        invariant work == SumTo(added, i, HeaderWork)
      {
        var done := AddHeader(m, cfg, prev, added[i]);
        if done.Err? {
          AddAllFails(m, cfg, c, first, added, i + 1, |added|);
          return Err(done.error);
        }
        work := work + WorkOf(added[i]);
        prev := added[i];
      }
      return Ok(work);
    }

    /** Pops headers off the front until at most `limit` are left, taking their work off the
        counter. */
    method PopFront(limit: nat) returns (r: Result<()>)
      modifies this
      ensures var hs := old(headers); var k := SatSub(|hs|, limit);
              if old(currentWork) < WorkOfFirst(hs, k) then r == Err(Overflow)
              else r.Ok? && headers == Suffix(hs, k) && currentWork == old(currentWork) - WorkOfFirst(hs, k)
    {
      ghost var hs, k: nat := headers, 0;
      ghost var n := SatSub(|hs|, limit);
      assert headers == Suffix(hs, 0);
      while |headers| > limit
        invariant k <= n && headers == Suffix(hs, k)
        invariant currentWork == old(currentWork) - WorkOfFirst(hs, k)
      {
        SumToMonotone(hs, k + 1, n, QueuedWork);
        SuffixStep(hs, k);
        var oldest := headers[0].header;
        if currentWork < WorkOf(oldest) {
          return Err(Overflow);
        }
        currentWork := currentWork - WorkOf(oldest);
        headers := Suffix(headers, 1);
        k := k + 1;
      }
      assert k == n;
      return Ok(());
    }

    method Prune(cfg: HeaderConfig) returns (r: Result<()>)
      requires Contiguous(headers)
      modifies this
      ensures r.Ok? ==> Contiguous(headers)
      ensures var c := old(Chain());
              if c.currentWork < WorkOfFirst(c.headers, Surplus(cfg, |c.headers|)) then r == Err(Overflow)
              else r.Ok? && Chain() == PruneFront(cfg, c)
    {
      SuffixContiguous(headers, SatSub(|headers|, cfg.maxLength));
      r := PopFront(cfg.maxLength);
    }

    /** Takes off the headers that the first new one replaces; returns their work. */
    method Rewind(m: Miner, first: Header) returns (r: Result<nat>)
      requires Contiguous(headers)
      modifies this`headers
      ensures Contiguous(headers)
      ensures Rewound(m, old(Chain()), first) == if r.Err? then Err(r.error) else Ok(Chain())
      ensures r.Ok? ==> r.value == Sum(old(headers), QueuedWork) - Sum(headers, QueuedWork)
      ensures r.Ok? ==> headers == [] || Height(headers) + 1 <= first.height
    {
      if first.height > Height(headers) {
        return Ok(0);
      }
      var replaced := Find(headers, first.height);
      if replaced.Err? {
        return Err(replaced.error);
      }
      if m.hash(replaced.value.header.block) == m.hash(first.block) {
        return Err(Rejected);
      }
      r := PopBackTo(first.height);
    }

    /** `add_into_iter`. */
    method AddIntoIter(m: Miner, cfg: HeaderConfig, added: seq<Header>) returns (r: Result<()>)
      requires ValidConfig(cfg) && Contiguous(headers)
      modifies this
      ensures r.Ok? ==> Contiguous(headers)
      ensures Add(m, cfg, old(Chain()), added) == if r.Err? then Err(r.error) else Ok(Chain())
    {
      if |added| == 0 {
        return Err(Rejected);
      }
      var removed := Rewind(m, added[0]);
      if removed.Err? {
        return Err(removed.error);
      }
      var work := VerifyAndAdd(m, cfg, added);
      if work.Err? {
        return Err(work.error);
      }
      if work.value <= removed.value {
        return Err(Rejected);
      }
      r := Prune(cfg);
    }

    /** `relay_headers` under the host: a failing batch leaves the queue as it was. */
    method Relay(m: Miner, cfg: HeaderConfig, added: seq<Header>) returns (r: Result<()>)
      requires ValidConfig(cfg) && Contiguous(headers)
      modifies this
      ensures Contiguous(headers)
      ensures Chain() == HR.Relay(m, cfg, HR.Client(old(Chain()), 0), added).chain
      ensures r.Ok? <==> |added| <= 1000 && Add(m, cfg, old(Chain()), added).Ok?
    {
      if |added| > MAX_RELAY {
        return Err(Rejected);
      }
      var hs, work := headers, currentWork;
      r := AddIntoIter(m, cfg, added);
      if r.Err? {
        headers, currentWork := hs, work;
      }
    }
  }

  /** The queue, fed with any sequence of batches, goes through the states of the run. */
  method Serve(q: HeaderQueue, m: Miner, cfg: HeaderConfig, trusted: Header, batches: seq<seq<Header>>)
    requires ValidConfig(cfg) && q.Chain() == Configured(trusted)
    requires TargetOf(trusted) <= FromCompact(cfg.target.maxTarget)
    modifies q
    ensures q.Chain() == HR.Run(m, cfg, trusted, batches, |batches|).chain
    ensures HR.ClientOk(m, cfg, HR.Run(m, cfg, trusted, batches, |batches|))
  {
    for i := 0 to |batches|
      invariant q.Chain() == HR.Run(m, cfg, trusted, batches, i).chain && Contiguous(q.headers)
    {
      var _ := q.Relay(m, cfg, batches[i]);
    }
    HR.RunOk(m, cfg, trusted, batches, |batches|);
  }

  lemma SuffixContiguous(hs: seq<WorkHeader>, k: nat)
    requires Contiguous(hs) && k <= |hs|
    ensures Contiguous(Suffix(hs, k))
  {
  }

  lemma {:induction false} AddAllFails(m: Miner, cfg: HeaderConfig, c: Headers.Chain, prev: Header, added: seq<Header>,
                                       k: nat, n: nat)
    requires ValidConfig(cfg) && k <= n <= |added| && AddAll(m, cfg, c, prev, added, k).Err?
    ensures AddAll(m, cfg, c, prev, added, n) == AddAll(m, cfg, c, prev, added, k)
  {
    if k < n {
      AddAllFails(m, cfg, c, prev, added, k, n - 1);
    }
  }
}
