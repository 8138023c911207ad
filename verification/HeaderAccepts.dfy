/**
  Exactly which batches of headers the light client accepts, and that every header it holds,
  except the trusted one, has its proof of work.
 */
module HeaderAccepts {
  import opened Common
  import opened Targets
  import opened Headers
  import opened HeaderInvariants
  import opened HeaderRuns

  // ----- a batch on top of a queue -----

  /** The headers of `hs`, then the added ones. */
  function Branch(hs: seq<WorkHeader>, added: seq<Header>): (bs: seq<Header>)
    ensures |bs| == |hs| + |added|
    ensures forall i :: 0 <= i < |hs| ==> bs[i] == hs[i].header
    ensures forall i :: |hs| <= i < |bs| ==> bs[i] == added[i - |hs|]
  {
    Plain(hs) + added
  }

  /** The headers at positions `a` up to `b` rightly follow those before them. */
  ghost predicate AllAccepted(m: Miner, cfg: HeaderConfig, bs: seq<Header>, a: nat, b: nat)
    requires ValidConfig(cfg) && 0 < a && b <= |bs|
  {
    forall i :: a <= i < b ==> Accepts(m, cfg, bs, i)
  }

  /** The queue holds the first `k` headers of a branch. */
  predicate Holds(c: Chain, bs: seq<Header>, k: nat) {
    |c.headers| == k <= |bs| && forall j :: 0 <= j < k ==> c.headers[j].header == bs[j]
  }

  lemma NextHeld(c: Chain, c': Chain, bs: seq<Header>, k: nat, w: WorkHeader)
    requires Holds(c, bs, k) && k < |bs| && c'.headers == c.headers + [w] && w.header == bs[k]
    ensures Holds(c', bs, k + 1)
  {
  }

  lemma AllMore(m: Miner, cfg: HeaderConfig, bs: seq<Header>, a: nat, b: nat)
    requires ValidConfig(cfg) && 0 < a <= b < |bs|
    ensures AllAccepted(m, cfg, bs, a, b + 1) <==> AllAccepted(m, cfg, bs, a, b) && Accepts(m, cfg, bs, b)
  {
  }

  /** One header on top of the last one. */
  lemma NextAccepted(m: Miner, cfg: HeaderConfig, front: Chain, bs: seq<Header>, k: nat, prev: Header)
    requires ValidConfig(cfg) && ChainOk(m, cfg, front.headers) && Holds(front, bs, k) && 0 < k < |bs| && prev == bs[k - 1]
    ensures var r := AddOne(m, cfg, front, prev, bs[k]);
            && (r.Ok? <==> Accepts(m, cfg, bs, k))
            && (r.Ok? ==> Holds(r.value, bs, k + 1) && ChainOk(m, cfg, r.value.headers))
  {
    AddOneExactly(m, cfg, front, bs[k], bs);
    var r := AddOne(m, cfg, front, prev, bs[k]);
    if r.Ok? {
      AddOneOk(m, cfg, front, bs[k], r.value);
      NextHeld(front, r.value, bs, k, WorkHeader(bs[k], r.value.currentWork));
    }
  }

  function PrevOf(last: Header, added: seq<Header>, n: nat): Header
    requires 0 < n <= |added|
  {
    if n == 1 then last else added[n - 2]
  }

  lemma AddAllStep(m: Miner, cfg: HeaderConfig, c: Chain, last: Header, added: seq<Header>, n: nat)
    requires ValidConfig(cfg) && 0 < n <= |added|
    ensures AddAll(m, cfg, c, last, added, n) ==
            match AddAll(m, cfg, c, last, added, n - 1)
            case Err(e) => Err(e)
            case Ok(front) => AddOne(m, cfg, front, PrevOf(last, added, n), added[n - 1])
  {
  }

  lemma PrevHeld(hs: seq<WorkHeader>, added: seq<Header>, n: nat, bs: seq<Header>)
    requires hs != [] && 0 < n <= |added| && bs == Branch(hs, added)
    ensures bs[|hs| + n - 2] == PrevOf(hs[|hs| - 1].header, added, n) && bs[|hs| + n - 1] == added[n - 1]
  {
  }

  /** Adding `n` headers at position `k` succeeds exactly when all of them rightly follow. */
  ghost predicate Exact(m: Miner, cfg: HeaderConfig, bs: seq<Header>, k: nat, n: nat, r: Result<Chain>)
    requires ValidConfig(cfg) && 0 < k && k + n <= |bs|
  {
    && (r.Ok? <==> AllAccepted(m, cfg, bs, k, k + n))
    && (r.Ok? ==> Holds(r.value, bs, k + n) && ChainOk(m, cfg, r.value.headers))
  }

  lemma ExactStep(m: Miner, cfg: HeaderConfig, bs: seq<Header>, k: nat, n: nat, front: Result<Chain>, r: Result<Chain>)
    requires ValidConfig(cfg) && 0 < k && k + n < |bs| && Exact(m, cfg, bs, k, n, front)
    requires front.Err? ==> r == front
    requires front.Ok? ==> r == AddOne(m, cfg, front.value, bs[k + n - 1], bs[k + n])
    ensures Exact(m, cfg, bs, k, n + 1, r)
  {
    AllMore(m, cfg, bs, k, k + n);
    if front.Ok? {
      NextAccepted(m, cfg, front.value, bs, k + n, bs[k + n - 1]);
    }
  }

  lemma {:induction false} AddAllExactly(m: Miner, cfg: HeaderConfig, c: Chain, last: Header, added: seq<Header>, n: nat,
                                         bs: seq<Header>)
    requires ValidConfig(cfg) && ChainOk(m, cfg, c.headers) && n <= |added| && bs == Branch(c.headers, added)
    requires last == c.headers[|c.headers| - 1].header
    ensures Exact(m, cfg, bs, |c.headers|, n, AddAll(m, cfg, c, last, added, n))
  {
    if n > 0 {
      AddAllExactly(m, cfg, c, last, added, n - 1, bs);
      AddAllStep(m, cfg, c, last, added, n);
      PrevHeld(c.headers, added, n, bs);
      ExactStep(m, cfg, bs, |c.headers|, n - 1, AddAll(m, cfg, c, last, added, n - 1), AddAll(m, cfg, c, last, added, n));
    }
  }

  // ----- the whole batch -----

  /** The added headers start right above one of the queue, at position `k`, differ from what they
      replace, rightly follow it and bring more work. */
  ghost predicate BetterBranch(m: Miner, cfg: HeaderConfig, hs: seq<WorkHeader>, added: seq<Header>, k: int)
    requires ValidConfig(cfg)
  {
    && added != [] && hs != [] && k == added[0].height - hs[0].header.height && 1 <= k <= |hs|
    && (k < |hs| ==> m.hash(hs[k].header.block) != m.hash(added[0].block))
    && AllAccepted(m, cfg, Branch(Range(hs, 0, k), added), k, k + |added|)
    && Sum(added, HeaderWork) > Sum(hs, QueuedWork) - SumTo(hs, k, QueuedWork)
  }

  lemma RewoundExactly(m: Miner, cfg: HeaderConfig, c: Chain, first: Header, k: int)
    requires ValidConfig(cfg) && ChainOk(m, cfg, c.headers) && k == first.height - c.headers[0].header.height
    requires 1 <= k <= |c.headers|
    ensures Rewound(m, c, first) ==
            if k < |c.headers| && m.hash(c.headers[k].header.block) == m.hash(first.block) then Err(Rejected)
            else Ok(c.(headers := Range(c.headers, 0, k)))
  {
    HeightAt(m, cfg, c.headers, |c.headers| - 1);
    if k < |c.headers| {
      KeepBelowIs(m, cfg, c.headers, |c.headers|, first.height);
    } else {
      assert Range(c.headers, 0, k) == c.headers;
    }
  }

  /** Headers that do not start right above one of the queue are refused. */
  lemma GapRefused(m: Miner, cfg: HeaderConfig, c: Chain, added: seq<Header>)
    requires ValidConfig(cfg) && ChainOk(m, cfg, c.headers) && added != []
    requires var k := added[0].height - c.headers[0].header.height; k < 1 || k > |c.headers|
    ensures Extended(m, cfg, c, added).Err?
  {
    var k := added[0].height - c.headers[0].header.height;
    HeightAt(m, cfg, c.headers, |c.headers| - 1);
    if k == 0 {
      KeepBelowIs(m, cfg, c.headers, |c.headers|, added[0].height);
    }
  }

  lemma BaseOk(m: Miner, cfg: HeaderConfig, hs: seq<WorkHeader>, k: nat, base: seq<WorkHeader>)
    requires ValidConfig(cfg) && ChainOk(m, cfg, hs) && 1 <= k <= |hs| && base == Range(hs, 0, k)
    ensures ChainOk(m, cfg, base) && Sum(base, QueuedWork) == SumTo(hs, k, QueuedWork)
  {
    PartOk(m, cfg, hs, base, 0);
    SumToAgrees(base, hs, k, QueuedWork, QueuedWork);
  }

  lemma BaseAdds(m: Miner, cfg: HeaderConfig, c: Chain, base: Chain, added: seq<Header>, k: nat)
    requires ValidConfig(cfg) && ChainOk(m, cfg, c.headers) && added != [] && 1 <= k <= |c.headers|
    requires added[0].height == c.headers[0].header.height + k && base == c.(headers := Range(c.headers, 0, k))
    ensures Exact(m, cfg, Branch(base.headers, added), k, |added|, VerifyAndAdd(m, cfg, base, added))
    ensures Sum(base.headers, QueuedWork) == SumTo(c.headers, k, QueuedWork)
  {
    BaseOk(m, cfg, c.headers, k, base.headers);
    LastFound(base.headers, added[0].height - 1);
    AddAllExactly(m, cfg, base, c.headers[k - 1].header, added, |added|, Branch(base.headers, added));
  }

  lemma ExtendedExactly(m: Miner, cfg: HeaderConfig, c: Chain, added: seq<Header>, k: int)
    requires ValidConfig(cfg) && ChainOk(m, cfg, c.headers) && added != []
    requires k == added[0].height - c.headers[0].header.height
    ensures var r := Extended(m, cfg, c, added);
            && (r.Ok? <==> BetterBranch(m, cfg, c.headers, added, k))
            && (r.Ok? ==> var bs := Branch(Range(c.headers, 0, k), added); Holds(r.value, bs, |bs|))
  {
    if k < 1 || k > |c.headers| {
      GapRefused(m, cfg, c, added);
    } else {
      RewoundExactly(m, cfg, c, added[0], k);
      BaseAdds(m, cfg, c, c.(headers := Range(c.headers, 0, k)), added, k);
    }
  }

  lemma PrunedHolds(cfg: HeaderConfig, c: Chain, bs: seq<Header>)
    requires Holds(c, bs, |bs|)
    ensures Plain(PruneFront(cfg, c).headers) == Suffix(bs, SatSub(|bs|, cfg.maxLength))
  {
  }

  lemma AddIsPruned(m: Miner, cfg: HeaderConfig, cl: Client, added: seq<Header>)
    requires ValidConfig(cfg) && ClientOk(m, cfg, cl)
    ensures Add(m, cfg, cl.chain, added).Ok? <==> Extended(m, cfg, cl.chain, added).Ok?
    ensures Extended(m, cfg, cl.chain, added).Ok? ==>
              Add(m, cfg, cl.chain, added).value == PruneFront(cfg, Extended(m, cfg, cl.chain, added).value)
  {
    RelayOk(m, cfg, cl, added);
  }

  /**
    Exactly which batches `add_into_iter` accepts on a good queue: those that start right above a
    header of the queue, differ from what they replace, follow it header by header in height, hash
    link, median time, target and proof of work, and bring more work than they replace. The new
    queue is that branch, less what exceeds the maximum length at the front.
   */
  lemma AddExactly(m: Miner, cfg: HeaderConfig, cl: Client, added: seq<Header>)
    requires ValidConfig(cfg) && ClientOk(m, cfg, cl) && added != []
    ensures var hs, r := cl.chain.headers, Add(m, cfg, cl.chain, added);
            var k := added[0].height - hs[0].header.height;
            && (r.Ok? <==> BetterBranch(m, cfg, hs, added, k))
            && (r.Ok? ==>
                  var bs := Branch(Range(hs, 0, k), added);
                  Plain(r.value.headers) == Suffix(bs, SatSub(|bs|, cfg.maxLength)))
  {
    var hs := cl.chain.headers;
    var k := added[0].height - hs[0].header.height;
    ExtendedExactly(m, cfg, cl.chain, added, k);
    AddIsPruned(m, cfg, cl, added);
    if Extended(m, cfg, cl.chain, added).Ok? {
      PrunedHolds(cfg, Extended(m, cfg, cl.chain, added).value, Branch(Range(hs, 0, k), added));
    }
  }

  // ----- proof of work over runs -----

  /** Every header but the trusted one has its proof of work. */
  predicate Mined(m: Miner, trusted: Header, hs: seq<WorkHeader>) {
    forall i :: 0 <= i < |hs| ==> hs[i].header == trusted || m.proven(hs[i].header.block)
  }

  ghost predicate AllMined(m: Miner, trusted: Header, bs: seq<Header>) {
    forall i :: 0 <= i < |bs| ==> bs[i] == trusted || m.proven(bs[i].block)
  }

  lemma PartMined(m: Miner, trusted: Header, bs: seq<Header>, r: seq<WorkHeader>, k: nat)
    requires AllMined(m, trusted, bs) && k <= |bs| && Plain(r) == Suffix(bs, k)
    ensures Mined(m, trusted, r)
  {
    forall i | 0 <= i < |r| ensures r[i].header == trusted || m.proven(r[i].header.block) {
      assert Plain(r)[i] == bs[k + i];
    }
  }

  lemma BranchMined(m: Miner, cfg: HeaderConfig, trusted: Header, hs: seq<WorkHeader>, bs: seq<Header>, k: nat)
    requires ValidConfig(cfg) && Mined(m, trusted, hs) && 0 < k <= |hs| && k <= |bs|
    requires (forall i :: 0 <= i < k ==> bs[i] == hs[i].header) && AllAccepted(m, cfg, bs, k, |bs|)
    ensures AllMined(m, trusted, bs)
  {
    forall i | 0 <= i < |bs| ensures bs[i] == trusted || m.proven(bs[i].block) {
      if i >= k {
        assert Accepts(m, cfg, bs, i);
      }
    }
  }

  lemma BetterMined(m: Miner, cfg: HeaderConfig, trusted: Header, hs: seq<WorkHeader>, added: seq<Header>, k: int)
    requires ValidConfig(cfg) && Mined(m, trusted, hs) && BetterBranch(m, cfg, hs, added, k)
    ensures AllMined(m, trusted, Branch(Range(hs, 0, k), added))
  {
    BranchMined(m, cfg, trusted, hs, Branch(Range(hs, 0, k), added), k);
  }

  lemma AddMined(m: Miner, cfg: HeaderConfig, trusted: Header, cl: Client, added: seq<Header>, r: Chain)
    requires ValidConfig(cfg) && ClientOk(m, cfg, cl) && Mined(m, trusted, cl.chain.headers)
    requires added != [] && Add(m, cfg, cl.chain, added) == Ok(r)
    ensures Mined(m, trusted, r.headers)
  {
    var hs := cl.chain.headers;
    var k := added[0].height - hs[0].header.height;
    AddExactly(m, cfg, cl, added);
    BetterMined(m, cfg, trusted, hs, added, k);
    var bs := Branch(Range(hs, 0, k), added);
    PartMined(m, trusted, bs, r.headers, SatSub(|bs|, cfg.maxLength));
  }

  lemma RelayChain(m: Miner, cfg: HeaderConfig, cl: Client, added: seq<Header>)
    requires ValidConfig(cfg)
    ensures var r := Relay(m, cfg, cl, added).chain;
            r == cl.chain || (added != [] && Add(m, cfg, cl.chain, added) == Ok(r))
  {
  }

  /** After any batches, every queued header but the trusted one has its proof of work. */
  lemma {:induction false} RunMined(m: Miner, cfg: HeaderConfig, trusted: Header, batches: seq<seq<Header>>, n: nat)
    requires ValidConfig(cfg) && n <= |batches| && TargetOf(trusted) <= FromCompact(cfg.target.maxTarget)
    ensures Mined(m, trusted, Run(m, cfg, trusted, batches, n).chain.headers)
  {
    if n > 0 {
      var cl := Run(m, cfg, trusted, batches, n - 1);
      RunMined(m, cfg, trusted, batches, n - 1);
      RunOk(m, cfg, trusted, batches, n - 1);
      RelayChain(m, cfg, cl, batches[n - 1]);
      if Relay(m, cfg, cl, batches[n - 1]).chain != cl.chain {
        AddMined(m, cfg, trusted, cl, batches[n - 1], Relay(m, cfg, cl, batches[n - 1]).chain);
      }
    }
  }
}
