/** What every reachable header queue satisfies, and how reorganisations account for work. */
module HeaderInvariants {
  import opened Common
  import opened Targets
  import opened Headers

  // ----- the median rule -----

  function Below(x: int): int -> int {
    (t: int) => if t < x then 1 else 0
  }

  /** More than half of eleven times lie below `x`. */
  predicate AboveMedian(times: seq<int>, x: int) {
    Sum(times, Below(x)) >= 6
  }

  ghost predicate Ascending(s: seq<int>) {
    forall i, j :: 0 <= i < j < |s| ==> s[i] <= s[j]
  }

  lemma {:induction false} InsertSum(x: int, s: seq<int>, f: int -> int)
    ensures Sum(InsertTime(x, s), f) == f(x) + Sum(s, f)
  {
    if s == [] || x <= s[0] {
      SumCons(x, s, f);
    } else {
      InsertSum(x, s[1..], f);
      SumCons(s[0], InsertTime(x, s[1..]), f);
      assert s == [s[0]] + s[1..];
      SumCons(s[0], s[1..], f);
    }
  }

  lemma {:induction false} InsertSorts(x: int, s: seq<int>)
    requires Ascending(s)
    ensures var r := InsertTime(x, s);
            Ascending(r) && |r| == |s| + 1 && forall k :: 0 <= k < |r| ==> r[k] == x || (s != [] && s[0] <= r[k])
  {
    if s != [] && x > s[0] {
      InsertSorts(x, s[1..]);
    }
  }

  lemma {:induction false} SortSorts(s: seq<int>, f: int -> int)
    ensures var r := SortTimes(s); Ascending(r) && |r| == |s| && Sum(r, f) == Sum(s, f)
  {
    if s != [] {
      SortSorts(s[1..], f);
      InsertSorts(s[0], SortTimes(s[1..]));
      InsertSum(s[0], SortTimes(s[1..]), f);
      assert s == [s[0]] + s[1..];
      SumCons(s[0], s[1..], f);
    }
  }

  /** In an ascending sequence the elements below `x` come first. */
  lemma {:induction false} CountFirst(s: seq<int>, x: int, n: nat)
    requires Ascending(s) && n <= |s|
    ensures 0 <= SumTo(s, n, Below(x)) <= n
    ensures n > 0 && s[n - 1] < x ==> SumTo(s, n, Below(x)) == n
    ensures forall k :: 0 <= k < n && s[k] >= x ==> SumTo(s, n, Below(x)) <= k
  {
    if n > 0 {
      CountFirst(s, x, n - 1);
    }
  }

  /** Exceeding the sixth of eleven sorted times means exceeding more than half of them. */
  lemma MedianMeans(times: seq<int>, x: int)
    requires |times| == MEDIAN_SPAN
    ensures |SortTimes(times)| == MEDIAN_SPAN
    ensures x > SortTimes(times)[5] <==> AboveMedian(times, x)
  {
    var s := SortTimes(times);
    SortSorts(times, Below(x));
    CountFirst(s, x, 6);
    CountFirst(s, x, 11);
    SumToMonotone(s, 6, 11, Below(x));
  }

  // ----- the invariant -----

  /** The headers of a queue without their work. */
  function Plain(hs: seq<WorkHeader>): (bs: seq<Header>)
    ensures |bs| == |hs| && forall i :: 0 <= i < |hs| ==> bs[i] == hs[i].header
  {
    seq(|hs|, i requires 0 <= i < |hs| => hs[i].header)
  }

  /** The times of the eleven headers before position `i`. */
  function TimesBefore(bs: seq<Header>, i: nat): (ts: seq<int>)
    requires 11 <= i <= |bs|
    ensures |ts| == 11 && forall j :: 0 <= j < 11 ==> ts[j] == bs[i - 11 + j].block.time
  {
    seq(11, j requires 0 <= j < 11 => bs[i - 11 + j].block.time)
  }

  predicate Retargets(cfg: HeaderConfig, h: Header)
    requires ValidConfig(cfg)
  {
    h.height % cfg.retargetInterval == 0 && cfg.retargeting
  }

  /** The target moves by some timespan within a factor of four. */
  ghost predicate TargetStep(cfg: HeaderConfig, a: Header, b: Header)
    requires ValidConfig(cfg)
  {
    exists span ::
      cfg.target.timespan / 4 <= span <= 4 * cfg.target.timespan &&
      TargetOf(b) == Retargeted(cfg.target, TargetOf(a), span)
  }

  /** The target moves by the time since the header one period before, within a factor of four. */
  predicate Measured(cfg: HeaderConfig, a: Header, b: Header, first: Header)
    requires ValidConfig(cfg)
  {
    && first.block.time <= a.block.time
    && TargetOf(b) == Retargeted(cfg.target, TargetOf(a),
                                 Clamp(a.block.time - first.block.time, cfg.target.timespan / 4, 4 * cfg.target.timespan))
  }

  /** The target of the header at position `i`; the header to measure from may have been pruned. */
  ghost predicate TargetAt(cfg: HeaderConfig, bs: seq<Header>, i: nat)
    requires ValidConfig(cfg) && 0 < i < |bs|
  {
    if !Retargets(cfg, bs[i]) then TargetOf(bs[i]) == TargetOf(bs[i - 1])
    else if i >= cfg.retargetInterval then Measured(cfg, bs[i - 1], bs[i], bs[i - cfg.retargetInterval])
    else TargetStep(cfg, bs[i - 1], bs[i])
  }

  /** The header at position `i` rightly follows those before it. */
  ghost predicate NextOk(m: Miner, cfg: HeaderConfig, bs: seq<Header>, i: nat)
    requires ValidConfig(cfg) && 0 < i < |bs|
  {
    && bs[i].height == bs[i - 1].height + 1 && bs[i].block.prev == m.hash(bs[i - 1].block)
    && (i >= 11 ==> AboveMedian(TimesBefore(bs, i), bs[i].block.time))
    && TargetAt(cfg, bs, i) && m.proven(bs[i].block)
  }

  /** Consecutive heights, hash links, median times, proof of work, and targets by the rule. */
  ghost predicate ChainOk(m: Miner, cfg: HeaderConfig, hs: seq<WorkHeader>)
    requires ValidConfig(cfg)
  {
    && hs != []
    && (forall i :: 0 < i < |hs| ==> NextOk(m, cfg, Plain(hs), i))
    && (forall i :: 0 <= i < |hs| ==> TargetOf(hs[i].header) <= FromCompact(cfg.target.maxTarget))
  }

  lemma {:induction false} HeightAt(m: Miner, cfg: HeaderConfig, hs: seq<WorkHeader>, i: nat)
    requires ValidConfig(cfg) && ChainOk(m, cfg, hs) && i < |hs|
    ensures hs[i].header.height == hs[0].header.height + i
  {
    if i > 0 {
      HeightAt(m, cfg, hs, i - 1);
      assert NextOk(m, cfg, Plain(hs), i);
    }
  }

  // ----- access by height -----

  /** The header of a given height, looked for one by one. */
  function Search(hs: seq<WorkHeader>, n: nat, height: nat): Option<WorkHeader>
    requires n <= |hs|
  {
    if n == 0 then None
    else if hs[n - 1].header.height == height then Some(hs[n - 1])
    else Search(hs, n - 1, height)
  }

  lemma {:induction false} SearchFinds(m: Miner, cfg: HeaderConfig, hs: seq<WorkHeader>, n: nat, height: nat)
    requires ValidConfig(cfg) && ChainOk(m, cfg, hs) && n <= |hs| && hs[0].header.height <= height
    ensures var i := height - hs[0].header.height;
            Search(hs, n, height) == if i < n then Some(hs[i]) else None
  {
    if n > 0 {
      HeightAt(m, cfg, hs, n - 1);
      SearchFinds(m, cfg, hs, n - 1, height);
    }
  }

  /** `get_by_height` agrees with a linear search, and fails below the first header. */
  lemma GetIsSearch(m: Miner, cfg: HeaderConfig, hs: seq<WorkHeader>, height: nat)
    requires ValidConfig(cfg) && ChainOk(m, cfg, hs)
    ensures GetByHeight(hs, height)
         == if height < hs[0].header.height then Err(Rejected) else Ok(Search(hs, |hs|, height))
  {
    if height >= hs[0].header.height {
      SearchFinds(m, cfg, hs, |hs|, height);
    }
  }

  // ----- targets -----

  /** From one header to the next the target stays, or moves by at most a factor of four:
      upwards as it is stored, downwards before rounding and capping. */
  lemma TargetBounds(cfg: HeaderConfig, bs: seq<Header>, i: nat) returns (raw: nat)
    requires ValidConfig(cfg) && 0 < i < |bs| && TargetAt(cfg, bs, i)
    requires TargetOf(bs[i - 1]) <= FromCompact(cfg.target.maxTarget)
    ensures TargetOf(bs[i]) <= 4 * TargetOf(bs[i - 1]) && TargetOf(bs[i]) <= FromCompact(cfg.target.maxTarget)
    ensures TargetOf(bs[i - 1]) / 4 <= raw <= 4 * TargetOf(bs[i - 1])
    ensures TargetOf(bs[i]) == TargetOf(bs[i - 1]) || TargetOf(bs[i]) == FromCompact(ToCompact(raw))
         || TargetOf(bs[i]) == FromCompact(cfg.target.maxTarget)
  {
    raw := TargetOf(bs[i - 1]);
    if Retargets(cfg, bs[i]) {
      AnySpan(cfg, bs, i);
      var span :| cfg.target.timespan / 4 <= span <= 4 * cfg.target.timespan
                  && TargetOf(bs[i]) == Retargeted(cfg.target, TargetOf(bs[i - 1]), span);
      RetargetBounds(cfg.target, TargetOf(bs[i - 1]), span);
      raw := Raw(cfg.target, TargetOf(bs[i - 1]), span);
    }
  }

  /** A measured timespan is within a factor of four. */
  lemma AnySpan(cfg: HeaderConfig, bs: seq<Header>, i: nat)
    requires ValidConfig(cfg) && 0 < i < |bs| && TargetAt(cfg, bs, i) && Retargets(cfg, bs[i])
    ensures TargetStep(cfg, bs[i - 1], bs[i])
  {
    if i >= cfg.retargetInterval {
      var elapsed := bs[i - 1].block.time - bs[i - cfg.retargetInterval].block.time;
      var span := Clamp(elapsed, cfg.target.timespan / 4, 4 * cfg.target.timespan);
      assert TargetOf(bs[i]) == Retargeted(cfg.target, TargetOf(bs[i - 1]), span);
    }
  }

  // ----- parts of a chain -----

  lemma NextKept(m: Miner, cfg: HeaderConfig, bs: seq<Header>, r: seq<Header>, k: nat, i: nat)
    requires ValidConfig(cfg) && 0 < i < |r| && k + i < |bs| && NextOk(m, cfg, bs, k + i)
    requires forall j :: 0 <= j <= i ==> r[j] == bs[k + j]
    ensures NextOk(m, cfg, r, i)
  {
    if i >= 11 {
      assert TimesBefore(r, i) == TimesBefore(bs, k + i);
    }
    if Retargets(cfg, r[i]) && i < cfg.retargetInterval {
      AnySpan(cfg, bs, k + i);
    }
  }

  /** Part of a good chain is good. */
  lemma PartOk(m: Miner, cfg: HeaderConfig, hs: seq<WorkHeader>, r: seq<WorkHeader>, k: nat)
    requires ValidConfig(cfg) && ChainOk(m, cfg, hs) && 0 < |r| && k + |r| <= |hs|
    requires forall j :: 0 <= j < |r| ==> r[j] == hs[k + j]
    ensures ChainOk(m, cfg, r)
  {
    forall i | 0 < i < |r| ensures NextOk(m, cfg, Plain(r), i) {
      assert NextOk(m, cfg, Plain(hs), k + i);
      NextKept(m, cfg, Plain(hs), Plain(r), k, i);
    }
  }

  // ----- adding one header -----

  /** What a new header at position `i` has to satisfy: when the target changes, the header to
      measure from must still be there. */
  ghost predicate Accepts(m: Miner, cfg: HeaderConfig, bs: seq<Header>, i: nat)
    requires ValidConfig(cfg) && 0 < i < |bs|
  {
    && NextOk(m, cfg, bs, i)
    && (Retargets(cfg, bs[i]) ==> i >= cfg.retargetInterval && bs[i - 1].height >= cfg.retargetInterval)
  }

  lemma TimeMeans(hs: seq<WorkHeader>, bs: seq<Header>, time: nat)
    requires |hs| < |bs| && forall j :: 0 <= j < |hs| ==> bs[j] == hs[j].header
    ensures TimeOk(hs, time) <==> (|hs| >= 11 ==> AboveMedian(TimesBefore(bs, |hs|), time))
  {
    if |hs| >= 11 {
      MedianMeans(LastTimes(hs, |hs|), time);
      assert TimesBefore(bs, |hs|) == LastTimes(hs, |hs|);
    }
  }

  /** The expected target, by position. */
  lemma TargetMeans(m: Miner, cfg: HeaderConfig, hs: seq<WorkHeader>, bs: seq<Header>)
    requires ValidConfig(cfg) && ChainOk(m, cfg, hs) && |bs| > |hs|
    requires forall j :: 0 <= j < |hs| ==> bs[j] == hs[j].header
    requires bs[|hs|].height == bs[|hs| - 1].height + 1
    ensures var n, r := |hs|, cfg.retargetInterval;
            (NextTarget(cfg, hs, bs[n], bs[n - 1]) == Ok(TargetOf(bs[n])) <==>
             && (if Retargets(cfg, bs[n]) then n >= r && bs[n - 1].height >= r && Measured(cfg, bs[n - 1], bs[n], bs[n - r])
                 else TargetOf(bs[n]) == TargetOf(bs[n - 1])))
  {
    var n, r := |hs|, cfg.retargetInterval;
    HeightAt(m, cfg, hs, n - 1);
    if Retargets(cfg, bs[n]) && bs[n - 1].height >= r {
      FindAt(hs, bs[n].height - r, n - r);
    }
  }

  lemma FindAt(hs: seq<WorkHeader>, height: nat, i: int)
    requires hs != [] && i == height - hs[0].header.height && i < |hs|
    ensures Find(hs, height) == if i >= 0 then Ok(hs[i]) else Err(Rejected)
  {
  }

  /** One header is accepted on top of a good chain exactly when it rightly follows it. */
  lemma AddOneExactly(m: Miner, cfg: HeaderConfig, c: Chain, h: Header, bs: seq<Header>)
    requires ValidConfig(cfg) && ChainOk(m, cfg, c.headers) && |bs| > |c.headers| && bs[|c.headers|] == h
    requires forall j :: 0 <= j < |c.headers| ==> bs[j] == c.headers[j].header
    ensures AddOne(m, cfg, c, c.headers[|c.headers| - 1].header, h).Ok? <==> Accepts(m, cfg, bs, |c.headers|)
  {
    if h.height == bs[|c.headers| - 1].height + 1 {
      TimeMeans(c.headers, bs, h.block.time);
      TargetMeans(m, cfg, c.headers, bs);
    }
  }

  lemma TargetCapped(cfg: HeaderConfig, bs: seq<Header>, i: nat)
    requires ValidConfig(cfg) && 0 < i < |bs| && TargetAt(cfg, bs, i)
    requires TargetOf(bs[i - 1]) <= FromCompact(cfg.target.maxTarget)
    ensures TargetOf(bs[i]) <= FromCompact(cfg.target.maxTarget)
  {
    var raw := TargetBounds(cfg, bs, i);
  }

  lemma SnocOk(m: Miner, cfg: HeaderConfig, hs: seq<WorkHeader>, w: WorkHeader)
    requires ValidConfig(cfg) && ChainOk(m, cfg, hs) && NextOk(m, cfg, Plain(hs + [w]), |hs|)
    ensures ChainOk(m, cfg, hs + [w])
  {
    var r := hs + [w];
    forall i | 0 < i < |r| ensures NextOk(m, cfg, Plain(r), i) {
      if i < |hs| {
        assert NextOk(m, cfg, Plain(hs), 0 + i);
        NextKept(m, cfg, Plain(hs), Plain(r), 0, i);
      }
    }
    TargetCapped(cfg, Plain(r), |hs|);
  }

  lemma AddOneOk(m: Miner, cfg: HeaderConfig, c: Chain, h: Header, c': Chain)
    requires ValidConfig(cfg) && ChainOk(m, cfg, c.headers)
    requires AddOne(m, cfg, c, c.headers[|c.headers| - 1].header, h) == Ok(c')
    ensures ChainOk(m, cfg, c'.headers)
    ensures c'.headers == c.headers + [WorkHeader(h, c'.currentWork)] && c'.currentWork == c.currentWork + WorkOf(h)
  {
    var w := WorkHeader(h, c'.currentWork);
    AddOneExactly(m, cfg, c, h, Plain(c.headers + [w]));
    SnocOk(m, cfg, c.headers, w);
  }
}
