/** Runs of the light client: reorganisation, work accounting and pruning. */
module HeaderRuns {
  import opened Common
  import opened Targets
  import opened Headers
  import opened HeaderInvariants

  // ----- a batch of headers -----

  /** `c'` is `c` with the first `n` new headers on top. */
  ghost predicate Grown(c: Chain, c': Chain, added: seq<Header>, n: nat)
    requires n <= |added|
  {
    && |c'.headers| == |c.headers| + n
    && (forall i :: 0 <= i < |c.headers| ==> c'.headers[i] == c.headers[i])
    && (n > 0 ==> c'.headers[|c'.headers| - 1].header == added[n - 1])
    && Sum(c'.headers, QueuedWork) == Sum(c.headers, QueuedWork) + SumTo(added, n, HeaderWork)
    && c'.currentWork == c.currentWork + SumTo(added, n, HeaderWork)
  }

  lemma GrownMore(c: Chain, front: Chain, c': Chain, added: seq<Header>, n: nat)
    requires 0 < n <= |added| && Grown(c, front, added, n - 1)
    requires c' == Chain(front.headers + [WorkHeader(added[n - 1], c'.currentWork)],
                         front.currentWork + WorkOf(added[n - 1]))
    ensures Grown(c, c', added, n)
  {
    SumSnoc(front.headers, WorkHeader(added[n - 1], c'.currentWork), QueuedWork);
  }

  lemma {:induction false} AddAllOk(m: Miner, cfg: HeaderConfig, c: Chain, added: seq<Header>, n: nat, c': Chain)
    requires ValidConfig(cfg) && ChainOk(m, cfg, c.headers) && n <= |added|
    requires AddAll(m, cfg, c, c.headers[|c.headers| - 1].header, added, n) == Ok(c')
    ensures ChainOk(m, cfg, c'.headers) && Grown(c, c', added, n)
  {
    if n > 0 {
      var prev := c.headers[|c.headers| - 1].header;
      var front := AddAll(m, cfg, c, prev, added, n - 1).value;
      AddAllOk(m, cfg, c, added, n - 1, front);
      AddOneOk(m, cfg, front, added[n - 1], c');
      GrownMore(c, front, c', added, n);
    }
  }

  // ----- rewinding -----

  lemma {:induction false} KeepBelowIs(m: Miner, cfg: HeaderConfig, hs: seq<WorkHeader>, n: nat, height: nat)
    requires ValidConfig(cfg) && ChainOk(m, cfg, hs) && n <= |hs|
    requires hs[0].header.height <= height && height - hs[0].header.height <= n
    ensures KeepBelow(hs, n, height)
         == if height == 0 then Err(Rejected) else Ok(height - hs[0].header.height)
  {
    if n > 0 {
      HeightAt(m, cfg, hs, n - 1);
      if height - hs[0].header.height <= n - 1 {
        KeepBelowIs(m, cfg, hs, n - 1, height);
      }
    }
  }

  /** What a rewind leaves: the headers below the first new one. */
  ghost predicate Prefix(c: Chain, base: Chain) {
    && |base.headers| <= |c.headers| && base.currentWork == c.currentWork
    && forall i :: 0 <= i < |base.headers| ==> base.headers[i] == c.headers[i]
  }

  lemma RewoundIs(m: Miner, cfg: HeaderConfig, c: Chain, first: Header, base: Chain)
    requires ValidConfig(cfg) && ChainOk(m, cfg, c.headers) && Rewound(m, c, first) == Ok(base)
    ensures Prefix(c, base)
    ensures first.height <= Height(c.headers) ==>
              && c.headers[0].header.height <= first.height
              && |base.headers| == first.height - c.headers[0].header.height
    ensures first.height > Height(c.headers) ==> base == c
  {
    var n := |c.headers|;
    HeightAt(m, cfg, c.headers, n - 1);
    if first.height <= Height(c.headers) {
      KeepBelowIs(m, cfg, c.headers, n, first.height);
    }
  }

  /** The header below the first new one is the last of the rewound queue. */
  lemma PrevIsLast(m: Miner, cfg: HeaderConfig, c: Chain, first: Header, base: Chain)
    requires ValidConfig(cfg) && ChainOk(m, cfg, c.headers) && Rewound(m, c, first) == Ok(base)
    requires first.height > 0 && Find(base.headers, first.height - 1).Ok?
    ensures base.headers != [] && ChainOk(m, cfg, base.headers) && base.headers[0] == c.headers[0]
    ensures Find(base.headers, first.height - 1).value == base.headers[|base.headers| - 1]
  {
    RewoundIs(m, cfg, c, first, base);
    HeightAt(m, cfg, c.headers, |c.headers| - 1);
    PrefixOk(m, cfg, c, base);
    LastFound(base.headers, first.height - 1);
  }

  lemma PrefixOk(m: Miner, cfg: HeaderConfig, c: Chain, base: Chain)
    requires ValidConfig(cfg) && ChainOk(m, cfg, c.headers) && Prefix(c, base) && base.headers != []
    ensures ChainOk(m, cfg, base.headers) && base.headers[0] == c.headers[0]
  {
    PartOk(m, cfg, c.headers, base.headers, 0);
  }

  lemma LastFound(hs: seq<WorkHeader>, height: nat)
    requires hs != [] && height + 1 == hs[0].header.height + |hs|
    ensures Find(hs, height) == Ok(hs[|hs| - 1])
  {
  }

  // ----- one successful add -----

  /** The work taken off the back by an add. */
  ghost function Removed(c: Chain, base: Chain): int {
    Sum(c.headers, QueuedWork) - Sum(base.headers, QueuedWork)
  }

  lemma RemovedNonNegative(c: Chain, base: Chain)
    requires Prefix(c, base)
    ensures Removed(c, base) >= 0
  {
    var n := |base.headers|;
    SumToAgrees(base.headers, c.headers, n, QueuedWork, QueuedWork);
    SumToMonotone(c.headers, n, |c.headers|, QueuedWork);
  }

  /**
    The reorganisation rule: an accepted batch keeps the chain valid, never replaces the first
    header, strictly increases the total work, and the work counter grows by what was added
    although headers were taken off.
   */
  lemma ExtendedOk(m: Miner, cfg: HeaderConfig, c: Chain, added: seq<Header>, longer: Chain) returns (base: Chain)
    requires ValidConfig(cfg) && ChainOk(m, cfg, c.headers) && Extended(m, cfg, c, added) == Ok(longer)
    ensures Rewound(m, c, added[0]) == Ok(base) && Prefix(c, base)
    ensures ChainOk(m, cfg, longer.headers) && longer.headers[0] == c.headers[0]
    ensures Sum(longer.headers, QueuedWork) > Sum(c.headers, QueuedWork)
    ensures longer.currentWork - Sum(longer.headers, QueuedWork)
         == c.currentWork - Sum(c.headers, QueuedWork) + Removed(c, base)
    ensures Grown(base, longer, added, |added|)
  {
    base := Rewound(m, c, added[0]).value;
    RewoundIs(m, cfg, c, added[0], base);
    PrevIsLast(m, cfg, c, added[0], base);
    AddAllOk(m, cfg, base, added, |added|, longer);
  }

  // ----- pruning -----

  lemma SuffixWork(hs: seq<WorkHeader>, k: nat)
    requires k <= |hs|
    ensures Sum(Suffix(hs, k), QueuedWork) == Sum(hs, QueuedWork) - SumTo(hs, k, QueuedWork)
  {
    SumShift(hs, Suffix(hs, k), k, |hs| - k, QueuedWork);
  }

  lemma PruneOk(m: Miner, cfg: HeaderConfig, c: Chain)
    requires ValidConfig(cfg) && ChainOk(m, cfg, c.headers) && c.currentWork >= Sum(c.headers, QueuedWork)
    ensures var k := Surplus(cfg, |c.headers|); var r := PruneFront(cfg, c);
            && c.currentWork >= WorkOfFirst(c.headers, k)
            && ChainOk(m, cfg, r.headers) && |r.headers| <= cfg.maxLength
            && r.currentWork - Sum(r.headers, QueuedWork) == c.currentWork - Sum(c.headers, QueuedWork)
  {
    var k := Surplus(cfg, |c.headers|);
    SuffixWork(c.headers, k);
    SumToMonotone(c.headers, k, |c.headers|, QueuedWork);
    PartOk(m, cfg, c.headers, Suffix(c.headers, k), k);
  }

  // ----- runs -----

  /** The queue and the work that reorganisations have taken off so far. */
  datatype Client = Client(chain: Chain, reorged: int)

  ghost function Relay(m: Miner, cfg: HeaderConfig, cl: Client, added: seq<Header>): Client
    requires ValidConfig(cfg)
  {
    if |added| > MAX_RELAY then cl else
    match Add(m, cfg, cl.chain, added)
    case Err(_) => cl
    case Ok(chain) => Client(chain, cl.reorged + Removed(cl.chain, Rewound(m, cl.chain, added[0]).value))
  }

  ghost function Run(m: Miner, cfg: HeaderConfig, trusted: Header, batches: seq<seq<Header>>, n: nat): Client
    requires ValidConfig(cfg) && n <= |batches|
  {
    if n == 0 then Client(Configured(trusted), 0)
    else Relay(m, cfg, Run(m, cfg, trusted, batches, n - 1), batches[n - 1])
  }

  /** The header queue invariant, with the exact value of the work counter. */
  ghost predicate ClientOk(m: Miner, cfg: HeaderConfig, cl: Client)
    requires ValidConfig(cfg)
  {
    && ChainOk(m, cfg, cl.chain.headers) && |cl.chain.headers| <= cfg.maxLength
    && cl.chain.currentWork == Sum(cl.chain.headers, QueuedWork) + cl.reorged
    && cl.reorged >= 0
  }

  lemma RelayOk(m: Miner, cfg: HeaderConfig, cl: Client, added: seq<Header>)
    requires ValidConfig(cfg) && ClientOk(m, cfg, cl)
    ensures ClientOk(m, cfg, Relay(m, cfg, cl, added))
    ensures Extended(m, cfg, cl.chain, added).Ok? ==> Add(m, cfg, cl.chain, added).Ok?
  {
    if Extended(m, cfg, cl.chain, added).Ok? {
      var longer := Extended(m, cfg, cl.chain, added).value;
      var base := ExtendedOk(m, cfg, cl.chain, added, longer);
      RemovedNonNegative(cl.chain, base);
      PruneOk(m, cfg, longer);
    }
  }

  /**
    After any sequence of relayed batches: heights are consecutive, headers are linked by hash,
    every header past the eleventh is above the median of the eleven before it, targets follow
    the retarget rule and stay below the maximum, the work counter is the queued work plus all
    work ever taken off by reorganisations, and so pruning never subtracts too much.
   */
  lemma {:induction false} RunOk(m: Miner, cfg: HeaderConfig, trusted: Header, batches: seq<seq<Header>>, n: nat)
    requires ValidConfig(cfg) && n <= |batches| && TargetOf(trusted) <= FromCompact(cfg.target.maxTarget)
    ensures ClientOk(m, cfg, Run(m, cfg, trusted, batches, n))
  {
    if n == 0 {
      SumSingle(WorkHeader(trusted, WorkOf(trusted)), QueuedWork);
    } else {
      RunOk(m, cfg, trusted, batches, n - 1);
      RelayOk(m, cfg, Run(m, cfg, trusted, batches, n - 1), batches[n - 1]);
    }
  }
}
