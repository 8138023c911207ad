/** What an end of block that pushes gives the next checkpoint: its fee rate, and whether deposits are taken. */
module StepRates {
  import opened Common
  import opened BitcoinTypes
  import opened Transactions
  import opened Advance
  import opened CheckpointQueue
  import opened QueueInvariants
  import opened StepInvariants
  import opened Guards
  import opened StepOutcomes
  import opened Bridge
  import opened RunInvariants
  import opened Payouts

  // ----- the fee rate -----

  lemma HandoverRate(ops: StepOps, units: nat, j: Queue, pool: int)
    returns (q1: Queue, a: Advanced, rate: nat, next: Checkpoint)
    requires 2 <= |j.cps| <= j.index + 1 && Handover(ops, units, j, pool).Ok?
    ensures q1 == j.(cps := j.cps[|j.cps| - 2 := a.cp])
    ensures ops.nextRate(q1, j.cps[|j.cps| - 2].feeRate) == Ok(rate)
    ensures ops.succeed(a, j.cps[|j.cps| - 1], rate) == Ok(next)
    ensures Handover(ops, units, j, pool).value.0 == q1.(cps := q1.cps[|j.cps| - 1 := next])
  {
    var prev := j.cps[|j.cps| - 2];
    a := ops.freeze(prev, ops.fee(j).value).value;
    q1 := j.(cps := j.cps[|j.cps| - 2 := a.cp]);
    rate := ops.nextRate(q1, prev.feeRate).value;
    next := ops.succeed(a, j.cps[|j.cps| - 1], rate).value;
  }

  /** The new checkpoint plays no part in its own fee rate. */
  lemma LastIsFree(cfg: CheckpointConfig, q: Queue, next: Checkpoint, prev: nat, btcHeight: nat, r: nat)
    requires |q.cps| >= 2 && RateFollows(cfg, q, prev, btcHeight, r)
    ensures RateFollows(cfg, q.(cps := q.cps[|q.cps| - 1 := next]), prev, btcHeight, r)
  {
  }

  /** A checkpoint nothing has happened to but, perhaps, inputs and outputs carried over. */
  predicate Opened(cp: Checkpoint, dep: bool) {
    && SingleTx(cp) && Tx(cp).lockTime == 0 && cp.pending == [] && cp.feesCollected == 0
    && cp.signedAtBtcHeight == None && cp.depositsEnabled == dep
  }

  /** The new checkpoint of a step, after the one that was building before it. */
  ghost predicate RateSet(cfg: CheckpointConfig, prev: nat, r: Queue, b: Block, dep: bool) {
    r.cps != [] && RateFollows(cfg, r, prev, b.btcHeight, Last(r).feeRate) && Opened(Last(r), dep)
  }

  lemma SucceedRate(o: Oracle, a: Advanced, building: Checkpoint, rate: nat, next: Checkpoint)
    requires Succeed(o, a, building, rate) == Ok(next)
    ensures next.feeRate == rate
    ensures forall dep :: Opened(building, dep) ==> Opened(next, dep)
  {
  }

  /** What the rate and the succession of a step have to do. */
  ghost predicate GoodRates(cfg: CheckpointConfig, ops: StepOps, b: Block) {
    && (forall q: Queue, prev: nat, r: nat ::
          ops.nextRate(q, prev) == Ok(r) && 1 <= |q.cps| <= q.index + 1 ==> RateFollows(cfg, q, prev, b.btcHeight, r))
    && (forall a: Advanced, building: Checkpoint, rate: nat, next: Checkpoint ::
          ops.succeed(a, building, rate) == Ok(next) ==>
            next.feeRate == rate && forall dep :: Opened(building, dep) ==> Opened(next, dep))
  }

  lemma OpsGoodRates(o: Oracle, cfg: CheckpointConfig, b: Block)
    requires cfg.minFeeRate <= cfg.maxFeeRate
    ensures GoodRates(cfg, OpsFor(o, cfg, b), b)
  {
    var ops := OpsFor(o, cfg, b);
    forall q: Queue, prev: nat, r: nat | ops.nextRate(q, prev) == Ok(r) && 1 <= |q.cps| <= q.index + 1
      ensures RateFollows(cfg, q, prev, b.btcHeight, r)
    {
      RateMoves(cfg, q, prev, b.btcHeight, r);
    }
    forall a: Advanced, building: Checkpoint, rate: nat, next: Checkpoint | ops.succeed(a, building, rate) == Ok(next)
      ensures next.feeRate == rate && forall dep :: Opened(building, dep) ==> Opened(next, dep)
    {
      SucceedRate(o, a, building, rate, next);
    }
  }

  lemma JoinedRate(cfg: CheckpointConfig, ops: StepOps, units: nat, b: Block, prev: nat, dep: bool, pool: int, j: Queue)
    requires GoodRates(cfg, ops, b) && 2 <= |j.cps| <= j.index + 1 && Handover(ops, units, j, pool).Ok?
    requires j.cps[|j.cps| - 2].feeRate == prev && Opened(j.cps[|j.cps| - 1], dep)
    ensures RateSet(cfg, prev, Handover(ops, units, j, pool).value.0, b, dep)
  {
    var q1, a, rate, next := HandoverRate(ops, units, j, pool);
    LastIsFree(cfg, q1, next, prev, b.btcHeight, rate);
  }

  lemma StepWithRate(cfg: CheckpointConfig, ops: StepOps, units: nat, q: Queue, pool: int, b: Block, dep: bool)
    requires GoodRates(cfg, ops, b) && 1 <= |q.cps| <= q.index + 1 && StepWith(ops, cfg.maxAge, units, q, pool, dep).Ok?
    requires StepWith(ops, cfg.maxAge, units, q, pool, dep).value.pushed
    ensures RateSet(cfg, Last(q).feeRate, StepWith(ops, cfg.maxAge, units, q, pool, dep).value.queue, b, dep)
  {
    var k, sigset := StepPushes(ops, cfg.maxAge, units, q, pool, dep);
    JoinedEnds(q, sigset, dep, k);
    JoinedRate(cfg, ops, units, b, Last(q).feeRate, dep, pool, Joined(q, sigset, dep, k));
  }

  lemma StepRate(o: Oracle, cfg: CheckpointConfig, units: nat, q: Queue, pool: int, b: Block, dep: bool, r: Stepped)
    requires cfg.minFeeRate <= cfg.maxFeeRate && 1 <= |q.cps| <= q.index + 1
    requires MaybeStep(o, cfg, units, q, pool, b, dep) == Ok(r) && r.pushed
    ensures RateSet(cfg, Last(q).feeRate, r.queue, b, dep)
  {
    OpsGoodRates(o, cfg, b);
    StepWithRate(cfg, OpsFor(o, cfg, b), units, q, pool, b, dep);
  }

  // ----- the capacity limit -----

  /** The reserve of the last completed checkpoint, if there is one, is below the limit. */
  predicate Room(cfg: Config, q: Queue) {
    var n := |q.cps|;
    n >= 2 ==> Tx(q.cps[n - 2]).output != [] && Tx(q.cps[n - 2]).output[0].value < cfg.capacityLimit
  }

  lemma CapacityMeans(cfg: Config, q: Queue, dep: bool)
    requires Ordered(q) && !HasSigning(q) && BelowCapacity(cfg, q) == Ok(dep)
    ensures dep <==> Room(cfg, q)
  {
  }

  lemma SameRoom(cfg: Config, q: Queue, q': Queue)
    requires AllCleared(q, q')
    ensures Room(cfg, q') <==> Room(cfg, q)
    ensures q.cps != [] ==> Last(q').feeRate == Last(q).feeRate
  {
    var n := |q.cps|;
    if n >= 1 {
      assert Cleared(q.cps[n - 1], q'.cps[n - 1]);
      if n >= 2 {
        assert Cleared(q.cps[n - 2], q'.cps[n - 2]);
      }
    }
  }

  lemma NoneSigned(o: Oracle, cfg: CheckpointConfig, units: nat, q: Queue, pool: int, b: Block, dep: bool)
    requires MaybeStep(o, cfg, units, q, pool, b, dep).Ok? && MaybeStep(o, cfg, units, q, pool, b, dep).value.pushed
    ensures !HasSigning(q)
  {
  }

  // ----- an end of block -----

  /** The end of a block moved on to another checkpoint. */
  predicate Moved(q: Queue, q': Queue) {
    q'.cps != [] && (q.cps == [] || q'.index != q.index)
  }

  /** The checkpoint an end of block adds has a rate that follows from the one before it, or the
      default when it is the first; nothing is pending or collected yet, and it takes deposits
      exactly when there is room for them. */
  ghost predicate Decided(cfg: Config, q: Queue, q': Queue, b: Block)
    requires q'.cps != []
  {
    && Opened(Last(q'), Room(cfg, q))
    && if q.cps == [] then Last(q').feeRate == 55
       else RateFollows(cfg.checkpoint, q', Last(q).feeRate, b.btcHeight, Last(q').feeRate)
  }

  lemma StepDecides(o: Oracle, cfg: Config, q: Queue, pool: int, b: Block, dep: bool, r: Stepped, out: Outcome)
    requires GoodConfig(cfg) && Ordered(q) && BelowCapacity(cfg, q) == Ok(dep)
    requires Describes(o, cfg, q, pool, b, dep, r, out) && Moved(q, r.queue)
    requires MaybeStep(o, cfg.checkpoint, cfg.unitsPerSat, q, pool, b, dep) == Ok(r)
    ensures Decided(cfg, q, r.queue, b)
  {
    assert !out.Idle? && r.pushed;
    NoneSigned(o, cfg.checkpoint, cfg.unitsPerSat, q, pool, b, dep);
    CapacityMeans(cfg, q, dep);
    if q.cps != [] {
      StepRate(o, cfg.checkpoint, cfg.unitsPerSat, q, pool, b, dep, r);
    }
  }

  lemma EndBlockDecides(o: Oracle, cfg: Config, s: State, b: Block, env: PayoutEnv)
    requires GoodConfig(cfg) && QueueInv(o, cfg.checkpoint, s.queue) && ClockEndBlock(o, cfg, s, b, env).Ok?
    requires Moved(s.queue, ClockEndBlock(o, cfg, s, b, env).value.0.queue)
    ensures Decided(cfg, s.queue, ClockEndBlock(o, cfg, s, b, env).value.0.queue, b)
  {
    var t, out := EndBlockOutcome(o, cfg, s, b, env);
    SameRoom(cfg, s.queue, t.taken);
    StepDecides(o, cfg, t.taken, s.feePool, b, t.dep, t.stepped, out);
  }
}
