/** What a successful `maybe_step` did, and how sums over the checkpoints move with it. */
module StepOutcomes {
  import opened Common
  import opened BitcoinTypes
  import opened Transactions
  import opened Advance
  import opened CheckpointQueue
  import opened QueueInvariants
  import opened StepInvariants
  import opened Bridge

  /** A step is idle, adds the first checkpoint, or freezes one and starts the next. */
  datatype Outcome =
    | Idle
    | First(sigset: SignatorySet)
    | Pushed(parts: StepParts)

  /** What was pruned, the fee, the frozen and the next checkpoint are what `prune`,
      `calc_fee_checkpoint`, `advance` and `maybe_step` compute. */
  ghost predicate Computed(o: Oracle, cfg: CheckpointConfig, q: Queue, b: Block, dep: bool, p: StepParts) {
    && p.popped < |q.cps| && NextSigset(o, q, b) == Ok(p.sigset) && ShouldPush(o, cfg, q, b) == Ok(true)
    && Prune(cfg.maxAge, PushedQueue(q, NewCheckpoint(p.sigset, dep))) == Ok(Joined(q, p.sigset, dep, p.popped))
    && CalcFee(o, cfg, Joined(q, p.sigset, dep, p.popped), q.index, b.commitment) == Ok(p.fees)
    && Freeze(o, cfg, Last(q), b.commitment, p.fees) == Ok(p.advanced)
    && Succeed(o, p.advanced, NewCheckpoint(p.sigset, dep), p.rate) == Ok(p.next)
  }

  /** What a pushing step did to the queue and the fee pool. */
  ghost predicate Pushes(o: Oracle, units: nat, q: Queue, pool: int, r: Stepped, p: StepParts) {
    && Follows(q, r.queue, p.popped, p.advanced.cp, p.next) && r.pushed
    && Fits(o, q, p.advanced, p.next, p.fees)
    && (forall i :: 0 <= i < p.popped ==> q.cps[i].pending == [])
    && Times(p.fees, units) < U64
    && r.feePool == pool - AsI64(Times(p.fees, units))
  }

  ghost predicate Describes(o: Oracle, cfg: Config, q: Queue, pool: int, b: Block, dep: bool, r: Stepped, out: Outcome) {
    match out
    case Idle => r == Stepped(q, pool, false) && ShouldPush(o, cfg.checkpoint, q, b) != Ok(true)
    case First(sigset) =>
      && r == Stepped(q.(cps := [NewCheckpoint(sigset, dep)]), pool, true)
      && q.cps == [] && sigset.index == 0 && NextSigset(o, q, b) == Ok(sigset)
      && ShouldPush(o, cfg.checkpoint, q, b) == Ok(true)
    case Pushed(p) =>
      Pushes(o, cfg.unitsPerSat, q, pool, r, p) && Computed(o, cfg.checkpoint, q, b, dep, p)
  }

  lemma PushOutcome(o: Oracle, cfg: CheckpointConfig, ops: StepOps, units: nat, q: Queue, pool: int, dep: bool)
    returns (p: StepParts)
    requires GoodOps(o, cfg, ops) && QueueInv(o, cfg, q) && NonePending(q) && q.cps != []
    requires StepWith(ops, cfg.maxAge, units, q, pool, dep).Ok?
    requires StepWith(ops, cfg.maxAge, units, q, pool, dep).value.pushed
    ensures Pushes(o, units, q, pool, StepWith(ops, cfg.maxAge, units, q, pool, dep).value, p)
    ensures p.popped < |q.cps| && ops.sigset(q) == Ok(p.sigset) && ops.should(q) == Ok(true)
    ensures Prune(cfg.maxAge, PushedQueue(q, NewCheckpoint(p.sigset, dep))) == Ok(Joined(q, p.sigset, dep, p.popped))
    ensures ops.fee(Joined(q, p.sigset, dep, p.popped)) == Ok(p.fees)
    ensures ops.freeze(Last(q), p.fees) == Ok(p.advanced)
    ensures ops.succeed(p.advanced, NewCheckpoint(p.sigset, dep), p.rate) == Ok(p.next)
  {
    p := StepEffect(ops, cfg.maxAge, units, q, pool, dep);
    StepKeepsInv(o, cfg, ops, units, q, dep, p);
    PartsComputed(ops, units, q, dep, p);
  }

  lemma PartsComputed(ops: StepOps, units: nat, q: Queue, dep: bool, p: StepParts)
    requires StepsBy(ops, units, q, dep, p)
    ensures ops.freeze(Last(q), p.fees) == Ok(p.advanced)
    ensures ops.succeed(p.advanced, NewCheckpoint(p.sigset, dep), p.rate) == Ok(p.next)
    ensures Times(p.fees, units) < U64
  {
    JoinedEnds(q, p.sigset, dep, p.popped);
  }

  lemma OpsCompute(o: Oracle, cfg: CheckpointConfig, q: Queue, b: Block, dep: bool, ops: StepOps, p: StepParts)
    requires ops == OpsFor(o, cfg, b)
    requires p.popped < |q.cps| && ops.sigset(q) == Ok(p.sigset) && ops.should(q) == Ok(true)
    requires Prune(cfg.maxAge, PushedQueue(q, NewCheckpoint(p.sigset, dep))) == Ok(Joined(q, p.sigset, dep, p.popped))
    requires ops.fee(Joined(q, p.sigset, dep, p.popped)) == Ok(p.fees)
    requires ops.freeze(Last(q), p.fees) == Ok(p.advanced)
    requires ops.succeed(p.advanced, NewCheckpoint(p.sigset, dep), p.rate) == Ok(p.next)
    ensures Computed(o, cfg, q, b, dep, p)
  {
    assert ops.fee(Joined(q, p.sigset, dep, p.popped))
        == CalcFee(o, cfg, Joined(q, p.sigset, dep, p.popped), q.index, b.commitment);
  }

  lemma FirstOutcome(cfg: CheckpointConfig, ops: StepOps, units: nat, q: Queue, pool: int, dep: bool)
    returns (sigset: SignatorySet)
    requires GuardGood(cfg, ops, q) && Ordered(q) && q.cps == []
    requires StepWith(ops, cfg.maxAge, units, q, pool, dep).Ok?
    requires StepWith(ops, cfg.maxAge, units, q, pool, dep).value.pushed
    ensures StepWith(ops, cfg.maxAge, units, q, pool, dep) ==
            Ok(Stepped(q.(cps := [NewCheckpoint(sigset, dep)]), pool, true))
    ensures sigset.index == 0 && ops.sigset(q) == Ok(sigset) && ops.should(q) == Ok(true)
  {
    FirstStepEffect(ops, cfg.maxAge, units, q, pool, dep);
    sigset := ops.sigset(q).value;
  }

  lemma StepOutcome(o: Oracle, cfg: Config, q: Queue, pool: int, b: Block, dep: bool) returns (out: Outcome)
    requires GoodConfig(cfg) && QueueInv(o, cfg.checkpoint, q) && NonePending(q)
    requires MaybeStep(o, cfg.checkpoint, cfg.unitsPerSat, q, pool, b, dep).Ok?
    ensures Describes(o, cfg, q, pool, b, dep,
                      MaybeStep(o, cfg.checkpoint, cfg.unitsPerSat, q, pool, b, dep).value, out)
  {
    var r := MaybeStep(o, cfg.checkpoint, cfg.unitsPerSat, q, pool, b, dep).value;
    var ops := OpsFor(o, cfg.checkpoint, b);
    OpsForGood(o, cfg.checkpoint, b);
    if !r.pushed {
      IdleStep(o, cfg.checkpoint, cfg.unitsPerSat, q, pool, b, dep);
      out := Idle;
    } else if q.cps == [] {
      assert GuardGood(cfg.checkpoint, ops, q);
      var sigset := FirstOutcome(cfg.checkpoint, ops, cfg.unitsPerSat, q, pool, dep);
      out := First(sigset);
    } else {
      var p := PushOutcome(o, cfg.checkpoint, ops, cfg.unitsPerSat, q, pool, dep);
      OpsCompute(o, cfg.checkpoint, q, b, dep, ops, p);
      out := Pushed(p);
    }
  }

  // ----- sums over checkpoints -----

  /** A push replaces the building checkpoint by two and drops the pruned ones. */
  lemma FollowsSum(q: Queue, r: Queue, k: nat, frozen: Checkpoint, next: Checkpoint, f: Checkpoint -> int)
    requires Follows(q, r, k, frozen, next)
    ensures Sum(r.cps, f) == Sum(q.cps, f) - SumTo(q.cps, k, f) - f(Last(q)) + f(frozen) + f(next)
  {
    var n := |r.cps|;
    SumShift(q.cps, r.cps, k, n - 2, f);
    assert SumTo(r.cps, n, f) == SumTo(r.cps, n - 1, f) + f(next);
    assert SumTo(r.cps, n - 1, f) == SumTo(r.cps, n - 2, f) + f(frozen);
  }

  lemma LastReplacedSum(q: Queue, q': Queue, f: Checkpoint -> int)
    requires LastReplaced(q, q')
    ensures Sum(q'.cps, f) == Sum(q.cps, f) - f(Last(q)) + f(Last(q'))
  {
    SumUpdate(q.cps, |q.cps| - 1, Last(q'), f);
  }
}
