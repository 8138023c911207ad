/** When an end of block goes through: its step is due and every part of it can be computed. */
module StepRuns {
  import opened Common
  import opened BitcoinTypes
  import opened Transactions
  import opened Advance
  import opened CheckpointQueue
  import opened QueueInvariants
  import opened StepInvariants
  import opened StepOutcomes
  import opened Payouts
  import opened Bridge

  /** The queue right after the frozen checkpoint was stored. */
  function Frozen(j: Queue, frozen: Checkpoint): Queue
    requires |j.cps| >= 2
  {
    j.(cps := j.cps[|j.cps| - 2 := frozen])
  }

  /** The pool can be charged with the fee. */
  predicate Chargeable(units: nat, pool: int, fees: nat) {
    Times(fees, units) < U64 && -I64 <= pool - AsI64(Times(fees, units)) < I64
  }

  lemma HandoverRuns(ops: StepOps, units: nat, j: Queue, pool: int, fees: nat, a: Advanced, rate: nat, next: Checkpoint)
    requires 2 <= |j.cps| <= j.index + 1 && Chargeable(units, pool, fees)
    requires ops.fee(j) == Ok(fees) && ops.freeze(j.cps[|j.cps| - 2], fees) == Ok(a)
    requires ops.nextRate(Frozen(j, a.cp), j.cps[|j.cps| - 2].feeRate) == Ok(rate)
    requires ops.succeed(a, j.cps[|j.cps| - 1], rate) == Ok(next)
    ensures Handover(ops, units, j, pool) == Ok((Replaced(j, a.cp, next), pool - AsI64(Times(fees, units))))
  {
    var n := |j.cps|;
    assert Get(j, j.index - 1) == Ok(j.cps[n - 2]);
    assert Put(j, j.index - 1, a.cp) == Ok(Frozen(j, a.cp));
    assert Get(Frozen(j, a.cp), j.index) == Ok(j.cps[n - 1]);
  }

  lemma StepUnfolds(ops: StepOps, maxAge: nat, units: nat, q: Queue, pool: int, dep: bool, pushed: Queue, j: Queue,
                    done: (Queue, int))
    requires ops.should(q) == Ok(true) && MaybePush(q, ops.sigset(q), dep) == Ok((pushed, true))
    requires Prune(maxAge, pushed) == Ok(j) && j.index != 0 && Handover(ops, units, j, pool) == Ok(done)
    ensures StepWith(ops, maxAge, units, q, pool, dep) == Ok(Stepped(done.0, done.1, true))
  {
  }

  /** The fee rate of the next checkpoint is known. */
  predicate RateKnown(cfg: CheckpointConfig, q: Queue, b: Block, dep: bool, p: StepParts) {
    && p.popped < |q.cps|
    && NextFeeRate(cfg, Frozen(Joined(q, p.sigset, dep, p.popped), p.advanced.cp), Last(q).feeRate, b.btcHeight)
       == Ok(p.rate)
  }

  /** The outcome of a step with these parts. */
  function SteppedBy(cfg: Config, q: Queue, pool: int, dep: bool, p: StepParts): Stepped
    requires p.popped < |q.cps|
  {
    Stepped(Replaced(Joined(q, p.sigset, dep, p.popped), p.advanced.cp, p.next),
            pool - AsI64(Times(p.fees, cfg.unitsPerSat)), true)
  }

  /** A due step goes through when its parts can be computed and charged for. */
  lemma DueStepRuns(o: Oracle, cfg: Config, q: Queue, pool: int, b: Block, dep: bool, p: StepParts)
    requires 1 <= |q.cps| <= q.index + 1
    requires Computed(o, cfg.checkpoint, q, b, dep, p) && RateKnown(cfg.checkpoint, q, b, dep, p)
    requires Chargeable(cfg.unitsPerSat, pool, p.fees)
    ensures MaybeStep(o, cfg.checkpoint, cfg.unitsPerSat, q, pool, b, dep) == Ok(SteppedBy(cfg, q, pool, dep, p))
  {
    var ops, j := OpsFor(o, cfg.checkpoint, b), Joined(q, p.sigset, dep, p.popped);
    PushFollowsShould(o, cfg.checkpoint, q, b, dep);
    OpsSay(o, cfg.checkpoint, b, ops, q, j);
    OpsRun(ops, cfg, q, pool, dep, p);
  }

  /** The computations of a step on `q` that continues on `j`. */
  lemma OpsSay(o: Oracle, cfg: CheckpointConfig, b: Block, ops: StepOps, q: Queue, j: Queue)
    requires ops == OpsFor(o, cfg, b) && j.index == q.index + 1
    ensures ops.should(q) == ShouldPush(o, cfg, q, b) && ops.sigset(q) == NextSigset(o, q, b)
    ensures ops.fee(j) == CalcFee(o, cfg, j, q.index, b.commitment)
    ensures forall cp, fees :: ops.freeze(cp, fees) == Freeze(o, cfg, cp, b.commitment, fees)
    ensures forall q', rate :: ops.nextRate(q', rate) == NextFeeRate(cfg, q', rate, b.btcHeight)
    ensures forall a, cp, rate :: ops.succeed(a, cp, rate) == Succeed(o, a, cp, rate)
  {
    OpsAre(o, cfg, b, ops);
    assert ops.fee(j) == CalcFee(o, cfg, j, j.index - 1, b.commitment);
  }

  lemma OpsRun(ops: StepOps, cfg: Config, q: Queue, pool: int, dep: bool, p: StepParts)
    requires 1 <= |q.cps| <= q.index + 1 && p.popped < |q.cps| && Chargeable(cfg.unitsPerSat, pool, p.fees)
    requires ops.should(q) == Ok(true) && ops.sigset(q) == Ok(p.sigset)
    requires MaybePush(q, ops.sigset(q), dep).Ok? && MaybePush(q, ops.sigset(q), dep).value.1
    requires Prune(cfg.checkpoint.maxAge, PushedQueue(q, NewCheckpoint(p.sigset, dep))) ==
             Ok(Joined(q, p.sigset, dep, p.popped))
    requires ops.fee(Joined(q, p.sigset, dep, p.popped)) == Ok(p.fees) && ops.freeze(Last(q), p.fees) == Ok(p.advanced)
    requires ops.nextRate(Frozen(Joined(q, p.sigset, dep, p.popped), p.advanced.cp), Last(q).feeRate) == Ok(p.rate)
    requires ops.succeed(p.advanced, NewCheckpoint(p.sigset, dep), p.rate) == Ok(p.next)
    ensures StepWith(ops, cfg.checkpoint.maxAge, cfg.unitsPerSat, q, pool, dep) == Ok(SteppedBy(cfg, q, pool, dep, p))
  {
    var j, pushed := Joined(q, p.sigset, dep, p.popped), PushedQueue(q, NewCheckpoint(p.sigset, dep));
    JoinedEnds(q, p.sigset, dep, p.popped);
    HandoverRuns(ops, cfg.unitsPerSat, j, pool, p.fees, p.advanced, p.rate, p.next);
    StepUnfolds(ops, cfg.checkpoint.maxAge, cfg.unitsPerSat, q, pool, dep, pushed, j,
                (Replaced(j, p.advanced.cp, p.next), pool - AsI64(Times(p.fees, cfg.unitsPerSat))));
  }

  lemma StepAccepted(cfg: Config, q: Queue, pool: int, dep: bool, p: StepParts)
    requires 1 <= |q.cps| <= q.index + 1 && p.popped < |q.cps| && p.next.sigset.signatories != []
    ensures var r := SteppedBy(cfg, q, pool, dep, p); Accept(r) == Ok(r)
  {
    JoinedEnds(q, p.sigset, dep, p.popped);
  }

  /** An end of block goes through when the taking, the payout and the step do. */
  lemma BlockRuns(o: Oracle, cfg: Config, s: State, b: Block, env: PayoutEnv, taken: (Queue, seq<Transfer>), dep: bool,
                  r: Stepped)
    requires b.commitment !in s.hashes && TakePendingCompleted(s.queue) == Ok(taken) && PayoutMsgs(env, taken.1).Ok?
    requires BelowCapacity(cfg, taken.0) == Ok(dep)
    requires MaybeStep(o, cfg.checkpoint, cfg.unitsPerSat, taken.0, s.feePool, b, dep) == Ok(r) && Accept(r) == Ok(r)
    ensures ClockEndBlock(o, cfg, s, b, env) ==
            Ok((s.(queue := r.queue, feePool := r.feePool, hashes := s.hashes + {b.commitment}),
                PayoutMsgs(env, taken.1).value))
  {
    assert BeginBlockStep(o, cfg, taken.0, s.feePool, b) == Ok(r);
  }

  /** The state after a due step. */
  function After(cfg: Config, s: State, q: Queue, b: Block, dep: bool, p: StepParts): State
    requires p.popped < |q.cps|
  {
    var r := SteppedBy(cfg, q, s.feePool, dep, p);
    s.(queue := r.queue, feePool := r.feePool, hashes := s.hashes + {b.commitment})
  }

  /** Everything that an end of block with a due step computes. */
  ghost predicate BlockReady(o: Oracle, cfg: Config, s: State, b: Block, env: PayoutEnv, taken: (Queue, seq<Transfer>),
                        dep: bool, p: StepParts) {
    && b.commitment !in s.hashes && TakePendingCompleted(s.queue) == Ok(taken) && PayoutMsgs(env, taken.1).Ok?
    && BelowCapacity(cfg, taken.0) == Ok(dep) && 1 <= |taken.0.cps| <= taken.0.index + 1
    && Computed(o, cfg.checkpoint, taken.0, b, dep, p) && RateKnown(cfg.checkpoint, taken.0, b, dep, p)
    && Chargeable(cfg.unitsPerSat, s.feePool, p.fees) && p.next.sigset.signatories != []
  }

  /** An end of block with a due step goes through when all its parts do. */
  lemma DueBlockRuns(o: Oracle, cfg: Config, s: State, b: Block, env: PayoutEnv, taken: (Queue, seq<Transfer>),
                     dep: bool, p: StepParts)
    requires BlockReady(o, cfg, s, b, env, taken, dep, p)
    ensures ClockEndBlock(o, cfg, s, b, env) == Ok((After(cfg, s, taken.0, b, dep, p), PayoutMsgs(env, taken.1).value))
  {
    DueStepRuns(o, cfg, taken.0, s.feePool, b, dep, p);
    StepAccepted(cfg, taken.0, s.feePool, dep, p);
    BlockRuns(o, cfg, s, b, env, taken, dep, SteppedBy(cfg, taken.0, s.feePool, dep, p));
  }
}
