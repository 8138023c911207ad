/**
  The balance can fall. In every state that satisfies the run invariants and in which a due
  step, everything before it being confirmed, charges a fee of 2^63 units or more, the cast to
  a signed word raises the fee pool and the balance falls by 2^64, less what the payouts drop.
 */
module FeeWrap {
  import opened Common
  import opened BitcoinTypes
  import opened Transactions
  import opened Advance
  import opened CheckpointQueue
  import opened QueueInvariants
  import opened StepInvariants
  import opened StepOutcomes
  import opened Guards
  import opened Payouts
  import opened Bridge
  import opened BridgeInvariants
  import opened BridgeRun
  import opened RunInvariants
  import opened StepRuns
  import opened Accounting
  import TS = ThresholdSigs

  /** A step with the given set and fee is due on a short queue on which everything but the
      building checkpoint is confirmed. */
  ghost predicate Ripe(o: Oracle, cfg: CheckpointConfig, q: Queue, b: Block, sigset: SignatorySet, fees: nat) {
    && 2 <= |q.cps| < MIN_CHECKPOINTS && q.confirmed.Some? && q.confirmed.value + 1 == q.index
    && ShouldPush(o, cfg, q, b) == Ok(true) && CalcFee(o, cfg, q, q.index, b.commitment) == Ok(fees)
    && NextSigset(o, q, b) == Ok(sigset) && sigset.signatories != []
    && AdjustFeeRate(Last(q).feeRate, false, cfg).Ok?
    && TS.Fresh(TS.EntriesOf(Last(q).sigset.signatories)).Ok?
  }

  /** The due fee does not fit a signed word, and the pool can take what the cast makes of it. */
  predicate Wraps(cfg: Config, pool: int, fees: nat) {
    var due := Times(fees, cfg.unitsPerSat);
    I64 <= due < U64 && -I64 <= pool - AsI64(due) < I64
  }

  // ----- the parts of the step -----

  lemma PruneNothing(maxAge: nat, q: Queue, sigset: SignatorySet, dep: bool)
    requires 1 <= |q.cps| <= q.index + 1 && |q.cps| < MIN_CHECKPOINTS
    ensures Prune(maxAge, PushedQueue(q, NewCheckpoint(sigset, dep))) == Ok(Joined(q, sigset, dep, 0))
    ensures Joined(q, sigset, dep, 0) == PushedQueue(q, NewCheckpoint(sigset, dep))
  {
    var pushed := PushedQueue(q, NewCheckpoint(sigset, dep));
    assert Suffix(pushed.cps, 0) == pushed.cps;
  }

  /** After the freeze nothing is unconfirmed, so the rate is lowered. */
  lemma RateLowered(cfg: CheckpointConfig, j: Queue, frozen: Checkpoint, prev: nat, h: nat)
    requires 3 <= |j.cps| <= j.index + 1 && j.confirmed.Some? && j.confirmed.value + 2 == j.index && frozen.status.Signing?
    requires AdjustFeeRate(prev, false, cfg).Ok?
    ensures NextFeeRate(cfg, Frozen(j, frozen), prev, h).Ok?
  {
    var q := Frozen(j, frozen);
    assert HasSigning(q);
    assert LastCompletedIndex(q) == Ok(j.index - 2);
    assert FirstUnconfirmed(q) == Ok(None);
  }

  lemma NextKnown(o: Oracle, a: Advanced, next: Checkpoint, rate: nat)
    requires a.cp.sigset.signatories != [] && TS.Fresh(TS.EntriesOf(a.cp.sigset.signatories)).Ok?
    requires Pristine(a.excessInputs)
    ensures Succeed(o, a, next, rate).Ok? && Succeed(o, a, next, rate).value.sigset == next.sigset
  {
    RefreshPristine(a.excessInputs, |a.excessInputs|);
  }

  lemma FrozenFacts(o: Oracle, cfg: CheckpointConfig, q: Queue, commitment: Bytes, fees: nat, a: Advanced)
    requires ValidConfig(cfg) && Shape(q) && q.cps != [] && Freeze(o, cfg, Last(q), commitment, fees) == Ok(a)
    ensures a.cp.status.Signing? && a.cp.sigset == Last(q).sigset && Pristine(a.excessInputs)
    ensures Last(q).sigset.signatories != []
  {
    LastBuilding(q);
    BuildingUntouched(Last(q));
    FrozenUntouched(o, cfg, Last(q), commitment, fees);
  }

  lemma RipeRate(o: Oracle, cfg: CheckpointConfig, q: Queue, b: Block, dep: bool, sigset: SignatorySet, fees: nat,
                 frozen: Checkpoint)
    requires Ripe(o, cfg, q, b, sigset, fees) && |q.cps| <= q.index + 1 && frozen.status.Signing?
    ensures |Joined(q, sigset, dep, 0).cps| >= 2
    ensures NextFeeRate(cfg, Frozen(Joined(q, sigset, dep, 0), frozen), Last(q).feeRate, b.btcHeight).Ok?
  {
    JoinedEnds(q, sigset, dep, 0);
    RateLowered(cfg, Joined(q, sigset, dep, 0), frozen, Last(q).feeRate, b.btcHeight);
  }

  lemma RipeFreezes(o: Oracle, cfg: CheckpointConfig, q: Queue, b: Block, dep: bool, sigset: SignatorySet, fees: nat)
    returns (a: Advanced)
    requires ValidConfig(cfg) && QueueInv(o, cfg, q) && Ripe(o, cfg, q, b, sigset, fees)
    ensures Prune(cfg.maxAge, PushedQueue(q, NewCheckpoint(sigset, dep))) == Ok(Joined(q, sigset, dep, 0))
    ensures CalcFee(o, cfg, Joined(q, sigset, dep, 0), q.index, b.commitment) == Ok(fees)
    ensures Freeze(o, cfg, Last(q), b.commitment, fees) == Ok(a)
  {
    PruneNothing(cfg.maxAge, q, sigset, dep);
    var _, f := GuardSufficient(o, cfg, q, b, dep);
    a := Freeze(o, cfg, Last(q), b.commitment, fees).value;
  }

  /** The parts of a step on a ripe queue. */
  lemma RipeParts(o: Oracle, cfg: CheckpointConfig, q: Queue, b: Block, dep: bool, sigset: SignatorySet, fees: nat)
    returns (p: StepParts)
    requires ValidConfig(cfg) && QueueInv(o, cfg, q) && Ripe(o, cfg, q, b, sigset, fees)
    ensures Computed(o, cfg, q, b, dep, p) && RateKnown(cfg, q, b, dep, p)
    ensures p.fees == fees && p.next.sigset == sigset
  {
    var a := RipeFreezes(o, cfg, q, b, dep, sigset, fees);
    FrozenFacts(o, cfg, q, b.commitment, fees, a);
    RipeRate(o, cfg, q, b, dep, sigset, fees, a.cp);
    var rate := NextFeeRate(cfg, Frozen(Joined(q, sigset, dep, 0), a.cp), Last(q).feeRate, b.btcHeight).value;
    NextKnown(o, a, NewCheckpoint(sigset, dep), rate);
    p := StepParts(0, sigset, fees, a, rate, Succeed(o, a, NewCheckpoint(sigset, dep), rate).value);
  }

  // ----- the balance -----

  lemma ReadyDue(o: Oracle, cfg: Config, s: State, b: Block, env: PayoutEnv, taken: (Queue, seq<Transfer>), dep: bool,
                 p: StepParts)
    requires BlockReady(o, cfg, s, b, env, taken, dep, p)
    ensures DueFee(o, cfg, s, b) == p.fees && TakenAt(s) == taken.1
  {
    assert PrunedFee(o, cfg.checkpoint, Ok(Joined(taken.0, p.sigset, dep, p.popped)), taken.0.index, b) == p.fees;
    assert StepFee(o, cfg.checkpoint, taken.0, b, dep) == p.fees;
  }

  lemma SlackOf(o: Oracle, cfg: Config, s: State, b: Block, env: PayoutEnv)
    requires cfg.unitsPerSat > 0 && ClockEndBlock(o, cfg, s, b, env).Ok?
    ensures EventSlack(o, cfg, s, EndBlockEvent(b, env)) == EndBlockSlack(o, cfg, s, b, env)
  {
  }

  /** What an end of block with these parts does to the balance. */
  lemma ReadySlack(o: Oracle, cfg: Config, s: State, b: Block, env: PayoutEnv, taken: (Queue, seq<Transfer>), dep: bool,
                   p: StepParts)
    requires cfg.unitsPerSat > 0 && BlockReady(o, cfg, s, b, env, taken, dep, p)
    ensures ClockEndBlock(o, cfg, s, b, env).Ok?
    ensures EventSlack(o, cfg, s, EndBlockEvent(b, env))
         == DroppedAll(env, taken.1) - Wrap(Times(p.fees, cfg.unitsPerSat))
  {
    DueBlockRuns(o, cfg, s, b, env, taken, dep, p);
    ReadyDue(o, cfg, s, b, env, taken, dep, p);
    SlackOf(o, cfg, s, b, env);
    assert EndBlockSlack(o, cfg, s, b, env) == DroppedAll(env, taken.1) - Wrap(Times(p.fees, cfg.unitsPerSat));
  }

  /** Everything before the step of an end of block. */
  ghost predicate Opens(cfg: Config, s: State, b: Block, env: PayoutEnv, taken: (Queue, seq<Transfer>), dep: bool) {
    && b.commitment !in s.hashes && TakePendingCompleted(s.queue) == Ok(taken) && PayoutMsgs(env, taken.1).Ok?
    && BelowCapacity(cfg, taken.0) == Ok(dep)
  }

  lemma RipeReady(o: Oracle, cfg: Config, s: State, b: Block, env: PayoutEnv, taken: (Queue, seq<Transfer>), dep: bool,
                  sigset: SignatorySet, fees: nat) returns (p: StepParts)
    requires GoodConfig(cfg) && StateInv(o, cfg, s) && Opens(cfg, s, b, env, taken, dep)
    requires Ripe(o, cfg.checkpoint, taken.0, b, sigset, fees) && Wraps(cfg, s.feePool, fees)
    ensures BlockReady(o, cfg, s, b, env, taken, dep, p) && p.fees == fees
  {
    TakeCompletedClears(s.queue, taken);
    ClearedKeepsInv(o, cfg.checkpoint, s.queue, taken.0);
    p := RipeParts(o, cfg.checkpoint, taken.0, b, dep, sigset, fees);
  }

  /** With a ripe queue and a wrapping fee, the end of block goes through and the balance falls by
      2^64 less what its payouts drop. */
  lemma WrapLowersBalance(o: Oracle, cfg: Config, s: State, b: Block, env: PayoutEnv, taken: (Queue, seq<Transfer>),
                          dep: bool, sigset: SignatorySet, fees: nat, hist: History)
    requires GoodConfig(cfg) && StateInv(o, cfg, s) && Opens(cfg, s, b, env, taken, dep)
    requires Ripe(o, cfg.checkpoint, taken.0, b, sigset, fees) && Wraps(cfg, s.feePool, fees)
    ensures ClockEndBlock(o, cfg, s, b, env).Ok?
    ensures Balance(cfg, Apply(o, cfg, World(s, hist), EndBlockEvent(b, env)))
         == Balance(cfg, World(s, hist)) - U64 + DroppedAll(env, taken.1)
  {
    var p := RipeReady(o, cfg, s, b, env, taken, dep, sigset, fees);
    ReadySlack(o, cfg, s, b, env, taken, dep, p);
    EventBalance(o, cfg, World(s, hist), EndBlockEvent(b, env));
  }
}
