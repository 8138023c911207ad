/**
  When the end of a block can fail. Taking pending transfers fails exactly when the first
  checkpoint it looks at has been pruned, and then every end of block fails until a
  confirmation arrives.
 */
module Stalls {
  import opened Common
  import opened BitcoinTypes
  import opened Transactions
  import opened Advance
  import opened CheckpointQueue
  import opened QueueInvariants
  import opened Payouts
  import opened Bridge
  import opened BridgeRun
  import opened EventFrames
  import opened RunInvariants
  import opened StepInvariants
  import opened Guards

  /** A checkpoint is complete, and the first one to take transfers from is gone: nothing is
      confirmed and checkpoint 0 was pruned, or the confirmed checkpoint itself was. */
  predicate Stalled(q: Queue) {
    LastCompletedIndex(q).Ok? && FirstTaken(q) < Start(q)
  }

  lemma {:induction false} UnhandledInRange(q: Queue, i: nat, confirmed: nat)
    requires UnhandledEnd(q, i, confirmed).Ok?
    ensures var end := UnhandledEnd(q, i, confirmed).value;
            i <= end && (i < end ==> InRange(q, i) && InRange(q, end - 1))
    decreases confirmed + 1 - i
  {
    if i <= confirmed && Get(q, i).value.status.Complete? {
      UnhandledInRange(q, i + 1, confirmed);
    }
  }

  /** Taking the transfers of confirmed checkpoints never fails. */
  lemma TakeConfirmedSucceeds(q: Queue)
    ensures TakePendingConfirmed(q).Ok?
  {
    if q.confirmed.Some? && UnhandledEnd(q, q.firstUnhandled, q.confirmed.value).Ok? {
      UnhandledInRange(q, q.firstUnhandled, q.confirmed.value);
    }
  }

  lemma LastInRange(q: Queue, last: nat)
    requires Ordered(q) && Retained(q) && LastCompletedIndex(q) == Ok(last)
    ensures InRange(q, last) && FirstTaken(q) <= last
  {
  }

  lemma TakeSecond(q: Queue, q1: Queue, last: nat)
    requires Ordered(q) && Retained(q) && LastCompletedIndex(q) == Ok(last) && AllCleared(q, q1)
    ensures TakeRange(q1, FirstTaken(q), last + 1).Ok? <==> Start(q) <= FirstTaken(q)
  {
    LastInRange(q, last);
  }

  /** Taking pending transfers fails exactly on a stalled queue. */
  lemma TakeFailsExactly(q: Queue)
    requires Ordered(q) && Retained(q)
    ensures TakePendingCompleted(q).Err? <==> Stalled(q)
  {
    TakeConfirmedSucceeds(q);
    TakeConfirmedClears(q);
    if LastCompletedIndex(q).Ok? {
      TakeSecond(q, TakePendingConfirmed(q).value.0, LastCompletedIndex(q).value);
    }
  }

  lemma StalledEndBlock(o: Oracle, cfg: Config, s: State, b: Block, env: PayoutEnv)
    requires TakePendingCompleted(s.queue).Err?
    ensures ClockEndBlock(o, cfg, s, b, env).Err?
  {
  }

  /**
    After every run, taking pending transfers fails exactly on a stalled queue; then every end
    of block fails, whatever its block.
   */
  lemma RunStalls(o: Oracle, cfg: Config, es: seq<Event>, b: Block, env: PayoutEnv)
    requires GoodConfig(cfg) && HonestRun(o, cfg, START, es)
    ensures var s := Run(o, cfg, START, es).st;
            && (TakePendingCompleted(s.queue).Err? <==> Stalled(s.queue))
            && (Stalled(s.queue) ==> ClockEndBlock(o, cfg, s, b, env).Err?)
  {
    RunKeepsInv(o, cfg, es);
    TakeFailsExactly(Run(o, cfg, START, es).st.queue);
    if Stalled(Run(o, cfg, START, es).st.queue) {
      StalledEndBlock(o, cfg, Run(o, cfg, START, es).st, b, env);
    }
  }

  // ----- only a confirmation ends a stall -----

  /** No event but a confirmation ends a stall, and any confirmation does. */
  lemma StallEnds(o: Oracle, cfg: Config, s: State, e: Event)
    requires GoodConfig(cfg) && StateInv(o, cfg, s) && Honest(s, e) && Stalled(s.queue) && Execute(o, cfg, s, e).Ok?
    ensures Stalled(Execute(o, cfg, s, e).value.0.queue) <==> !e.RelayCheckpointEvent?
  {
    if e.EndBlockEvent? {
      TakeFailsExactly(s.queue);
      StalledEndBlock(o, cfg, s, e.block, e.env);
      assert false;
    } else {
      QuietEvent(o, cfg, s, e);
    }
  }

  // ----- a prune that goes too far -----

  lemma FailedStepFailsBlock(o: Oracle, cfg: Config, s: State, b: Block, env: PayoutEnv, taken: (Queue, seq<Transfer>),
                             dep: bool)
    requires TakePendingCompleted(s.queue) == Ok(taken) && BelowCapacity(cfg, taken.0) == Ok(dep)
    requires MaybeStep(o, cfg.checkpoint, cfg.unitsPerSat, taken.0, s.feePool, b, dep).Err?
    ensures ClockEndBlock(o, cfg, s, b, env).Err?
  {
  }

  /** With checkpoint `c` confirmed the prune pops something above `c`, or with none confirmed the
      inputs do not cover the fee over what the prune leaves. */
  predicate TooFar(o: Oracle, cfg: CheckpointConfig, q: Queue, k: nat, commitment: Bytes)
    requires k < |q.cps| && cfg.maxOutputs >= 2
  {
    match q.confirmed
    case Some(c) => Start(q) + k > c + 1
    case None =>
      var fee := ViewFee(o, cfg, Last(q), CompleteFrom(q.cps, k), commitment);
      fee.Err? || !Covers(cfg, Last(q), fee.value)
  }

  /** A due step whose prune goes too far fails the whole end of block, in every state that
      satisfies the run invariant. */
  lemma PruneFailsBlock(o: Oracle, cfg: Config, s: State, b: Block, env: PayoutEnv, taken: (Queue, seq<Transfer>),
                        dep: bool, sigset: SignatorySet, k: nat)
    requires GoodConfig(cfg) && StateInv(o, cfg, s)
    requires TakePendingCompleted(s.queue) == Ok(taken) && BelowCapacity(cfg, taken.0) == Ok(dep)
    requires var q := taken.0;
             && k < |q.cps| && TooFar(o, cfg.checkpoint, q, k, b.commitment)
             && ShouldPush(o, cfg.checkpoint, q, b) == Ok(true) && NextSigset(o, q, b) == Ok(sigset)
             && Prune(cfg.checkpoint.maxAge, PushedQueue(q, NewCheckpoint(sigset, dep))) == Ok(Joined(q, sigset, dep, k))
    ensures ClockEndBlock(o, cfg, s, b, env).Err?
  {
    TakeCompletedClears(s.queue, taken);
    ClearedKeepsInv(o, cfg.checkpoint, s.queue, taken.0);
    ShouldIsGood(o, cfg.checkpoint, taken.0, b);
    JoinedFee(o, cfg.checkpoint, taken.0, sigset, dep, k, b.commitment);
    PruneDecides(o, cfg.checkpoint, cfg.unitsPerSat, taken.0, s.feePool, b, dep, sigset, k);
    FailedStepFailsBlock(o, cfg, s, b, env, taken, dep);
  }
}
