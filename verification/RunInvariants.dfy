/** Every run keeps the queue invariants; pending transfers and outpoints are conserved. */
module RunInvariants {
  import opened Common
  import opened BitcoinTypes
  import opened Transactions
  import opened Advance
  import opened CheckpointQueue
  import opened QueueInvariants
  import opened StepInvariants
  import opened StepOutcomes
  import opened Guards
  import opened Payouts
  import opened Recovery
  import opened Bridge
  import opened BridgeInvariants
  import opened BridgeRun
  import opened DepositOutcomes
  import opened EventFrames

  // ----- queue invariants, event by event -----

  lemma DepositKeepsInv(o: Oracle, cfg: Config, s: State, d: Deposit, s': State)
    requires GoodConfig(cfg) && QueueInv(o, cfg.checkpoint, s.queue) && AllValid(s.recovery)
    requires RelayDeposit(o, cfg, s, d) == Ok(s')
    ensures QueueInv(o, cfg.checkpoint, s'.queue) && AllValid(s'.recovery)
  {
    var t := DepositOutcome(o, cfg, s, d, s');
    if t.Taken? {
      GrownKeepsInv(o, cfg.checkpoint, s.queue, s'.queue, [t.input], [], [CreditOf(cfg, d, t.fee)]);
    }
  }

  lemma WithdrawKeepsQueue(o: Oracle, cfg: Config, s: State, script: Bytes, funds: seq<Coin>)
    requires GoodConfig(cfg) && QueueInv(o, cfg.checkpoint, s.queue) && Withdraw(o, cfg, s, script, funds).Ok?
    ensures QueueInv(o, cfg.checkpoint, Withdraw(o, cfg, s, script, funds).value.0.queue)
  {
    var outs := WithdrawGrows(o, cfg, s, script, funds);
    var q' := Withdraw(o, cfg, s, script, funds).value.0.queue;
    if q' != s.queue {
      GrownKeepsInv(o, cfg.checkpoint, s.queue, q', [], outs, []);
    }
  }

  lemma ConfirmKeepsQueue(o: Oracle, cfg: CheckpointConfig, q: Queue, i: nat)
    requires QueueInv(o, cfg, q) && InRange(q, i) && q.cps[i - Start(q)].status.Complete?
    requires q.confirmed.Some? ==> q.confirmed.value < i
    ensures QueueInv(o, cfg, q.(confirmed := Some(i)))
  {
    assert StatusFits(q.cps[i - Start(q)].status, i - Start(q), |q.cps|);
    SameCheckpoints(o, q, q.(confirmed := Some(i)));
  }

  lemma RelayKeepsQueue(o: Oracle, cfg: Config, s: State, i: nat, proven: bool)
    requires QueueInv(o, cfg.checkpoint, s.queue) && Honest(s, RelayCheckpointEvent(i, proven))
    requires RelayCheckpoint(s, i, proven).Ok?
    ensures QueueInv(o, cfg.checkpoint, RelayCheckpoint(s, i, proven).value.queue)
  {
    ConfirmKeepsQueue(o, cfg.checkpoint, s.queue, i);
  }

  /** Only the confirmed index differs. */
  lemma SameCheckpoints(o: Oracle, q: Queue, q': Queue)
    requires Shape(q) && Chain(o, q) && Handled(q) && q' == q.(confirmed := q'.confirmed) && q.cps != []
    requires q'.confirmed.Some? ==> q'.confirmed.value + 1 + SigningOffset(q) <= q.index
    ensures Shape(q') && Chain(o, q') && Handled(q') && SigningOffset(q') == SigningOffset(q)
  {
  }

  lemma ClearedKeepsInv(o: Oracle, cfg: CheckpointConfig, q: Queue, q': Queue)
    requires QueueInv(o, cfg, q) && AllCleared(q, q')
    ensures QueueInv(o, cfg, q')
  {
    forall k | 0 <= k < |q'.cps|
      ensures CpValid(q'.cps[k]) && StatusFits(q'.cps[k].status, k, |q'.cps|)
           && q'.cps[k].sigset.index == Start(q') + k
    {
      assert Cleared(q.cps[k], q'.cps[k]) && CpValid(q.cps[k]) && StatusFits(q.cps[k].status, k, |q.cps|);
      assert q.cps[k].sigset.index == Start(q) + k;
    }
    forall k | 0 <= k < |q'.cps| - 1 ensures Linked(o, q'.cps[k], q'.cps[k + 1]) {
      assert Linked(o, q.cps[k], q.cps[k + 1]);
      assert Cleared(q.cps[k], q'.cps[k]) && Cleared(q.cps[k + 1], q'.cps[k + 1]);
    }
    forall k | 0 <= k < |q'.cps| - 2 ensures q'.cps[k].pending == [] {
      assert Cleared(q.cps[k], q'.cps[k]) && q.cps[k].pending == [];
    }
    assert SigningOffset(q') == SigningOffset(q) by {
      assert |q.cps| >= 2 ==> Cleared(q.cps[|q.cps| - 2], q'.cps[|q.cps| - 2]);
    }
  }

  lemma EmptiedNonePending(q: Queue, q': Queue)
    requires AllCleared(q, q') && CompleteEmpty(q, q')
    ensures NonePending(q')
  {
    forall k | 0 <= k < |q'.cps| && q'.cps[k].status.Complete? ensures q'.cps[k].pending == [] {
      assert Cleared(q.cps[k], q'.cps[k]);
    }
  }

  /** The stages of a successful end of block. */
  datatype BlockStages = BlockStages(taken: Queue, transfers: seq<Transfer>, dep: bool, stepped: Stepped)

  lemma EndBlockStages(o: Oracle, cfg: Config, s: State, b: Block, env: PayoutEnv) returns (t: BlockStages)
    requires ClockEndBlock(o, cfg, s, b, env).Ok?
    ensures TakePendingCompleted(s.queue) == Ok((t.taken, t.transfers))
    ensures PayoutMsgs(env, t.transfers) == Ok(ClockEndBlock(o, cfg, s, b, env).value.1)
    ensures BelowCapacity(cfg, t.taken) == Ok(t.dep)
    ensures MaybeStep(o, cfg.checkpoint, cfg.unitsPerSat, t.taken, s.feePool, b, t.dep) == Ok(t.stepped)
    ensures Accept(t.stepped).Ok?
    ensures ClockEndBlock(o, cfg, s, b, env).value.0 ==
            s.(queue := t.stepped.queue, feePool := t.stepped.feePool, hashes := s.hashes + {b.commitment})
  {
    var (q1, ts) := TakePendingCompleted(s.queue).value;
    var dep := BelowCapacity(cfg, q1).value;
    t := BlockStages(q1, ts, dep, BeginBlockStep(o, cfg, q1, s.feePool, b).value);
  }

  lemma MaybeStepKeepsQueue(o: Oracle, cfg: Config, q: Queue, feePool: int, b: Block, dep: bool)
    requires GoodConfig(cfg) && QueueInv(o, cfg.checkpoint, q) && NonePending(q)
    requires MaybeStep(o, cfg.checkpoint, cfg.unitsPerSat, q, feePool, b, dep).Ok?
    ensures QueueInv(o, cfg.checkpoint,
                     MaybeStep(o, cfg.checkpoint, cfg.unitsPerSat, q, feePool, b, dep).value.queue)
  {
    var ops := OpsFor(o, cfg.checkpoint, b);
    OpsForGood(o, cfg.checkpoint, b);
    StepWithKeepsQueue(o, cfg, ops, q, feePool, dep);
    if !MaybeStep(o, cfg.checkpoint, cfg.unitsPerSat, q, feePool, b, dep).value.pushed {
      IdleStep(o, cfg.checkpoint, cfg.unitsPerSat, q, feePool, b, dep);
    }
  }

  lemma StepWithKeepsQueue(o: Oracle, cfg: Config, ops: StepOps, q: Queue, feePool: int, dep: bool)
    requires GoodOps(o, cfg.checkpoint, ops) && QueueInv(o, cfg.checkpoint, q) && NonePending(q)
    requires StepWith(ops, cfg.checkpoint.maxAge, cfg.unitsPerSat, q, feePool, dep).Ok?
    ensures var stepped := StepWith(ops, cfg.checkpoint.maxAge, cfg.unitsPerSat, q, feePool, dep).value;
            stepped.pushed ==> QueueInv(o, cfg.checkpoint, stepped.queue)
  {
    if StepWith(ops, cfg.checkpoint.maxAge, cfg.unitsPerSat, q, feePool, dep).value.pushed {
      if q.cps == [] {
        FirstStepEffect(ops, cfg.checkpoint.maxAge, cfg.unitsPerSat, q, feePool, dep);
        assert GuardGood(cfg.checkpoint, ops, q);
        FirstKeepsInv(o, cfg.checkpoint, q, ops.sigset(q).value, dep);
      } else {
        var p := StepEffect(ops, cfg.checkpoint.maxAge, cfg.unitsPerSat, q, feePool, dep);
        StepKeepsInv(o, cfg.checkpoint, ops, cfg.unitsPerSat, q, dep, p);
      }
    }
  }

  lemma EndBlockKeepsQueue(o: Oracle, cfg: Config, s: State, b: Block, env: PayoutEnv)
    requires GoodConfig(cfg) && QueueInv(o, cfg.checkpoint, s.queue) && ClockEndBlock(o, cfg, s, b, env).Ok?
    ensures QueueInv(o, cfg.checkpoint, ClockEndBlock(o, cfg, s, b, env).value.0.queue)
  {
    var t := EndBlockStages(o, cfg, s, b, env);
    TakeCompletedClears(s.queue, (t.taken, t.transfers));
    ClearedKeepsInv(o, cfg.checkpoint, s.queue, t.taken);
    EmptiedNonePending(s.queue, t.taken);
    MaybeStepKeepsQueue(o, cfg, t.taken, s.feePool, b, t.dep);
  }

  /** The stages of an end of block, with what the step did. */
  lemma EndBlockOutcome(o: Oracle, cfg: Config, s: State, b: Block, env: PayoutEnv)
    returns (t: BlockStages, out: Outcome)
    requires GoodConfig(cfg) && QueueInv(o, cfg.checkpoint, s.queue) && ClockEndBlock(o, cfg, s, b, env).Ok?
    ensures TakePendingCompleted(s.queue) == Ok((t.taken, t.transfers))
    ensures PayoutMsgs(env, t.transfers) == Ok(ClockEndBlock(o, cfg, s, b, env).value.1)
    ensures BelowCapacity(cfg, t.taken) == Ok(t.dep)
    ensures Describes(o, cfg, t.taken, s.feePool, b, t.dep, t.stepped, out) && Accept(t.stepped).Ok?
    ensures MaybeStep(o, cfg.checkpoint, cfg.unitsPerSat, t.taken, s.feePool, b, t.dep) == Ok(t.stepped)
    ensures ClockEndBlock(o, cfg, s, b, env).value.0 ==
            s.(queue := t.stepped.queue, feePool := t.stepped.feePool, hashes := s.hashes + {b.commitment})
    ensures AllCleared(s.queue, t.taken) && Shape(t.taken)
  {
    t := EndBlockStages(o, cfg, s, b, env);
    TakeCompletedClears(s.queue, (t.taken, t.transfers));
    ClearedKeepsInv(o, cfg.checkpoint, s.queue, t.taken);
    EmptiedNonePending(s.queue, t.taken);
    out := StepOutcome(o, cfg, t.taken, s.feePool, b, t.dep);
  }

  // ----- what pruning leaves -----

  lemma SameLength(q: Queue, q': Queue)
    requires Retained(q) && |q'.cps| == |q.cps| && q'.index == q.index && q'.confirmed == q.confirmed
    ensures Retained(q')
  {
  }

  lemma PruneDepth(maxAge: nat, q: Queue, sigset: SignatorySet, dep: bool, k: nat)
    requires 1 <= |q.cps| <= q.index + 1 && k < |q.cps|
    requires Prune(maxAge, PushedQueue(q, NewCheckpoint(sigset, dep))) == Ok(Joined(q, sigset, dep, k))
    ensures k > 0 ==> |q.cps| + 1 - k >= MIN_CHECKPOINTS
  {
    var popped := PruneEffect(maxAge, PushedQueue(q, NewCheckpoint(sigset, dep)));
    assert |Joined(q, sigset, dep, k).cps| == |q.cps| + 1 - k == |q.cps| + 1 - popped;
  }

  /** No successful step prunes above the confirmed index or leaves fewer than ten checkpoints. */
  lemma StepRetains(o: Oracle, cfg: Config, q: Queue, pool: int, b: Block, dep: bool, r: Stepped, out: Outcome)
    requires Ordered(q) && Retained(q) && Describes(o, cfg, q, pool, b, dep, r, out)
    ensures Retained(r.queue)
  {
    match out {
      case Idle =>
      case First(sigset) =>
      case Pushed(p) =>
        FeeNeedsRetained(o, cfg.checkpoint, q, p.sigset, dep, p.popped, b.commitment);
        PruneDepth(cfg.checkpoint.maxAge, q, p.sigset, dep, p.popped);
        assert Start(r.queue) == Start(q) + p.popped;
    }
  }

  lemma EndBlockRetains(o: Oracle, cfg: Config, s: State, b: Block, env: PayoutEnv)
    requires GoodConfig(cfg) && QueueInv(o, cfg.checkpoint, s.queue) && Retained(s.queue)
    requires ClockEndBlock(o, cfg, s, b, env).Ok?
    ensures Retained(ClockEndBlock(o, cfg, s, b, env).value.0.queue)
  {
    var t, out := EndBlockOutcome(o, cfg, s, b, env);
    SameLength(s.queue, t.taken);
    StepRetains(o, cfg, t.taken, s.feePool, b, t.dep, t.stepped, out);
  }

  /** No entry point prunes above the confirmed index. */
  lemma EventRetains(o: Oracle, cfg: Config, s: State, e: Event)
    requires GoodConfig(cfg) && QueueInv(o, cfg.checkpoint, s.queue) && Retained(s.queue)
    requires Execute(o, cfg, s, e).Ok?
    ensures Retained(Execute(o, cfg, s, e).value.0.queue)
  {
    match e {
      case EndBlockEvent(b, env) =>
        EndBlockRetains(o, cfg, s, b, env);
      case RelayCheckpointEvent(i, proven) =>
      case _ =>
        QuietEvent(o, cfg, s, e);
        SameLength(s.queue, Execute(o, cfg, s, e).value.0.queue);
    }
  }

  // ----- every run -----

  ghost predicate StateInv(o: Oracle, cfg: Config, s: State) {
    QueueInv(o, cfg.checkpoint, s.queue) && Retained(s.queue) && AllValid(s.recovery)
  }

  lemma EventKeepsInv(o: Oracle, cfg: Config, s: State, e: Event)
    requires GoodConfig(cfg) && StateInv(o, cfg, s) && Honest(s, e) && Execute(o, cfg, s, e).Ok?
    ensures StateInv(o, cfg, Execute(o, cfg, s, e).value.0)
  {
    EventRetains(o, cfg, s, e);
    match e {
      case RelayDepositEvent(d) =>
        DepositKeepsInv(o, cfg, s, d, RelayDeposit(o, cfg, s, d).value);
      case WithdrawEvent(script, funds) =>
        WithdrawKeepsQueue(o, cfg, s, script, funds);
        WithdrawFrames(o, cfg, s, script, funds);
      case RelayCheckpointEvent(i, proven) =>
        RelayKeepsQueue(o, cfg, s, i, proven);
      case SignEvent(xpub, sigs, i, h) =>
        var k := SignKeepsInv(o, cfg.checkpoint, s.queue, xpub, sigs, i, h,
                              SignAt(o, s.queue, xpub, sigs, i, h).value);
      case SignRecoveryEvent(xpub, sigs) =>
        SignAllCorrect(o, xpub, s.recovery, sigs);
      case EndBlockEvent(b, env) =>
        var t := EndBlockStages(o, cfg, s, b, env);
        EndBlockKeepsQueue(o, cfg, s, b, env);
    }
  }

  /**
    Every reachable queue is empty or Complete* (Signing)? Building, numbered consecutively,
    linked into one reserve chain, with exact signing counters, at most the configured number
    of unconfirmed checkpoints, pending transfers in its last two checkpoints only, and nothing
    above the confirmed index pruned.
   */
  lemma {:induction false} RunKeepsInv(o: Oracle, cfg: Config, es: seq<Event>)
    requires GoodConfig(cfg) && HonestRun(o, cfg, START, es)
    ensures StateInv(o, cfg, Run(o, cfg, START, es).st)
    decreases |es|
  {
    if es == [] {
      EmptyQueueInv(o, cfg.checkpoint);
    } else {
      var before := es[..|es| - 1];
      RunKeepsInv(o, cfg, before);
      var s := Run(o, cfg, START, before).st;
      if Execute(o, cfg, s, es[|es| - 1]).Ok? {
        EventKeepsInv(o, cfg, s, es[|es| - 1]);
      }
    }
  }
}
