/** What the entry points other than the end of a block leave alone. */
module EventFrames {
  import opened Common
  import opened BitcoinTypes
  import opened Transactions
  import opened CheckpointQueue
  import opened QueueInvariants
  import opened Bridge
  import opened BridgeInvariants
  import opened BridgeRun
  import opened DepositOutcomes

  /** Same signatory set, same reserve input. */
  predicate SameFrame(a: Checkpoint, b: Checkpoint) {
    b.sigset == a.sigset && ReserveSpent(b) == ReserveSpent(a)
  }

  ghost predicate SameFrames(q: Queue, q': Queue) {
    |q'.cps| == |q.cps| && forall k :: 0 <= k < |q.cps| ==> SameFrame(q.cps[k], q'.cps[k])
  }

  /** Every checkpoint but the last has the same outputs. */
  predicate SameOutputs(q: Queue, q': Queue) {
    |q'.cps| == |q.cps| && forall k :: 0 <= k < |q.cps| - 1 ==> Tx(q'.cps[k]).output == Tx(q.cps[k]).output
  }

  /** The same checkpoints, and none started to be signed. */
  ghost predicate SameSpan(q: Queue, q': Queue) {
    q'.index == q.index && SameFrames(q, q') && SameOutputs(q, q') && (HasSigning(q') ==> HasSigning(q))
  }

  /** Except for number 0, the building checkpoint starts with its reserve input. */
  lemma LastHasReserve(o: Oracle, q: Queue)
    requires Ordered(q) && Chain(o, q) && q.cps != []
    ensures Last(q).sigset.index == 0 || Tx(Last(q)).input != []
  {
    var n := |q.cps|;
    assert q.cps[n - 1].sigset.index == Start(q) + (n - 1);
    if n >= 2 {
      assert Linked(o, q.cps[n - 2], q.cps[n - 2 + 1]);
    }
  }

  lemma GrownFrames(o: Oracle, q: Queue, q': Queue, ins: seq<Input>, outs: seq<TxOut>, ts: seq<Transfer>)
    requires Ordered(q) && Chain(o, q) && LastReplaced(q, q') && Grown(Last(q), Last(q'), ins, outs, ts)
    ensures SameSpan(q, q')
  {
    LastHasReserve(o, q);
    assert |q.cps| >= 2 ==> q'.cps[|q.cps| - 2] == q.cps[|q.cps| - 2];
  }

  lemma DepositFrames(o: Oracle, cfg: Config, s: State, d: Deposit, s': State)
    requires GoodConfig(cfg) && Shape(s.queue) && Chain(o, s.queue) && RelayDeposit(o, cfg, s, d) == Ok(s')
    ensures SameSpan(s.queue, s'.queue) && s'.queue.confirmed == s.queue.confirmed
  {
    var t := DepositOutcome(o, cfg, s, d, s');
    if t.Taken? {
      GrownFrames(o, s.queue, s'.queue, [t.input], [], [CreditOf(cfg, d, t.fee)]);
    }
  }

  lemma WithdrawFrames(o: Oracle, cfg: Config, s: State, script: Bytes, funds: seq<Coin>)
    requires GoodConfig(cfg) && Shape(s.queue) && Chain(o, s.queue) && Withdraw(o, cfg, s, script, funds).Ok?
    ensures var s' := Withdraw(o, cfg, s, script, funds).value.0;
            && SameSpan(s.queue, s'.queue) && s'.queue.confirmed == s.queue.confirmed
            && s' == s.(queue := s'.queue, feePool := s'.feePool)
  {
    var outs := WithdrawGrows(o, cfg, s, script, funds);
    var s' := Withdraw(o, cfg, s, script, funds).value.0;
    if s'.queue != s.queue {
      GrownFrames(o, s.queue, s'.queue, [], outs, []);
    }
  }

  lemma SignedFrames(q: Queue, q': Queue, k: nat)
    requires SignedOnly(q, q', k) && Tx(q'.cps[k]).output == Tx(q.cps[k]).output
    requires q'.cps[k].status == q.cps[k].status || q'.cps[k].status.Complete?
    ensures SameSpan(q, q')
  {
    var a, b := Tx(q.cps[k]).input, Tx(q'.cps[k]).input;
    assert |a| == |Prevouts(a)| == |Prevouts(b)| == |b|;
    if a != [] {
      assert Prevouts(a)[0] == Prevouts(b)[0];
    }
    assert |q.cps| >= 2 && k != |q.cps| - 2 ==> q'.cps[|q.cps| - 2] == q.cps[|q.cps| - 2];
  }

  lemma SignFrames(o: Oracle, q: Queue, xpub: Xpub, sigs: seq<Signature>, i: nat, h: nat, q': Queue)
    requires Shape(q) && SignAt(o, q, xpub, sigs, i, h) == Ok(q')
    ensures SameSpan(q, q') && q'.confirmed == q.confirmed
  {
    var k := SignEffect(o, q, xpub, sigs, i, h, q');
    SignedFrames(q, q', k);
  }

  lemma ClearedFrames(q: Queue, q': Queue)
    requires AllCleared(q, q')
    ensures SameFrames(q, q') && SameOutputs(q, q')
  {
    forall k | 0 <= k < |q.cps|
      ensures SameFrame(q.cps[k], q'.cps[k]) && Tx(q'.cps[k]).output == Tx(q.cps[k]).output
    {
      assert Cleared(q.cps[k], q'.cps[k]);
    }
  }

  ghost predicate QuietFrame(s: State, e: Event, s': State) {
    && SameSpan(s.queue, s'.queue)
    && (e.RelayCheckpointEvent? || s'.queue.confirmed == s.queue.confirmed)
    && (e.RelayDepositEvent? || s'.outpoints == s.outpoints)
  }

  lemma ConfirmFrames(s: State, i: nat, proven: bool, s': State)
    requires RelayCheckpoint(s, i, proven) == Ok(s')
    ensures SameSpan(s.queue, s'.queue) && s'.outpoints == s.outpoints
  {
  }

  /** Whatever succeeds, except the end of a block, keeps number, sets and reserve inputs of the
      checkpoints; only a confirmation moves the confirmed index. */
  lemma QuietEvent(o: Oracle, cfg: Config, s: State, e: Event)
    requires GoodConfig(cfg) && Shape(s.queue) && Chain(o, s.queue) && Execute(o, cfg, s, e).Ok? && !e.EndBlockEvent?
    ensures QuietFrame(s, e, Execute(o, cfg, s, e).value.0)
  {
    match e {
      case RelayDepositEvent(d) =>
        DepositFrames(o, cfg, s, d, RelayDeposit(o, cfg, s, d).value);
      case WithdrawEvent(script, funds) =>
        WithdrawFrames(o, cfg, s, script, funds);
      case SignEvent(xpub, sigs, i, h) =>
        SignFrames(o, s.queue, xpub, sigs, i, h, SignAt(o, s.queue, xpub, sigs, i, h).value);
      case RelayCheckpointEvent(i, proven) =>
        ConfirmFrames(s, i, proven, RelayCheckpoint(s, i, proven).value);
      case SignRecoveryEvent(xpub, sigs) =>
    }
  }
}
