/**
  Exactly-once payout. A measure of transfers is any function `g`; that the sum of `g` over
  the inserted transfers is always its sum over the paid ones plus its sum over those still
  pending, for every `g`, says that the three agree as multisets.
 */
module PayoutOnce {
  import opened Common
  import opened BitcoinTypes
  import opened Transactions
  import opened Advance
  import opened CheckpointQueue
  import opened QueueInvariants
  import opened StepOutcomes
  import opened Payouts
  import opened Bridge
  import opened BridgeInvariants
  import opened BridgeRun
  import opened DepositOutcomes
  import opened RunInvariants

  function PendingSum(q: Queue, g: Transfer -> int): int {
    Sum(q.cps, PendingOf(g))
  }

  lemma GrownPending(q: Queue, q': Queue, ins: seq<Input>, outs: seq<TxOut>, ts: seq<Transfer>, g: Transfer -> int)
    requires LastReplaced(q, q') && Grown(Last(q), Last(q'), ins, outs, ts)
    ensures PendingSum(q', g) == PendingSum(q, g) + Sum(ts, g)
  {
    LastReplacedSum(q, q', PendingOf(g));
    SumConcat(Last(q).pending, ts, g);
  }

  /** A credited deposit inserts exactly the transfer the history records. */
  lemma DepositPending(o: Oracle, cfg: Config, s: State, d: Deposit, s': State, g: Transfer -> int)
    requires GoodConfig(cfg) && Shape(s.queue) && RelayDeposit(o, cfg, s, d) == Ok(s')
    ensures PendingSum(s'.queue, g) == PendingSum(s.queue, g) + Sum(Credited(cfg, s, d), g)
  {
    var t := DepositOutcome(o, cfg, s, d, s');
    if t.Taken? {
      GrownPending(s.queue, s'.queue, [t.input], [], [CreditOf(cfg, d, t.fee)], g);
    }
  }

  lemma WithdrawPending(o: Oracle, cfg: Config, s: State, script: Bytes, funds: seq<Coin>, g: Transfer -> int)
    requires GoodConfig(cfg) && Shape(s.queue) && Withdraw(o, cfg, s, script, funds).Ok?
    ensures PendingSum(Withdraw(o, cfg, s, script, funds).value.0.queue, g) == PendingSum(s.queue, g)
  {
    var outs := WithdrawGrows(o, cfg, s, script, funds);
    var q' := Withdraw(o, cfg, s, script, funds).value.0.queue;
    if q' != s.queue {
      GrownPending(s.queue, q', [], outs, [], g);
    }
  }

  lemma SignPending(o: Oracle, cfg: CheckpointConfig, q: Queue, xpub: Xpub, sigs: seq<Signature>, i: nat, h: nat,
                    g: Transfer -> int)
    requires QueueInv(o, cfg, q) && SignAt(o, q, xpub, sigs, i, h).Ok?
    ensures PendingSum(SignAt(o, q, xpub, sigs, i, h).value, g) == PendingSum(q, g)
  {
    var q' := SignAt(o, q, xpub, sigs, i, h).value;
    var k := SignKeepsInv(o, cfg, q, xpub, sigs, i, h, q');
    SumUpdate(q.cps, k, q'.cps[k], PendingOf(g));
  }

  /** A step neither loses nor duplicates a pending transfer: what it prunes has none. */
  lemma StepPending(o: Oracle, cfg: Config, q: Queue, pool: int, b: Block, dep: bool, r: Stepped, out: Outcome,
                    g: Transfer -> int)
    requires Describes(o, cfg, q, pool, b, dep, r, out)
    ensures PendingSum(r.queue, g) == PendingSum(q, g)
  {
    match out {
      case Idle =>
      case First(sigset) =>
        SumSingle(NewCheckpoint(sigset, dep), PendingOf(g));
      case Pushed(p) =>
        FollowsSum(q, r.queue, p.popped, p.advanced.cp, p.next, PendingOf(g));
        SumToZero(q.cps, p.popped, PendingOf(g));
    }
  }

  lemma EndBlockPending(o: Oracle, cfg: Config, s: State, b: Block, env: PayoutEnv, g: Transfer -> int)
    requires GoodConfig(cfg) && QueueInv(o, cfg.checkpoint, s.queue) && ClockEndBlock(o, cfg, s, b, env).Ok?
    ensures PendingSum(ClockEndBlock(o, cfg, s, b, env).value.0.queue, g) + Sum(TakenAt(s), g)
         == PendingSum(s.queue, g)
  {
    var t, out := EndBlockOutcome(o, cfg, s, b, env);
    if LastCompletedIndex(s.queue).Err? {
      NoneCompleted(s.queue);
    }
    TakeCompletedMoves(s.queue, (t.taken, t.transfers), g);
    StepPending(o, cfg, t.taken, s.feePool, b, t.dep, t.stepped, out, g);
  }

  ghost predicate PaidOnce(w: World, g: Transfer -> int) {
    Sum(w.hist.inserted, g) == Sum(w.hist.paid, TransferOf(g)) + PendingSum(w.st.queue, g)
  }

  lemma EventPaysOnce(o: Oracle, cfg: Config, w: World, e: Event, g: Transfer -> int)
    requires GoodConfig(cfg) && StateInv(o, cfg, w.st) && PaidOnce(w, g)
    ensures PaidOnce(Apply(o, cfg, w, e), g)
  {
    var s := w.st;
    if Execute(o, cfg, s, e).Ok? {
      match e {
        case RelayDepositEvent(d) =>
          DepositPending(o, cfg, s, d, RelayDeposit(o, cfg, s, d).value, g);
          SumConcat(w.hist.inserted, Credited(cfg, s, d), g);
        case EndBlockEvent(b, env) =>
          EndBlockPending(o, cfg, s, b, env, g);
          SumConcat(w.hist.paid, PaidAt(env, TakenAt(s)), TransferOf(g));
          SumAgrees(PaidAt(env, TakenAt(s)), TakenAt(s), TransferOf(g), g);
        case _ =>
          QuietPending(o, cfg, s, e, g);
      }
    }
  }

  lemma QuietPending(o: Oracle, cfg: Config, s: State, e: Event, g: Transfer -> int)
    requires GoodConfig(cfg) && QueueInv(o, cfg.checkpoint, s.queue) && Execute(o, cfg, s, e).Ok?
    requires !e.RelayDepositEvent? && !e.EndBlockEvent?
    ensures PendingSum(Execute(o, cfg, s, e).value.0.queue, g) == PendingSum(s.queue, g)
  {
    match e {
      case WithdrawEvent(script, funds) =>
        WithdrawPending(o, cfg, s, script, funds, g);
      case SignEvent(xpub, sigs, i, h) =>
        SignPending(o, cfg.checkpoint, s.queue, xpub, sigs, i, h, g);
      case RelayCheckpointEvent(i, proven) =>
      case SignRecoveryEvent(xpub, sigs) =>
    }
  }

  /** Over every run, each transfer ever inserted was paid out once or is pending once. */
  lemma {:induction false} RunPaysOnce(o: Oracle, cfg: Config, es: seq<Event>, g: Transfer -> int)
    requires GoodConfig(cfg) && HonestRun(o, cfg, START, es)
    ensures PaidOnce(Run(o, cfg, START, es), g)
    decreases |es|
  {
    if es != [] {
      var before := es[..|es| - 1];
      RunPaysOnce(o, cfg, before, g);
      RunKeepsInv(o, cfg, before);
      EventPaysOnce(o, cfg, Run(o, cfg, START, before), es[|es| - 1], g);
    }
  }

  // ----- only complete checkpoints pay out -----

  ghost predicate OnlyComplete(a: Queue, b: Queue) {
    |b.cps| == |a.cps| &&
    forall k :: 0 <= k < |a.cps| && !a.cps[k].status.Complete? ==> b.cps[k].pending == a.cps[k].pending
  }

  lemma {:induction false} UnhandledComplete(q: Queue, i: nat, confirmed: nat)
    requires UnhandledEnd(q, i, confirmed).Ok?
    ensures forall k :: 0 <= k < |q.cps| && i <= Start(q) + k < UnhandledEnd(q, i, confirmed).value ==>
              q.cps[k].status.Complete?
    decreases confirmed + 1 - i
  {
    if i <= confirmed && Get(q, i).value.status.Complete? {
      UnhandledComplete(q, i + 1, confirmed);
    }
  }

  lemma TakeConfirmedOnlyComplete(q: Queue)
    requires TakePendingConfirmed(q).Ok?
    ensures OnlyComplete(q, TakePendingConfirmed(q).value.0)
  {
    if q.confirmed.Some? {
      var end := UnhandledEnd(q, q.firstUnhandled, q.confirmed.value);
      if end.Ok? {
        UnhandledComplete(q, q.firstUnhandled, q.confirmed.value);
      }
    }
  }

  /** Transfers are only taken from complete checkpoints, and all complete ones are emptied. */
  lemma TakenFromComplete(o: Oracle, cfg: CheckpointConfig, q: Queue, taken: (Queue, seq<Transfer>))
    requires QueueInv(o, cfg, q) && TakePendingCompleted(q) == Ok(taken)
    ensures OnlyComplete(q, taken.0) && CompleteEmpty(q, taken.0)
  {
    TakeCompletedClears(q, taken);
    TakenOnlyComplete(q, taken);
  }

  lemma TakenOnlyComplete(q: Queue, taken: (Queue, seq<Transfer>))
    requires Ordered(q) && TakePendingCompleted(q) == Ok(taken)
    ensures OnlyComplete(q, taken.0)
  {
    TakeConfirmedOnlyComplete(q);
    TakeConfirmedClears(q);
    var first, more := TakeTwice(q, taken);
    if LastCompletedIndex(q).Ok? {
      RangeOnlyComplete(q, first.0, LastCompletedIndex(q).value);
    }
  }

  lemma RangeOnlyComplete(q: Queue, q1: Queue, last: nat)
    requires Ordered(q) && LastCompletedIndex(q) == Ok(last) && OnlyComplete(q, q1) && AllCleared(q, q1)
    requires TakeRange(q1, FirstTaken(q), last + 1).Ok?
    ensures OnlyComplete(q, TakeRange(q1, FirstTaken(q), last + 1).value.0)
  {
    var q2 := TakeRange(q1, FirstTaken(q), last + 1).value.0;
    forall k | 0 <= k < |q.cps| && !q.cps[k].status.Complete? ensures q2.cps[k].pending == q.cps[k].pending {
      assert StatusFits(q.cps[k].status, k, |q.cps|);
      assert Start(q) + k > last;
    }
  }
}
