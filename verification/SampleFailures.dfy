/** Honest runs of the sample bridge that end in a failure: a stall, a prune that fails its block, and
    a reserve output that is credited and spent twice. */
module SampleFailures {
  import opened Common
  import opened BitcoinTypes
  import opened Transactions
  import opened CheckpointQueue
  import opened StepInvariants
  import opened Payouts
  import opened Bridge
  import opened BridgeRun
  import opened CreditOnce
  import opened RunInvariants
  import opened Stalls
  import opened StepRuns
  import opened Reachable
  import opened ReserveRelay
  import opened SampleBridge
  import opened SampleQueue
  import opened SampleRun
  import opened SampleDeposits
  import opened SampleReach

  const DEFAULTS := Settings(MILLION, TWELVE_DAYS)
  const FUNDS := MILLION // satoshis of the one deposit

  // ----- a stall -----

  /** Pruning checkpoint 0 while nothing is confirmed. */
  lemma PruneStalls(q: Queue, sigset: SignatorySet, frozen: Checkpoint, next: Checkpoint)
    requires Row(q, 9) && q.confirmed.None? && frozen.status.Signing?
    ensures |Joined(q, sigset, true, 1).cps| >= 2 && Stalled(Replaced(Joined(q, sigset, true, 1), frozen, next))
  {
    JoinedEnds(q, sigset, true, 1);
    var r := Replaced(Joined(q, sigset, true, 1), frozen, next);
    assert HasSigning(r);
    assert LastCompletedIndex(r) == Ok(8);
  }

  lemma NineAfforded(n: nat)
    requires n == 9
    ensures Affords(MILLION, TWELVE_DAYS, FUNDS, n)
    ensures FeeFor(32, 0, n) <= Left(FUNDS, n) && PrunedBy(TWELVE_DAYS, n, 1)
    ensures Chargeable(MILLION, PoolAt(MILLION, n), FeeFor(32, 1, n))
  {
  }

  /** The tenth block prunes checkpoint 0. */
  lemma TenthBlock(s: State) returns (s': State)
    requires StateInv(ORACLE, DEFAULTS, s) && Rolled(s, MILLION, TWELVE_DAYS, FUNDS, 9)
    ensures Leads(ORACLE, DEFAULTS, s, LayBlock(TWELVE_DAYS, 9), s') && Stalled(s'.queue)
  {
    NineAfforded(9);
    NewMark(9, 10);
    var q, p := BlockGoes(s, MILLION, TWELVE_DAYS, FUNDS, 9, Mark(10), 1);
    ClearedConfirmed(s.queue, q);
    PruneStalls(q, p.sigset, p.advanced.cp, p.next);
    s' := After(DEFAULTS, s, q, BlockAt(Times(10, TWELVE_DAYS), Mark(10)), true, p);
  }

  const STALLING := LayingRun(TWELVE_DAYS, FUNDS, 9) + [LayBlock(TWELVE_DAYS, 9)]

  /** With the default configuration: ten checkpoints in 120 days, none of them confirmed. */
  lemma StallReached() returns (s: State)
    ensures Reaches(ORACLE, DEFAULTS, STALLING, s) && Stalled(s.queue)
  {
    NineAfforded(9);
    s := ReachesRolled(MILLION, TWELVE_DAYS, FUNDS, 9);
    ReachesInv(ORACLE, DEFAULTS, LayingRun(TWELVE_DAYS, FUNDS, 9), s);
    s := TenthBlock(s);
  }

  /** From then on every end of block fails, whatever its time and data. */
  lemma StalledRun(b: Block, env: PayoutEnv)
    ensures GoodConfig(DEFAULTS) && HonestRun(ORACLE, DEFAULTS, START, STALLING)
    ensures ClockEndBlock(ORACLE, DEFAULTS, Run(ORACLE, DEFAULTS, START, STALLING).st, b, env).Err?
  {
    var s := StallReached();
    ReachesRun(ORACLE, DEFAULTS, STALLING, s);
    RunStalls(ORACLE, DEFAULTS, STALLING, b, env);
  }

  // ----- a prune that goes too far -----

  const DAY: nat := 86_400
  const DAILY := Settings(MILLION, DAY)
  const LATE := BlockAt(5_184_000, Padded([11])) // after sixty days

  lemma TenAfforded(n: nat)
    requires n == 10
    ensures Affords(MILLION, DAY, FUNDS, n) && FeeFor(32, 1, n) <= Left(FUNDS, n) && Times(n, DAY) == 864_000
  {
  }

  /** With only checkpoint 0 confirmed, a late push prunes checkpoints 0 and 1. */
  lemma LatePrune(q: Queue)
    requires Stack(q, DAY, FUNDS, 10) && q.confirmed == Some(0)
    ensures ShouldPush(ORACLE, Limits(DAY), q, LATE) == Ok(true)
    ensures NextSigset(ORACLE, q, LATE) == Ok(SetOn(5_184_000, 11))
    ensures Prune(1_814_400, PushedQueue(q, NewCheckpoint(SetOn(5_184_000, 11), true)))
         == Ok(Joined(q, SetOn(5_184_000, 11), true, 2))
  {
    TenAfforded(10);
    StackDue(q, DAY, FUNDS, 10, 5_184_000, Padded([11]));
    NewSet(q, 5_184_000, Padded([11]), 11);
    StackTimes(q, DAY, FUNDS, 10);
    PrunesOld(q, 10, 5_184_000);
  }

  lemma LateFails(s: State) returns (taken: (Queue, seq<Transfer>))
    requires StateInv(ORACLE, DAILY, s) && Stack(s.queue, DAY, FUNDS, 10) && s.queue.confirmed == Some(0)
    ensures TakePendingCompleted(s.queue) == Ok(taken) && ShouldPush(ORACLE, Limits(DAY), taken.0, LATE) == Ok(true)
    ensures ClockEndBlock(ORACLE, DAILY, s, LATE, ENV).Err?
  {
    taken := TakesAll(DAILY, s, 10);
    StackCleared(s.queue, taken.0, DAY, FUNDS, 10);
    HasRoom(MILLION, taken.0, DAY, FUNDS, 10);
    LatePrune(taken.0);
    PruneFailsBlock(ORACLE, DAILY, s, LATE, ENV, taken, true, SetOn(5_184_000, 11), 2);
  }

  const LAGGING := LayingRun(DAY, FUNDS, 10) + [CONFIRMED]

  lemma LagReached() returns (s: State)
    ensures Reaches(ORACLE, DAILY, LAGGING, s) && Stack(s.queue, DAY, FUNDS, 10) && s.queue.confirmed == Some(0)
  {
    TenAfforded(10);
    s := ReachesRolled(MILLION, DAY, FUNDS, 10);
    s := ConfirmsFirst(DAILY, s, DAY, FUNDS, 10);
  }

  /** A push is due, the transfers can be taken, and yet the block fails: its prune pops a
      checkpoint above the confirmed one. */
  lemma FailingPruneRun() returns (taken: (Queue, seq<Transfer>))
    ensures GoodConfig(DAILY) && HonestRun(ORACLE, DAILY, START, LAGGING)
    ensures var s := Run(ORACLE, DAILY, START, LAGGING).st;
            && TakePendingCompleted(s.queue) == Ok(taken) && ShouldPush(ORACLE, Limits(DAY), taken.0, LATE) == Ok(true)
            && ClockEndBlock(ORACLE, DAILY, s, LATE, ENV).Err?
  {
    var s := LagReached();
    ReachesRun(ORACLE, DAILY, LAGGING, s);
    ReachesInv(ORACLE, DAILY, LAGGING, s);
    taken := LateFails(s);
  }

  // ----- a relayed reserve output -----

  /** The address of one zero byte commits to [0], like the reserve output. */
  const ZERO := Address("\0")

  function ReserveDeposit(cp: Checkpoint): Deposit
    requires Tx(cp).output != []
  {
    Deposit(0, true, OutPoint(Txid(ORACLE, Tx(cp)), 0), Tx(cp).output[0], 0, ZERO)
  }

  lemma ZeroCommits()
    ensures ORACLE.commitment(ZERO) == [0]
  {
    assert |"\0"| == 1 && "\0"[0] as int % 256 == 0;
  }

  lemma ReserveIsNew(cp: Checkpoint)
    requires Tx(cp).input != [] && Tx(cp).output != []
    ensures ReserveDeposit(cp).outpoint != DEPOSITED
  {
    assert IdOf(TxBody(Tx(cp).lockTime, Prevouts(Tx(cp).input), Tx(cp).output))[0] == 1;
    assert DEPOSITED.txid[0] == 0;
  }

  lemma OneAfforded(n: nat)
    requires n == 1
    ensures Affords(MILLION, TWELVE_DAYS, FUNDS, n) && USER_FEE <= Left(FUNDS, n)
    ensures Times(Left(FUNDS, n), MILLION) < U64 && Times(USER_FEE, MILLION) < I64
    ensures -I64 <= PoolAt(MILLION, n) + Times(USER_FEE, MILLION) < I64
  {
  }

  /** It passes every check. */
  lemma ReserveAdmitted(s: State)
    requires Rolled(s, MILLION, TWELVE_DAYS, FUNDS, 1)
    ensures var cp := s.queue.cps[0]; var d := ReserveDeposit(cp);
            && Admitted(DEFAULTS, s, d, cp) && RelaysReserve(ORACLE, s.queue, d, 0) && cp.sigset == SetAt(TWELVE_DAYS, 0)
            && d.output == TxOut(Left(FUNDS, 1), ReserveScript(0)) && cp.feeRate == DEFAULT_FEE_RATE
  {
    var cp := s.queue.cps[0];
    assert Done(cp, TWELVE_DAYS, 0, FeeOf(0), Left(FUNDS, 1));
    ReserveIsNew(cp);
    RowGet(s.queue, 1, 0);
  }

  lemma ReserveGoes(s: State) returns (s': State)
    requires Rolled(s, MILLION, TWELVE_DAYS, FUNDS, 1)
    ensures s.queue.cps != [] && Tx(s.queue.cps[0]).output != []
    ensures RelayDeposit(ORACLE, DEFAULTS, s, ReserveDeposit(s.queue.cps[0])) == Ok(s')
  {
    var cp := s.queue.cps[0];
    var d := ReserveDeposit(cp);
    OneAfforded(1);
    ReserveAdmitted(s);
    ZeroCommits();
    assert [0] + [0] == [0, 0];
    var input;
    input, s' := DepositGoes(s, MILLION, TWELVE_DAYS, d, cp, 0);
  }

  /** The outpoint of an honest run's own reserve is spent by two inputs of the queue. */
  lemma ReserveSpentTwice() returns (es: seq<Event>, p: OutPoint)
    ensures GoodConfig(DEFAULTS) && HonestRun(ORACLE, DEFAULTS, START, es)
    ensures Sum(Run(ORACLE, DEFAULTS, START, es).st.queue.cps, SpentOf(Is(p))) >= 2
  {
    OneAfforded(1);
    var before := LayingRun(TWELVE_DAYS, FUNDS, 1);
    var s := ReachesRolled(MILLION, TWELVE_DAYS, FUNDS, 1);
    var s' := ReserveGoes(s);
    var d := ReserveDeposit(s.queue.cps[0]);
    es, p := before + [RelayDepositEvent(d)], d.outpoint;
    DepositLeads(ORACLE, DEFAULTS, s, d, s');
    ReachesRun(ORACLE, DEFAULTS, before, s);
    ReachesRun(ORACLE, DEFAULTS, es, s');
    ReserveAdmitted(s);
    ZeroCommits();
    AdmittedCredits(ORACLE, DEFAULTS, s, d, s.queue.cps[0]);
    ReserveCredited(ORACLE, DEFAULTS, before, d, 0, s');
  }
}
