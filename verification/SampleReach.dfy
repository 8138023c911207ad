/**
  Reachable states of the sample bridge. For every number of checkpoints that its funds, its
  limits and the age bound allow, an honest run leaves exactly that many Complete ones, none
  confirmed and none pruned.
 */
module SampleReach {
  import opened Common
  import opened BitcoinTypes
  import opened Transactions
  import opened CheckpointQueue
  import opened QueueInvariants
  import opened StepInvariants
  import opened Bridge
  import opened Reachable
  import opened RunInvariants
  import opened StepRuns
  import opened SampleBridge
  import opened SampleQueue
  import opened SampleRun
  import opened SampleDeposits

  // ----- marks -----

  /** The data timestamped by block `k`: 32 bytes, different for every block. */
  function Mark(k: nat): Bytes {
    Padded([k % 256])
  }

  function Marks(n: nat): set<Bytes> {
    if n == 0 then {Mark(0)} else Marks(n - 1) + {Mark(n)}
  }

  lemma {:induction false} NewMark(n: nat, k: nat)
    requires n < k < 256
    ensures Mark(k) !in Marks(n) && |Mark(k)| == 32
  {
    assert Mark(n)[0] == n && Mark(k)[0] == k;
    if n > 0 {
      NewMark(n - 1, k);
    }
  }

  // ----- laying one more checkpoint -----

  function PoolAt(units: nat, n: nat): int {
    Times(USER_FEE, units) - Times(Spent(n), units)
  }

  /** The funds, limits and ages allow `n` checkpoints. */
  predicate Affords(units: nat, gap: nat, amount: nat, n: nat) {
    && units > 0 && gap >= 300 && n <= 15 && USER_FEE <= amount < 2_100_000_000 && Spent(n) <= amount
    && Times(amount, units) < U64 && Times(USER_FEE, units) < I64 && Times(Spent(n), units) <= I64
    && (n <= 9 || Times(n, gap) <= 1_814_400)
  }

  /** `n` Complete checkpoints and the building one, none confirmed. */
  ghost predicate Rolled(s: State, units: nat, gap: nat, amount: nat, n: nat) {
    && Stack(s.queue, gap, amount, n) && s.queue.confirmed.None?
    && s.hashes == Marks(n) && s.outpoints == {DEPOSITED} && s.feePool == PoolAt(units, n)
    && (n == 0 ==> s.queue.cps[0].feesCollected == USER_FEE)
  }

  lemma TimesAdds(a: nat, b: nat, units: nat)
    ensures Times(a + b, units) == Times(a, units) + Times(b, units)
  {
  }

  lemma AffordsLess(units: nat, gap: nat, amount: nat, n: nat)
    requires n > 0 && Affords(units, gap, amount, n)
    ensures Affords(units, gap, amount, n - 1)
  {
    TimesLess(Spent(n - 1), Spent(n), units);
    TimesNext(n - 1, gap);
  }

  /** Block `n + 1` is feasible and can be charged. */
  lemma CanLay(s: State, units: nat, gap: nat, amount: nat, n: nat)
    requires Affords(units, gap, amount, n + 1) && Rolled(s, units, gap, amount, n)
    ensures Feasible(s.queue, gap, amount, n, 0) && FeeFor(32, 0, n) == FeeOf(n)
    ensures Chargeable(units, s.feePool, FeeOf(n)) && s.feePool - AsI64(Times(FeeOf(n), units)) == PoolAt(units, n + 1)
  {
    TimesAdds(Spent(n), FeeOf(n), units);
    TimesLess(FeeOf(n), amount, units);
    TimesLess(FeeOf(n), USER_FEE, units);
    TimesLess(Spent(n), Spent(n + 1), units);
  }

  /** The queue after the block, position by position. */
  lemma LaidQueue(q: Queue, n: nat, dep: bool, p: StepParts)
    requires |q.cps| == n + 1 && q.index == n && p.popped == 0
    ensures var r := Replaced(Joined(q, p.sigset, dep, 0), p.advanced.cp, p.next);
            && |r.cps| == n + 2 && r.index == n + 1 && r == q.(cps := r.cps, index := n + 1)
            && (forall k :: 0 <= k < n ==> r.cps[k] == q.cps[k])
            && r.cps[n] == p.advanced.cp && r.cps[n + 1] == p.next
  {
    JoinedEnds(q, p.sigset, dep, 0);
  }

  lemma SignLaid(q: Queue, gap: nat, n: nat, fees: nat, reserve: nat) returns (q': Queue)
    requires |q.cps| == n + 2 && q.index == n + 1 && Waiting(q.cps[n], gap, n, fees, reserve)
    ensures SignAt(ORACLE, q, XPUB, [SIGNATURE], n, 0) == Ok(q')
    ensures q' == q.(cps := q.cps[n := q'.cps[n]]) && Done(q'.cps[n], gap, n, fees, reserve)
  {
    var signed := SignWaiting(q.cps[n], gap, n, fees, reserve);
    q' := q.(cps := q.cps[n := signed.(status := Complete)]);
  }

  /** Between the block that freezes checkpoint `n` and its signature. */
  ghost predicate Laying(q: Queue, gap: nat, amount: nat, n: nat) {
    && |q.cps| == n + 2 && q.index == n + 1 && q.confirmed.None? && n < 15 && amount < 2_100_000_000
    && Spent(n + 1) <= amount
    && (forall k :: 0 <= k < n ==> Done(q.cps[k], gap, k, FeeOf(k), Left(amount, k + 1)))
    && Waiting(q.cps[n], gap, n, FeeOf(n), Left(amount, n + 1)) && Open(q.cps[n + 1], gap, n + 1, Left(amount, n + 1))
  }

  lemma StackLaid(q: Queue, r: Queue, gap: nat, amount: nat, n: nat)
    requires Stack(q, gap, amount, n) && q.confirmed.None? && n < 15 && Spent(n + 1) <= amount
    requires |r.cps| == n + 2 && r == q.(cps := r.cps, index := n + 1) && forall k :: 0 <= k < n ==> r.cps[k] == q.cps[k]
    requires Waiting(r.cps[n], gap, n, FeeOf(n), Left(amount, n + 1)) && Open(r.cps[n + 1], gap, n + 1, Left(amount, n + 1))
    ensures Laying(r, gap, amount, n)
  {
    forall k | 0 <= k < n ensures Done(r.cps[k], gap, k, FeeOf(k), Left(amount, k + 1)) {
      assert Done(q.cps[k], gap, k, FeeOf(k), Left(amount, k + 1));
    }
  }

  lemma LaidSigned(q: Queue, q': Queue, gap: nat, amount: nat, n: nat)
    requires Laying(q, gap, amount, n) && |q'.cps| == n + 2 && q' == q.(cps := q.cps[n := q'.cps[n]])
    requires Done(q'.cps[n], gap, n, FeeOf(n), Left(amount, n + 1))
    ensures Stack(q', gap, amount, n + 1) && q'.confirmed.None?
  {
    forall k | 0 <= k < n + 1
      ensures Done(q'.cps[k], gap, k, FeeOf(k), Left(amount, k + 1))
           && q'.cps[k].status.Complete? && q'.cps[k].signedAtBtcHeight == Some(0)
    {
      assert k < n ==> Done(q.cps[k], gap, k, FeeOf(k), Left(amount, k + 1));
    }
    assert q'.cps[n + 1] == q.cps[n + 1];
  }

  function LayBlock(gap: nat, n: nat): Event {
    EndBlockEvent(BlockAt(Times(n + 1, gap), Mark(n + 1)), ENV)
  }

  function LaySignature(n: nat): Event {
    SignEvent(XPUB, [SIGNATURE], n, 0)
  }

  /** The state that the block leaves. */
  lemma AfterLays(s: State, units: nat, gap: nat, amount: nat, n: nat, q: Queue, p: StepParts, b: Block)
    requires Rolled(s, units, gap, amount, n) && Stack(q, gap, amount, n) && q.confirmed.None? && p.popped == 0 < |q.cps|
    requires n < 15 && Spent(n + 1) <= amount && b.commitment == Mark(n + 1) && p.fees == FeeOf(n)
    requires s.feePool - AsI64(Times(FeeOf(n), units)) == PoolAt(units, n + 1)
    requires Waiting(p.advanced.cp, gap, n, FeeOf(n), Left(amount, n + 1)) && Open(p.next, gap, n + 1, Left(amount, n + 1))
    ensures var s' := After(Settings(units, gap), s, q, b, true, p);
            && Laying(s'.queue, gap, amount, n) && s'.outpoints == s.outpoints
            && s'.hashes == Marks(n + 1) && s'.feePool == PoolAt(units, n + 1)
  {
    LaidQueue(q, n, true, p);
    StackLaid(q, After(Settings(units, gap), s, q, b, true, p).queue, gap, amount, n);
  }

  lemma ClearedConfirmed(q: Queue, q': Queue)
    requires AllCleared(q, q')
    ensures q'.confirmed == q.confirmed
  {
  }

  /** The state between a block and its signature. */
  ghost predicate HalfLaid(s: State, units: nat, gap: nat, amount: nat, n: nat) {
    && Laying(s.queue, gap, amount, n) && s.outpoints == {DEPOSITED}
    && s.hashes == Marks(n + 1) && s.feePool == PoolAt(units, n + 1)
  }

  /** The block that freezes checkpoint `n`. */
  lemma BlockLays(s: State, units: nat, gap: nat, amount: nat, n: nat) returns (s': State)
    requires Affords(units, gap, amount, n + 1) && StateInv(ORACLE, Settings(units, gap), s)
    requires Rolled(s, units, gap, amount, n)
    ensures Leads(ORACLE, Settings(units, gap), s, LayBlock(gap, n), s') && HalfLaid(s', units, gap, amount, n)
  {
    CanLay(s, units, gap, amount, n);
    NewMark(n, n + 1);
    var q, p := BlockGoes(s, units, gap, amount, n, Mark(n + 1), 0);
    ClearedConfirmed(s.queue, q);
    var b := BlockAt(Times(n + 1, gap), Mark(n + 1));
    AfterLays(s, units, gap, amount, n, q, p, b);
    s' := After(Settings(units, gap), s, q, b, true, p);
  }

  /** Its signature. */
  lemma SignatureLays(s: State, units: nat, gap: nat, amount: nat, n: nat) returns (s': State)
    requires units > 0 && HalfLaid(s, units, gap, amount, n)
    ensures Leads(ORACLE, Settings(units, gap), s, LaySignature(n), s') && Rolled(s', units, gap, amount, n + 1)
  {
    var q := SignLaid(s.queue, gap, n, FeeOf(n), Left(amount, n + 1));
    LaidSigned(s.queue, q, gap, amount, n);
    SignatureLeads(ORACLE, Settings(units, gap), s, XPUB, [SIGNATURE], n, 0, q);
    s' := s.(queue := q);
  }

  // ----- the run -----

  const FIRST_BLOCK := EndBlockEvent(BlockAt(0, MARK0), ENV)

  /** The first block and the deposit. */
  function Opening(gap: nat, amount: nat): seq<Event> {
    [] + [FIRST_BLOCK] + [RelayDepositEvent(FirstDeposit(gap, amount))]
  }

  /** The run that lays `n` checkpoints. */
  function LayingRun(gap: nat, amount: nat, n: nat): seq<Event> {
    if n == 0 then Opening(gap, amount) else
    LayingRun(gap, amount, n - 1) + [LayBlock(gap, n - 1)] + [LaySignature(n - 1)]
  }

  lemma ReachesInv(o: Oracle, cfg: Config, es: seq<Event>, s: State)
    requires Reaches(o, cfg, es, s)
    ensures StateInv(o, cfg, s)
  {
    ReachesRun(o, cfg, es, s);
    RunKeepsInv(o, cfg, es);
  }

  lemma FirstLeads(units: nat, gap: nat)
    requires units > 0
    ensures Leads(ORACLE, Settings(units, gap), INITIAL, FIRST_BLOCK, Opened(gap))
  {
    FirstBlock(units, gap);
    BlockLeads(ORACLE, Settings(units, gap), INITIAL, BlockAt(0, MARK0), ENV, (Opened(gap), []));
  }

  lemma ReachesOpening(units: nat, gap: nat, amount: nat) returns (s: State)
    requires Affords(units, gap, amount, 0)
    ensures Reaches(ORACLE, Settings(units, gap), Opening(gap, amount), s) && Rolled(s, units, gap, amount, 0)
  {
    ReachesStart(ORACLE, Settings(units, gap));
    FirstLeads(units, gap);
    s := DepositOpens(units, gap, amount);
  }

  lemma ReachesNext(units: nat, gap: nat, amount: nat, n: nat, es: seq<Event>, s: State) returns (s': State)
    requires Affords(units, gap, amount, n + 1) && Reaches(ORACLE, Settings(units, gap), es, s)
    requires Rolled(s, units, gap, amount, n)
    ensures Reaches(ORACLE, Settings(units, gap), es + [LayBlock(gap, n)] + [LaySignature(n)], s')
    ensures Rolled(s', units, gap, amount, n + 1)
  {
    ReachesInv(ORACLE, Settings(units, gap), es, s);
    var s1 := BlockLays(s, units, gap, amount, n);
    s' := SignatureLays(s1, units, gap, amount, n);
  }

  /**
    Every number of Complete checkpoints that is afforded is reached: by an honest run, with none
    confirmed and none pruned.
   */
  lemma {:induction false} ReachesRolled(units: nat, gap: nat, amount: nat, n: nat) returns (s: State)
    requires Affords(units, gap, amount, n)
    ensures Reaches(ORACLE, Settings(units, gap), LayingRun(gap, amount, n), s) && Rolled(s, units, gap, amount, n)
  {
    if n == 0 {
      s := ReachesOpening(units, gap, amount);
    } else {
      AffordsLess(units, gap, amount, n);
      s := ReachesRolled(units, gap, amount, n - 1);
      s := ReachesNext(units, gap, amount, n - 1, LayingRun(gap, amount, n - 1), s);
    }
  }

  // ----- a confirmation -----

  const CONFIRMED := RelayCheckpointEvent(0, true)

  /** Confirming checkpoint 0 of a laid row. */
  lemma ConfirmsFirst(cfg: Config, s: State, gap: nat, amount: nat, n: nat) returns (s': State)
    requires cfg.unitsPerSat > 0 && n > 0 && Stack(s.queue, gap, amount, n) && s.queue.confirmed.None?
    ensures Leads(ORACLE, cfg, s, CONFIRMED, s') && s' == s.(queue := s.queue.(confirmed := Some(0)))
    ensures Stack(s'.queue, gap, amount, n)
  {
    s' := s.(queue := s.queue.(confirmed := Some(0)));
    RowGet(s.queue, n, 0);
    assert s.queue.cps[0].status.Complete?;
    ConfirmationLeads(ORACLE, cfg, s, 0, s');
    forall k | 0 <= k < n ensures Done(s'.queue.cps[k], gap, k, FeeOf(k), Left(amount, k + 1)) {
      assert Done(s.queue.cps[k], gap, k, FeeOf(k), Left(amount, k + 1));
    }
  }
}
