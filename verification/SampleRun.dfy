/** The blocks of the sample bridge: what a row of its checkpoints takes, pays and is charged. */
module SampleRun {
  import opened Common
  import opened BitcoinTypes
  import opened Transactions
  import opened CheckpointQueue
  import opened QueueInvariants
  import opened StepInvariants
  import opened StepOutcomes
  import opened Guards
  import opened Payouts
  import opened Bridge
  import opened RunInvariants
  import opened Stalls
  import opened StepRuns
  import opened Reachable
  import opened SampleBridge
  import opened SampleQueue

  // ----- a stack of checkpoints -----

  /** Checkpoints 0 to `n - 1` are done and checkpoint `n` is open. */
  ghost predicate Stack(q: Queue, gap: nat, amount: nat, n: nat) {
    && Row(q, n) && n <= 15 && amount < 2_100_000_000 && Spent(n) <= amount && Open(q.cps[n], gap, n, Left(amount, n))
    && forall k :: 0 <= k < n ==> Done(q.cps[k], gap, k, FeeOf(k), Left(amount, k + 1))
  }

  lemma StackPays(q: Queue, gap: nat, amount: nat, n: nat)
    requires Stack(q, gap, amount, n)
    ensures AllPay(q.cps, gap, 0, n)
  {
    forall k | 0 <= k < n ensures Pays(q.cps[k], gap, FeeOf(k)) {
      assert Done(q.cps[k], gap, k, FeeOf(k), Left(amount, k + 1));
    }
  }

  lemma StackCleared(q: Queue, q': Queue, gap: nat, amount: nat, n: nat)
    requires Stack(q, gap, amount, n) && AllCleared(q, q')
    ensures Stack(q', gap, amount, n) && q'.confirmed == q.confirmed
    ensures q'.cps[0].feesCollected == q.cps[0].feesCollected
  {
    forall k | 0 <= k <= n ensures Cleared(q.cps[k], q'.cps[k]) {
    }
    forall k | 0 <= k < n
      ensures q'.cps[k].status.Complete? && q'.cps[k].signedAtBtcHeight == Some(0)
           && Done(q'.cps[k], gap, k, FeeOf(k), Left(amount, k + 1))
    {
      DoneCleared(q.cps[k], q'.cps[k], gap, k, FeeOf(k), Left(amount, k + 1));
    }
  }

  lemma DoneCleared(a: Checkpoint, b: Checkpoint, gap: nat, k: nat, fees: nat, reserve: nat)
    requires Done(a, gap, k, fees, reserve) && Cleared(a, b)
    ensures Done(b, gap, k, fees, reserve)
  {
    assert Tx(b) == Tx(a);
  }

  // ----- taking, paying and capacity -----

  lemma TakesAll(cfg: Config, s: State, n: nat) returns (taken: (Queue, seq<Transfer>))
    requires StateInv(ORACLE, cfg, s) && Row(s.queue, n)
    ensures TakePendingCompleted(s.queue) == Ok(taken)
    ensures AllCleared(s.queue, taken.0) && QueueInv(ORACLE, cfg.checkpoint, taken.0)
  {
    TakeFailsExactly(s.queue);
    taken := TakePendingCompleted(s.queue).value;
    TakeCompletedClears(s.queue, taken);
    ClearedKeepsInv(ORACLE, cfg.checkpoint, s.queue, taken.0);
  }

  lemma {:induction false} PaysAll(ts: seq<Transfer>)
    ensures PayoutMsgs(ENV, ts).Ok? && DroppedAll(ENV, ts) == 0
  {
    if ts != [] {
      PaysAll(ts[..|ts| - 1]);
    }
  }

  lemma HasRoom(units: nat, q: Queue, gap: nat, amount: nat, n: nat)
    requires Stack(q, gap, amount, n)
    ensures BelowCapacity(Settings(units, gap), q) == Ok(true)
  {
    RowLast(q, n);
    if n > 0 {
      RowGet(q, n, n - 1);
      assert Done(q.cps[n - 1], gap, n - 1, FeeOf(n - 1), Left(amount, n));
    }
  }

  lemma RowLast(q: Queue, n: nat)
    requires Row(q, n)
    ensures LastCompletedIndex(q) == if n > 0 then Ok(n - 1) else Err(NoCompleted)
  {
  }

  // ----- one block -----

  /** The fee that is checked before the push. */
  lemma CheckedFee(q: Queue, gap: nat, amount: nat, n: nat, data: Bytes)
    requires Stack(q, gap, amount, n) && FirstOpen(q) <= n && |data| <= 10_000
    ensures CalcFee(ORACLE, Limits(gap), q, n, data) == Ok(FeeFor(|data|, FirstOpen(q), n))
  {
    StackPays(q, gap, amount, n);
    FeeIs(q, gap, Left(amount, n), n, data);
  }

  lemma PrunedFee(q: Queue, gap: nat, amount: nat, n: nat, data: Bytes, k: nat)
    requires Stack(q, gap, amount, n) && |data| == 32 && k <= n
    ensures ViewFee(ORACLE, Limits(gap), q.cps[n], q.cps[k..n], data) == Ok(FeeFor(32, k, n))
  {
    StackPays(q, gap, amount, n);
    ViewFeeIs(q.cps, gap, Left(amount, n), n, k, data);
  }

  /** The fee that is charged after push and prune, as long as nothing is confirmed. */
  lemma ChargedFee(q: Queue, gap: nat, amount: nat, n: nat, data: Bytes, sigset: SignatorySet, k: nat)
    requires Stack(q, gap, amount, n) && Ordered(q) && q.confirmed.None? && |data| == 32 && k <= n
    ensures CalcFee(ORACLE, Limits(gap), Joined(q, sigset, true, k), n, data) == Ok(FeeFor(32, k, n))
  {
    RowCount(q, n);
    RowGet(q, n, n);
    RunIs(q.cps, k, n);
    PrunedFee(q, gap, amount, n, data, k);
    JoinedFee(ORACLE, Limits(gap), q, sigset, true, k, data);
  }

  /** How many checkpoints the push of number `n + 1` prunes. */
  predicate PrunedBy(gap: nat, n: nat, k: nat) {
    || (k == 0 && (n <= 8 || Times(n + 1, gap) <= 1_814_400))
    || (9 <= n <= 10 && k == n - 8 && gap + 1_814_400 < Times(n + 1, gap))
  }

  lemma PruneIs(q: Queue, gap: nat, amount: nat, n: nat, k: nat)
    requires Stack(q, gap, amount, n) && PrunedBy(gap, n, k)
    ensures Prune(1_814_400, PushedQueue(q, NewCheckpoint(SetAt(gap, n + 1), true)))
         == Ok(Joined(q, SetAt(gap, n + 1), true, k))
  {
    StackTimes(q, gap, amount, n);
    if k == 0 {
      PrunesNone(q, n, Times(n + 1, gap));
    } else {
      PrunesOld(q, n, Times(n + 1, gap));
    }
  }

  /** When the first two checkpoints were created. */
  lemma StackTimes(q: Queue, gap: nat, amount: nat, n: nat)
    requires Stack(q, gap, amount, n)
    ensures n > 0 ==> q.cps[0].sigset.createTime == 0
    ensures n > 1 ==> q.cps[1].sigset.createTime == gap
  {
    if n > 0 {
      assert Done(q.cps[0], gap, 0, FeeOf(0), Left(amount, 1));
      assert Times(0, gap) == 0 && Times(1, gap) == gap;
    }
    if n > 1 {
      assert Done(q.cps[1], gap, 1, FeeOf(1), Left(amount, 2));
    }
  }

  /** What block number `n + 1` needs: nothing confirmed, enough in the building checkpoint, room
      for one more, and on number 0 a deposit that pays for it. */
  ghost predicate Feasible(q: Queue, gap: nat, amount: nat, n: nat, k: nat) {
    && 300 <= gap && FeeFor(32, 0, n) <= Left(amount, n) && q.confirmed.None? && n < 15
    && k <= n && (k == n ==> n == 0) && PrunedBy(gap, n, k)
    && (n == 0 ==> q.cps != [] && q.cps[0].feesCollected >= FeeFor(32, 0, 0))
  }

  lemma TimesNext(n: nat, gap: nat)
    ensures Times(n + 1, gap) == Times(n, gap) + gap
  {
  }

  /** A push is due once the interval has passed and the fee is covered. */
  lemma StackDue(q: Queue, gap: nat, amount: nat, n: nat, now: nat, data: Bytes)
    requires Stack(q, gap, amount, n) && FirstOpen(q) <= n && n - FirstOpen(q) < 15 && |data| <= 10_000
    requires FeeFor(|data|, FirstOpen(q), n) <= Left(amount, n)
    requires Timely(q, gap, n, now, FeeFor(|data|, FirstOpen(q), n))
    ensures ShouldPush(ORACLE, Limits(gap), q, BlockAt(now, data)) == Ok(true)
  {
    CheckedFee(q, gap, amount, n, data);
    DueIs(q, gap, Left(amount, n), n, now, data, FeeFor(|data|, FirstOpen(q), n));
  }

  lemma DueIsKnown(q: Queue, gap: nat, amount: nat, n: nat, mark: Bytes, k: nat)
    requires Stack(q, gap, amount, n) && Feasible(q, gap, amount, n, k) && |mark| == 32
    ensures DueKnown(q, gap, n, mark)
  {
    TimesNext(n, gap);
    StackDue(q, gap, amount, n, Times(n + 1, gap), mark);
  }

  lemma SetIsKnown(q: Queue, gap: nat, n: nat, mark: Bytes)
    requires Row(q, n)
    ensures SetKnown(q, gap, n, mark)
  {
    NewSet(q, Times(n + 1, gap), mark, n + 1);
  }

  lemma FeeIsKnown(q: Queue, gap: nat, amount: nat, n: nat, mark: Bytes, k: nat)
    requires Stack(q, gap, amount, n) && Ordered(q) && Feasible(q, gap, amount, n, k) && |mark| == 32
    ensures FeeKnown(q, gap, n, mark, k, FeeFor(32, k, n))
  {
    PruneIs(q, gap, amount, n, k);
    ChargedFee(q, gap, amount, n, mark, SetAt(gap, n + 1), k);
  }

  lemma RateIsKnown(q: Queue, gap: nat, amount: nat, n: nat, k: nat)
    requires Stack(q, gap, amount, n) && Feasible(q, gap, amount, n, k)
    ensures RateWillBe(q, gap, n, k, DEFAULT_FEE_RATE)
  {
    forall frozen: Checkpoint | frozen.status.Signing? ensures RateIs(q, gap, n, k, DEFAULT_FEE_RATE, frozen) {
      RateStays(Limits(gap), q, n, k, SetAt(gap, n + 1), frozen);
    }
  }

  /** The parts of the step. */
  lemma PartsOf(q: Queue, gap: nat, amount: nat, n: nat, mark: Bytes, k: nat) returns (p: StepParts)
    requires Stack(q, gap, amount, n) && Ordered(q) && Feasible(q, gap, amount, n, k) && |mark| == 32
    ensures Computed(ORACLE, Limits(gap), q, BlockAt(Times(n + 1, gap), mark), true, p)
    ensures RateKnown(Limits(gap), q, BlockAt(Times(n + 1, gap), mark), true, p)
    ensures p.popped == k && p.fees == FeeFor(32, k, n) && p.sigset == p.next.sigset == SetAt(gap, n + 1)
    ensures Waiting(p.advanced.cp, gap, n, p.fees, Left(amount, n) - p.fees)
    ensures Open(p.next, gap, n + 1, Left(amount, n) - p.fees)
  {
    DueIsKnown(q, gap, amount, n, mark, k);
    FeeIsKnown(q, gap, amount, n, mark, k);
    RateIsKnown(q, gap, amount, n, k);
    SetIsKnown(q, gap, n, mark);
    p := StepOf(q, gap, Left(amount, n), n, mark, k, FeeFor(32, k, n), DEFAULT_FEE_RATE);
  }

  /** Everything that block number `n + 1` computes. */
  lemma BlockComputes(s: State, units: nat, gap: nat, amount: nat, n: nat, mark: Bytes, k: nat)
    returns (taken: (Queue, seq<Transfer>), p: StepParts)
    requires units > 0 && StateInv(ORACLE, Settings(units, gap), s) && Stack(s.queue, gap, amount, n)
    requires Feasible(s.queue, gap, amount, n, k) && |mark| == 32 && mark !in s.hashes
    requires Chargeable(units, s.feePool, FeeFor(32, k, n))
    ensures BlockReady(ORACLE, Settings(units, gap), s, BlockAt(Times(n + 1, gap), mark), ENV, taken, true, p)
    ensures AllCleared(s.queue, taken.0) && Stack(taken.0, gap, amount, n) && p.popped == k < |taken.0.cps|
    ensures p.fees == FeeFor(32, k, n) && Waiting(p.advanced.cp, gap, n, p.fees, Left(amount, n) - p.fees)
    ensures Open(p.next, gap, n + 1, Left(amount, n) - p.fees)
  {
    var cfg := Settings(units, gap);
    taken := TakesAll(cfg, s, n);
    StackCleared(s.queue, taken.0, gap, amount, n);
    PaysAll(taken.1);
    HasRoom(units, taken.0, gap, amount, n);
    p := PartsOf(taken.0, gap, amount, n, mark, k);
  }

  /** Block number `n + 1` goes through. */
  lemma BlockGoes(s: State, units: nat, gap: nat, amount: nat, n: nat, mark: Bytes, k: nat)
    returns (q: Queue, p: StepParts)
    requires units > 0 && StateInv(ORACLE, Settings(units, gap), s) && Stack(s.queue, gap, amount, n)
    requires Feasible(s.queue, gap, amount, n, k) && |mark| == 32 && mark !in s.hashes
    requires Chargeable(units, s.feePool, FeeFor(32, k, n))
    ensures AllCleared(s.queue, q) && Stack(q, gap, amount, n) && p.popped == k < |q.cps|
    ensures p.fees == FeeFor(32, k, n) && Waiting(p.advanced.cp, gap, n, p.fees, Left(amount, n) - p.fees)
    ensures Open(p.next, gap, n + 1, Left(amount, n) - p.fees)
    ensures var cfg, b := Settings(units, gap), BlockAt(Times(n + 1, gap), mark);
            Leads(ORACLE, cfg, s, EndBlockEvent(b, ENV), After(cfg, s, q, b, true, p))
  {
    var taken;
    taken, p := BlockComputes(s, units, gap, amount, n, mark, k);
    q := taken.0;
    DueBlockLeads(ORACLE, Settings(units, gap), s, BlockAt(Times(n + 1, gap), mark), ENV, taken, true, p);
  }
}
