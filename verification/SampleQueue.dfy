/** The queues of the sample bridge: their views, fees and steps. */
module SampleQueue {
  import opened Common
  import opened BitcoinTypes
  import opened Transactions
  import opened Advance
  import opened CheckpointQueue
  import opened QueueInvariants
  import opened StepInvariants
  import opened StepOutcomes
  import opened Guards
  import opened StepRuns
  import opened SampleBridge

  // ----- the shape -----

  /** Complete checkpoints 0 to `n - 1`, all signed at height 0, and the building one. */
  ghost predicate Row(q: Queue, n: nat) {
    && |q.cps| == n + 1 && q.index == n && q.cps[n].status.Building?
    && forall k :: 0 <= k < n ==> q.cps[k].status.Complete? && q.cps[k].signedAtBtcHeight == Some(0)
  }

  /** The first unconfirmed index. */
  function FirstOpen(q: Queue): nat {
    if q.confirmed.Some? then q.confirmed.value + 1 else 0
  }

  lemma RowGet(q: Queue, n: nat, k: nat)
    requires |q.cps| == n + 1 && q.index == n && k <= n
    ensures Get(q, k) == Ok(q.cps[k]) && Last(q) == q.cps[n]
  {
  }

  lemma {:induction false} RunIs(cps: seq<Checkpoint>, a: nat, n: nat)
    requires a <= n < |cps| && !cps[n].status.Complete? && forall k :: a <= k < n ==> cps[k].status.Complete?
    ensures CompleteFrom(cps, a) == cps[a..n]
    decreases n - a
  {
    if a < n {
      RunIs(cps, a + 1, n);
      assert cps[a..n] == [cps[a]] + cps[a + 1..n];
    }
  }

  lemma RowCount(q: Queue, n: nat)
    requires Row(q, n) && FirstOpen(q) <= n
    ensures !HasSigning(q) && NumUnconfirmed(q) == Ok(n - FirstOpen(q))
    ensures FirstUnconfirmed(q) == Ok(if FirstOpen(q) == n then None else Some(FirstOpen(q)))
  {
  }

  lemma RowView(q: Queue, n: nat)
    requires Row(q, n) && FirstOpen(q) <= n
    ensures Unconfirmed(q) == Ok(q.cps[FirstOpen(q)..n])
  {
    RowCount(q, n);
    if FirstOpen(q) < n {
      RunIs(q.cps, FirstOpen(q), n);
    } else {
      assert q.cps[n..n] == [];
    }
  }

  lemma RowNotBehind(q: Queue, n: nat)
    requires Row(q, n)
    ensures Backfilling(q, 0) == Ok(false)
  {
    if n > 0 {
      RowGet(q, n, n - 1);
    }
  }

  // ----- fees -----

  /** What checkpoint `k` pays when none is confirmed: each but the first makes up for the outputs
      that the adjustment counts twice in its predecessor. */
  function FeeOf(k: nat): nat {
    if k == 0 then 14_025 else 18_755
  }

  /** What the first `k` checkpoints have paid. */
  function Spent(k: nat): nat {
    if k == 0 then 0 else 14_025 + 18_755 * (k - 1)
  }

  function Left(amount: nat, k: nat): nat {
    SatSub(amount, Spent(k))
  }

  ghost predicate AllPay(cps: seq<Checkpoint>, gap: nat, a: nat, m: nat)
    requires m <= |cps|
  {
    forall k :: a <= k < m ==> Pays(cps[k], gap, FeeOf(k))
  }

  lemma SpentMore(a: nat, m: nat)
    requires m <= 15
    ensures Spent(a + m + 1) - Spent(a) == Spent(a + m) - Spent(a) + FeeOf(a + m) && 0 <= Spent(a + m) - Spent(a) <= 300_000
  {
  }

  lemma PaidStep(view: seq<Checkpoint>, m: nat, x: nat, y: nat)
    requires |view| == m + 1 && FeesPaid(view[..m]) == Ok(x) && MinerFees(view[m]) == Ok(y) && x + y < U64
    ensures FeesPaid(view) == Ok(x + y)
  {
  }

  /** What the checkpoints of a view, numbered from `a` on, have paid. */
  lemma {:induction false} PaidIs(view: seq<Checkpoint>, gap: nat, a: nat)
    requires a + |view| <= 15 && forall i :: 0 <= i < |view| ==> Pays(view[i], gap, FeeOf(a + i))
    ensures FeesPaid(view) == Ok(Spent(a + |view|) - Spent(a))
  {
    if view != [] {
      var m := |view| - 1;
      assert Pays(view[m], gap, FeeOf(a + m));
      PaidIs(view[..m], gap, a);
      SpentMore(a, m);
      PaidStep(view, m, Spent(a + m) - Spent(a), FeeOf(a + m));
    }
  }

  /** How large they count. */
  lemma {:induction false} SizeIs(view: seq<Checkpoint>, gap: nat, a: nat)
    requires a + |view| <= 15 && forall i :: 0 <= i < |view| ==> Pays(view[i], gap, FeeOf(a + i))
    ensures Vbytes(ORACLE, Limits(gap), view) == Ok(341 * |view|)
  {
    if view != [] {
      var m := |view| - 1;
      assert Pays(view[m], gap, FeeOf(a + m));
      SizeIs(view[..m], gap, a);
    }
  }

  /** The adjustment over checkpoints `a` up to `m`. */
  function Extra(a: nat, m: nat): nat {
    if a == 0 && m > 0 then 4_730 else 0
  }

  lemma AdjustmentFrom(o: Oracle, cfg: CheckpointConfig, view: seq<Checkpoint>, paid: nat, size: nat, rate: nat)
    requires FeesPaid(view) == Ok(paid) && Vbytes(o, cfg, view) == Ok(size) && rate == 55 && 55 * size < U64
    ensures FeeAdjustment(o, cfg, view, rate) == Ok(SatSub(55 * size, paid))
  {
  }

  lemma SlicePays(cps: seq<Checkpoint>, gap: nat, a: nat, m: nat)
    requires a <= m <= |cps| && AllPay(cps, gap, a, m)
    ensures forall i :: 0 <= i < m - a ==> Pays(cps[a..m][i], gap, FeeOf(a + i))
  {
    forall i | 0 <= i < m - a ensures Pays(cps[a..m][i], gap, FeeOf(a + i)) {
      assert Pays(cps[a + i], gap, FeeOf(a + i));
    }
  }

  lemma ExtraIs(cps: seq<Checkpoint>, gap: nat, a: nat, m: nat)
    requires a <= m <= |cps| && m <= 15 && AllPay(cps, gap, a, m)
    ensures FeeAdjustment(ORACLE, Limits(gap), cps[a..m], DEFAULT_FEE_RATE) == Ok(Extra(a, m))
  {
    var view := cps[a..m];
    SlicePays(cps, gap, a, m);
    PaidIs(view, gap, a);
    SizeIs(view, gap, a);
    AdjustmentFrom(ORACLE, Limits(gap), cps[a..m], Spent(m) - Spent(a), 341 * (m - a), 55);
  }

  /** The fee for `size` bytes of data over checkpoints `a` up to `n`. */
  function FeeFor(size: nat, a: nat, n: nat): nat {
    55 * (223 + size) + Extra(a, n)
  }

  lemma ViewFeeFrom(o: Oracle, cfg: CheckpointConfig, cp: Checkpoint, view: seq<Checkpoint>, data: Bytes, extra: nat,
                    base: nat)
    requires FeeAdjustment(o, cfg, view, cp.feeRate) == Ok(extra)
    requires BaseFee(o, cfg, cp, data) == Ok(base) && base + extra < U64
    ensures ViewFee(o, cfg, cp, view, data) == Ok(base + extra)
  {
  }

  lemma ViewFeeIs(cps: seq<Checkpoint>, gap: nat, amount: nat, n: nat, a: nat, data: Bytes)
    requires |cps| == n + 1 && a <= n <= 15 && AllPay(cps, gap, 0, n) && |data| <= 10_000
    requires Open(cps[n], gap, n, amount) && amount < U64
    ensures ViewFee(ORACLE, Limits(gap), cps[n], cps[a..n], data) == Ok(FeeFor(|data|, a, n))
  {
    ExtraIs(cps, gap, a, n);
    OpenFee(cps[n], gap, n, amount, data);
    ViewFeeFrom(ORACLE, Limits(gap), cps[n], cps[a..n], data, Extra(a, n), 55 * (223 + |data|));
  }

  lemma CalcFrom(o: Oracle, cfg: CheckpointConfig, q: Queue, i: nat, cp: Checkpoint, view: seq<Checkpoint>, data: Bytes)
    requires Get(q, i) == Ok(cp) && Unconfirmed(q) == Ok(view)
    ensures CalcFee(o, cfg, q, i, data) == ViewFee(o, cfg, cp, view, data)
  {
    FeeOfView(o, cfg, q, i, data);
  }

  lemma FeeIs(q: Queue, gap: nat, amount: nat, n: nat, data: Bytes)
    requires Row(q, n) && n <= 15 && AllPay(q.cps, gap, 0, n) && FirstOpen(q) <= n && |data| <= 10_000
    requires Open(q.cps[n], gap, n, amount) && amount < U64
    ensures CalcFee(ORACLE, Limits(gap), q, n, data) == Ok(FeeFor(|data|, FirstOpen(q), n))
  {
    RowView(q, n);
    RowGet(q, n, n);
    ViewFeeIs(q.cps, gap, amount, n, FirstOpen(q), data);
    CalcFrom(ORACLE, Limits(gap), q, n, q.cps[n], q.cps[FirstOpen(q)..n], data);
  }

  // ----- when a step is due -----

  lemma ReadyFrom(o: Oracle, cfg: CheckpointConfig, q: Queue, b: Block, cp: Checkpoint, fee: nat, ins: nat)
    requires Get(q, q.index) == Ok(cp) && cp.sigset.createTime + cfg.minInterval <= b.now
    requires Backfilling(q, b.btcHeight) == Ok(false) && CalcFee(o, cfg, q, q.index, b.commitment) == Ok(fee)
    requires if q.index == 0 then HasWork(q, cp) && fee <= cp.feesCollected
             else cp.sigset.createTime + cfg.maxInterval <= b.now
    requires Totals(cfg, cp) == Ok((ins, 0)) && fee <= ins < U64
    ensures BuildingReady(o, cfg, q, b) == Ok(true)
  {
  }

  lemma DueFrom(o: Oracle, cfg: CheckpointConfig, q: Queue, b: Block, unconfirmed: nat, sigset: SignatorySet)
    requires q.cps != [] && !HasSigning(q) && BuildingReady(o, cfg, q, b) == Ok(true)
    requires NumUnconfirmed(q) == Ok(unconfirmed) && unconfirmed < cfg.maxUnconfirmed
    requires NextSigset(o, q, b) == Ok(sigset) && Usable(sigset)
    ensures ShouldPush(o, cfg, q, b) == Ok(true)
  {
  }

  /** Time enough has passed, and checkpoint 0 has a deposit that pays for it. */
  predicate Timely(q: Queue, gap: nat, n: nat, now: nat, fee: nat) {
    && 300 <= gap && Times(n, gap) + gap <= now
    && |q.cps| == n + 1 && (n == 0 ==> q.cps[0].feesCollected >= fee)
  }

  lemma ReadyIs(q: Queue, gap: nat, amount: nat, n: nat, now: nat, mark: Bytes, fee: nat)
    requires Row(q, n) && Open(q.cps[n], gap, n, amount) && amount < U64 && |mark| <= 10_000
    requires CalcFee(ORACLE, Limits(gap), q, n, mark) == Ok(fee) && fee <= amount && Timely(q, gap, n, now, fee)
    ensures BuildingReady(ORACLE, Limits(gap), q, BlockAt(now, mark)) == Ok(true)
  {
    OpenFee(q.cps[n], gap, n, amount, mark);
    RowGet(q, n, n);
    RowNotBehind(q, n);
    ReadyFrom(ORACLE, Limits(gap), q, BlockAt(now, mark), q.cps[n], fee, amount);
  }

  lemma RowDue(o: Oracle, cfg: CheckpointConfig, q: Queue, b: Block, n: nat, sigset: SignatorySet)
    requires Row(q, n) && FirstOpen(q) <= n && n - FirstOpen(q) < cfg.maxUnconfirmed
    requires BuildingReady(o, cfg, q, b) == Ok(true) && NextSigset(o, q, b) == Ok(sigset) && Usable(sigset)
    ensures ShouldPush(o, cfg, q, b) == Ok(true)
  {
    RowCount(q, n);
    DueFrom(o, cfg, q, b, n - FirstOpen(q), sigset);
  }

  lemma DueWhenReady(q: Queue, gap: nat, n: nat, now: nat, mark: Bytes)
    requires Row(q, n) && FirstOpen(q) <= n && n - FirstOpen(q) < 15
    requires BuildingReady(ORACLE, Limits(gap), q, BlockAt(now, mark)) == Ok(true)
    ensures ShouldPush(ORACLE, Limits(gap), q, BlockAt(now, mark)) == Ok(true)
  {
    NewSet(q, now, mark, n + 1);
    RowDue(ORACLE, Limits(gap), q, BlockAt(now, mark), n, SetOn(now, n + 1));
  }

  lemma DueIs(q: Queue, gap: nat, amount: nat, n: nat, now: nat, mark: Bytes, fee: nat)
    requires Row(q, n) && Open(q.cps[n], gap, n, amount) && amount < U64 && |mark| <= 10_000
    requires CalcFee(ORACLE, Limits(gap), q, n, mark) == Ok(fee) && fee <= amount
    requires Timely(q, gap, n, now, fee) && FirstOpen(q) <= n && n - FirstOpen(q) < 15
    ensures ShouldPush(ORACLE, Limits(gap), q, BlockAt(now, mark)) == Ok(true)
  {
    ReadyIs(q, gap, amount, n, now, mark, fee);
    DueWhenReady(q, gap, n, now, mark);
  }

  // ----- pruning -----

  lemma PrunesNone(q: Queue, n: nat, now: nat)
    requires Row(q, n) && (n <= 8 || (q.cps[0].sigset.createTime <= now <= 1_814_400))
    ensures Prune(1_814_400, PushedQueue(q, NewCheckpoint(SetOn(now, n + 1), true)))
         == Ok(Joined(q, SetOn(now, n + 1), true, 0))
  {
    var pushed := PushedQueue(q, NewCheckpoint(SetOn(now, n + 1), true));
    assert PruneCount(pushed.cps, 0, now, 1_814_400) == Ok(0);
  }

  /** With eleven or twelve checkpoints after the push, a late block prunes one or two. */
  lemma PrunesOld(q: Queue, n: nat, now: nat)
    requires Row(q, n) && 9 <= n <= 10
    requires q.cps[0].sigset.createTime + 1_814_400 < now && q.cps[1].sigset.createTime + 1_814_400 < now
    ensures Prune(1_814_400, PushedQueue(q, NewCheckpoint(SetOn(now, n + 1), true)))
         == Ok(Joined(q, SetOn(now, n + 1), true, n - 8))
  {
    var pushed := PushedQueue(q, NewCheckpoint(SetOn(now, n + 1), true));
    assert PruneCount(pushed.cps, n - 8, now, 1_814_400) == Ok(n - 8);
    assert n == 10 ==> PruneCount(pushed.cps, 1, now, 1_814_400) == Ok(2);
    assert PruneCount(pushed.cps, 0, now, 1_814_400) == Ok(n - 8);
  }

  // ----- the parts of a step -----

  lemma RateFrom(cfg: CheckpointConfig, r: Queue, rate: nat, i: nat, last: nat)
    requires FirstUnconfirmed(r) == Ok(Some(i)) && LastCompletedIndex(r) == Ok(last)
    requires Get(r, i).Ok? && Get(r, i).value.signedAtBtcHeight == Some(0)
    requires Get(r, last).Ok? && Get(r, last).value.signedAtBtcHeight == Some(0)
    ensures NextFeeRate(cfg, r, rate, 0) == Ok(rate)
  {
  }

  lemma FrozenRow(q: Queue, n: nat, k: nat, sigset: SignatorySet, frozen: Checkpoint)
    requires Row(q, n) && k <= n && frozen.status.Signing?
    ensures |Joined(q, sigset, true, k).cps| >= 2
    ensures var r := Frozen(Joined(q, sigset, true, k), frozen);
            && |r.cps| == n + 2 - k && r.index == n + 1 && r.confirmed == q.confirmed && HasSigning(r)
            && forall i :: k <= i < n ==> Get(r, i) == Ok(q.cps[i])
  {
    JoinedEnds(q, sigset, true, k);
  }

  lemma SigningFirst(r: Queue, n: nat, k: nat)
    requires |r.cps| == n + 2 - k && r.index == n + 1 && r.confirmed.None? && HasSigning(r) && k < n
    ensures FirstUnconfirmed(r) == Ok(Some(k)) && LastCompletedIndex(r) == Ok(n - 1)
  {
  }

  /** While nothing is confirmed the rate stays. */
  lemma RateStays(cfg: CheckpointConfig, q: Queue, n: nat, k: nat, sigset: SignatorySet, frozen: Checkpoint)
    requires Row(q, n) && q.confirmed.None? && (k == n == 0 || k < n) && frozen.status.Signing?
    ensures |Joined(q, sigset, true, k).cps| >= 2
    ensures NextFeeRate(cfg, Frozen(Joined(q, sigset, true, k), frozen), DEFAULT_FEE_RATE, 0) == Ok(DEFAULT_FEE_RATE)
  {
    FrozenRow(q, n, k, sigset, frozen);
    var r := Frozen(Joined(q, sigset, true, k), frozen);
    if n > 0 {
      SigningFirst(r, n, k);
      RateFrom(cfg, r, DEFAULT_FEE_RATE, k, n - 1);
    }
  }

  /** A push is due on a row of `n` checkpoints. */
  ghost predicate DueKnown(q: Queue, gap: nat, n: nat, mark: Bytes) {
    ShouldPush(ORACLE, Limits(gap), q, BlockAt(Times(n + 1, gap), mark)) == Ok(true)
  }

  /** The set of the next one. */
  ghost predicate SetKnown(q: Queue, gap: nat, n: nat, mark: Bytes) {
    NextSigset(ORACLE, q, BlockAt(Times(n + 1, gap), mark)) == Ok(SetAt(gap, n + 1))
  }

  /** It prunes `k` checkpoints and then charges this fee. */
  ghost predicate FeeKnown(q: Queue, gap: nat, n: nat, mark: Bytes, k: nat, fees: nat) {
    var sigset := SetAt(gap, n + 1);
    && k < |q.cps|
    && Prune(1_814_400, PushedQueue(q, NewCheckpoint(sigset, true))) == Ok(Joined(q, sigset, true, k))
    && CalcFee(ORACLE, Limits(gap), Joined(q, sigset, true, k), n, mark) == Ok(fees)
  }

  /** The rate after it, whatever was frozen. */
  ghost predicate RateWillBe(q: Queue, gap: nat, n: nat, k: nat, rate: nat) {
    forall frozen: Checkpoint :: frozen.status.Signing? ==> RateIs(q, gap, n, k, rate, frozen)
  }

  predicate RateIs(q: Queue, gap: nat, n: nat, k: nat, rate: nat, frozen: Checkpoint) {
    && k < |q.cps| && |Joined(q, SetAt(gap, n + 1), true, k).cps| >= 2
    && NextFeeRate(Limits(gap), Frozen(Joined(q, SetAt(gap, n + 1), true, k), frozen), DEFAULT_FEE_RATE, 0) == Ok(rate)
  }

  lemma FrozenAndNext(q: Queue, gap: nat, amount: nat, n: nat, mark: Bytes, fees: nat, rate: nat)
    returns (a: Advanced, next: Checkpoint)
    requires |q.cps| == n + 1 && Open(q.cps[n], gap, n, amount) && fees <= amount < U64
    ensures Freeze(ORACLE, Limits(gap), Last(q), mark, fees) == Ok(a) && a.cp.status.Signing?
    ensures Succeed(ORACLE, a, NewCheckpoint(SetAt(gap, n + 1), true), rate) == Ok(next)
    ensures next.sigset == SetAt(gap, n + 1) && (rate == DEFAULT_FEE_RATE ==> Open(next, gap, n + 1, amount - fees))
    ensures |mark| == 32 ==> Waiting(a.cp, gap, n, fees, amount - fees)
  {
    a := FreezeOpen(q.cps[n], gap, n, amount, mark, fees);
    if |mark| == 32 {
      FrozenCounts(a, q.cps[n], gap, n, amount, mark, fees);
    }
    next := NextOpen(a, q.cps[n], gap, n, amount, mark, fees, rate);
  }

  lemma ComputedFrom(q: Queue, gap: nat, n: nat, mark: Bytes, p: StepParts)
    requires |q.cps| == n + 1 && p.sigset == SetAt(gap, n + 1)
    requires DueKnown(q, gap, n, mark) && SetKnown(q, gap, n, mark) && FeeKnown(q, gap, n, mark, p.popped, p.fees)
    requires q.index == n && Freeze(ORACLE, Limits(gap), Last(q), mark, p.fees) == Ok(p.advanced)
    requires Succeed(ORACLE, p.advanced, NewCheckpoint(SetAt(gap, n + 1), true), p.rate) == Ok(p.next)
    ensures Computed(ORACLE, Limits(gap), q, BlockAt(Times(n + 1, gap), mark), true, p)
  {
  }

  lemma RateKnownFrom(q: Queue, gap: nat, n: nat, mark: Bytes, p: StepParts)
    requires |q.cps| == n + 1 && p.sigset == SetAt(gap, n + 1) && p.advanced.cp.status.Signing?
    requires RateWillBe(q, gap, n, p.popped, p.rate) && Last(q).feeRate == DEFAULT_FEE_RATE
    ensures RateKnown(Limits(gap), q, BlockAt(Times(n + 1, gap), mark), true, p)
  {
    assert RateIs(q, gap, n, p.popped, p.rate, p.advanced.cp);
  }

  /** The parts of a due step, from what is known before it. */
  lemma StepOf(q: Queue, gap: nat, amount: nat, n: nat, mark: Bytes, k: nat, fees: nat, rate: nat) returns (p: StepParts)
    requires |q.cps| == n + 1 && q.index == n && Open(q.cps[n], gap, n, amount) && fees <= amount < U64
    requires DueKnown(q, gap, n, mark) && SetKnown(q, gap, n, mark) && FeeKnown(q, gap, n, mark, k, fees)
    requires RateWillBe(q, gap, n, k, rate)
    ensures Computed(ORACLE, Limits(gap), q, BlockAt(Times(n + 1, gap), mark), true, p)
    ensures RateKnown(Limits(gap), q, BlockAt(Times(n + 1, gap), mark), true, p)
    ensures p.popped == k && p.fees == fees && p.sigset == p.next.sigset == SetAt(gap, n + 1)
    ensures |mark| == 32 ==> Waiting(p.advanced.cp, gap, n, fees, amount - fees)
    ensures rate == DEFAULT_FEE_RATE ==> Open(p.next, gap, n + 1, amount - fees)
  {
    var a, next := FrozenAndNext(q, gap, amount, n, mark, fees, rate);
    p := StepParts(k, SetAt(gap, n + 1), fees, a, rate, next);
    ComputedFrom(q, gap, n, mark, p);
    RateKnownFrom(q, gap, n, mark, p);
  }
}
