/**
  No double credit. Over every run the accepted deposit outpoints are pairwise distinct, and
  they are exactly the deposit inputs of the checkpoints, queued or pruned, together with the
  inputs of the recovery transactions.
 */
module CreditOnce {
  import opened Common
  import opened BitcoinTypes
  import opened Transactions
  import opened SignatorySets
  import opened Advance
  import opened CheckpointQueue
  import opened QueueInvariants
  import opened StepInvariants
  import opened StepOutcomes
  import opened Payouts
  import opened Recovery
  import opened Bridge
  import opened BridgeInvariants
  import opened BridgeRun
  import opened DepositOutcomes
  import opened EventFrames
  import opened RunInvariants
  import Signing

  type Measure = OutPoint -> int

  function DepositSum(q: Queue, h: Measure): int {
    Sum(q.cps, DepositOf(h))
  }

  function RecoverySum(txs: seq<RecoveryTx>, h: Measure): int {
    Sum(txs, RecoveryOf(h))
  }

  // ----- checkpoints with the same prevouts -----

  lemma PrevoutsDecide(a: seq<Input>, b: seq<Input>, h: Measure)
    requires Prevouts(a) == Prevouts(b)
    ensures |a| == |b| && Sum(a, PrevoutOf(h)) == Sum(b, PrevoutOf(h))
  {
    assert |a| == |Prevouts(a)| && |b| == |Prevouts(b)|;
    forall i | 0 <= i < |a| ensures a[i].prevout == b[i].prevout {
      assert Prevouts(a)[i] == Prevouts(b)[i];
    }
    SumAgrees(a, b, PrevoutOf(h), PrevoutOf(h));
  }

  lemma SameDeposits(a: Checkpoint, b: Checkpoint, h: Measure)
    requires Prevouts(Tx(a).input) == Prevouts(Tx(b).input) && a.sigset == b.sigset
    ensures DepositOf(h)(a) == DepositOf(h)(b)
  {
    PrevoutsDecide(Tx(a).input, Tx(b).input, h);
    if Tx(a).input != [] {
      assert Prevouts(Tx(a).input)[0] == Prevouts(Tx(b).input)[0];
    }
  }

  // ----- deposits -----

  lemma GrownDeposits(a: Checkpoint, b: Checkpoint, ins: seq<Input>, outs: seq<TxOut>, ts: seq<Transfer>, h: Measure)
    requires Grown(a, b, ins, outs, ts) && (a.sigset.index == 0 || Tx(a).input != [])
    ensures DepositOf(h)(b) == DepositOf(h)(a) + Sum(ins, PrevoutOf(h))
  {
    SumConcat(Tx(a).input, ins, PrevoutOf(h));
  }

  lemma DepositCounts(o: Oracle, cfg: Config, s: State, d: Deposit, s': State, h: Measure)
    requires GoodConfig(cfg) && QueueInv(o, cfg.checkpoint, s.queue) && RelayDeposit(o, cfg, s, d) == Ok(s')
    ensures DepositSum(s'.queue, h) + RecoverySum(s'.recovery, h)
         == DepositSum(s.queue, h) + RecoverySum(s.recovery, h) + h(d.outpoint)
    ensures d.outpoint !in s.outpoints && s'.outpoints == s.outpoints + {d.outpoint}
  {
    var t := DepositOutcome(o, cfg, s, d, s');
    RelayedCounts(o, cfg, s, d, s', t, h);
  }

  lemma RelayedCounts(o: Oracle, cfg: Config, s: State, d: Deposit, s': State, t: DepositTrace, h: Measure)
    requires QueueInv(o, cfg.checkpoint, s.queue) && Relayed(o, cfg, s, d, s', t)
    ensures DepositSum(s'.queue, h) + RecoverySum(s'.recovery, h)
         == DepositSum(s.queue, h) + RecoverySum(s.recovery, h) + h(d.outpoint)
  {
    match t {
      case Taken(input, fee) =>
        LastHasReserve(o, s.queue);
        TakenCounts(s.queue, s'.queue, input, [CreditOf(cfg, d, fee)], h);
      case Recovered(tx, _) =>
        RecoveredCounts(s.recovery, tx, d.outpoint, h);
    }
  }

  lemma RecoveredCounts(txs: seq<RecoveryTx>, tx: RecoveryTx, p: OutPoint, h: Measure)
    requires Prevouts(tx.tx.input) == [p]
    ensures RecoverySum(txs + [tx], h) == RecoverySum(txs, h) + h(p)
  {
    SumSnoc(txs, tx, RecoveryOf(h));
    RecoveryCounts(tx, p, h);
  }

  lemma TakenCounts(q: Queue, q': Queue, input: Input, ts: seq<Transfer>, h: Measure)
    requires LastReplaced(q, q') && Grown(Last(q), Last(q'), [input], [], ts)
    requires Last(q).sigset.index == 0 || Tx(Last(q)).input != []
    ensures DepositSum(q', h) == DepositSum(q, h) + h(input.prevout)
  {
    GrownDeposits(Last(q), Last(q'), [input], [], ts, h);
    LastReplacedSum(q, q', DepositOf(h));
    SumSingle(input, PrevoutOf(h));
  }

  lemma RecoveryCounts(tx: RecoveryTx, p: OutPoint, h: Measure)
    requires Prevouts(tx.tx.input) == [p]
    ensures RecoveryOf(h)(tx) == h(p)
  {
    assert |tx.tx.input| == |Prevouts(tx.tx.input)| == 1;
    assert Prevouts(tx.tx.input)[0] == p;
    assert tx.tx.input == [tx.tx.input[0]];
    SumSingle(tx.tx.input[0], PrevoutOf(h));
  }

  // ----- withdrawals and signatures -----

  lemma WithdrawCounts(o: Oracle, cfg: Config, s: State, script: Bytes, funds: seq<Coin>, h: Measure)
    requires GoodConfig(cfg) && QueueInv(o, cfg.checkpoint, s.queue) && Withdraw(o, cfg, s, script, funds).Ok?
    ensures DepositSum(Withdraw(o, cfg, s, script, funds).value.0.queue, h) == DepositSum(s.queue, h)
  {
    var outs := WithdrawGrows(o, cfg, s, script, funds);
    var q' := Withdraw(o, cfg, s, script, funds).value.0.queue;
    if q' != s.queue {
      LastHasReserve(o, s.queue);
      GrownDeposits(Last(s.queue), Last(q'), [], outs, [], h);
      LastReplacedSum(s.queue, q', DepositOf(h));
    }
  }

  lemma SignCounts(o: Oracle, cfg: CheckpointConfig, q: Queue, xpub: Xpub, sigs: seq<Signature>, i: nat, height: nat,
                   h: Measure)
    requires QueueInv(o, cfg, q) && SignAt(o, q, xpub, sigs, i, height).Ok?
    ensures DepositSum(SignAt(o, q, xpub, sigs, i, height).value, h) == DepositSum(q, h)
  {
    var q' := SignAt(o, q, xpub, sigs, i, height).value;
    var k := SignKeepsInv(o, cfg, q, xpub, sigs, i, height, q');
    SameDeposits(q'.cps[k], q.cps[k], h);
    SumUpdate(q.cps, k, q'.cps[k], DepositOf(h));
  }

  lemma SignRecoveryCounts(o: Oracle, xpub: Xpub, txs: seq<RecoveryTx>, sigs: seq<Signature>, h: Measure)
    requires AllValid(txs) && SignAll(o, xpub, txs, sigs).Ok?
    ensures RecoverySum(SignAll(o, xpub, txs, sigs).value, h) == RecoverySum(txs, h)
  {
    SignAllCorrect(o, xpub, txs, sigs);
    var txs' := SignAll(o, xpub, txs, sigs).value;
    forall k | 0 <= k < |txs| ensures RecoveryOf(h)(txs'[k]) == RecoveryOf(h)(txs[k]) {
      assert RecoveryKept(o, xpub, txs[k], txs'[k]);
      ExtendedPrevouts(txs[k].tx, txs'[k].tx);
      PrevoutsDecide(txs'[k].tx.input, txs[k].tx.input, h);
    }
    SumAgrees(txs', txs, RecoveryOf(h), RecoveryOf(h));
  }

  lemma ExtendedPrevouts(a: BitcoinTx, b: BitcoinTx)
    requires Signing.TxExtends(a, b)
    ensures Prevouts(b.input) == Prevouts(a.input)
  {
    forall i | 0 <= i < |a.input| ensures b.input[i].prevout == a.input[i].prevout {
      assert Signing.InputExtends(a.input[i], b.input[i]);
    }
  }

  // ----- steps -----

  /** Freezing splits the inputs between the frozen transaction and the excess. */
  lemma FreezeCounts(o: Oracle, cfg: CheckpointConfig, cp: Checkpoint, commitment: Bytes, fees: nat, a: Advanced,
                     h: Measure)
    requires SingleTx(cp) && Freeze(o, cfg, cp, commitment, fees) == Ok(a)
    ensures Sum(Tx(a.cp).input, PrevoutOf(h)) + Sum(a.excessInputs, PrevoutOf(h)) == Sum(Tx(cp).input, PrevoutOf(h))
    ensures Tx(cp).input == [] ==> Tx(a.cp).input == []
  {
    FreezeInputs(o, cfg, cp, commitment, fees);
    PrevoutsDecide(Tx(a.cp).input, Take(Tx(cp).input, cfg.maxInputs), h);
    SumTakeDrop(Tx(cp).input, cfg.maxInputs, PrevoutOf(h));
  }

  lemma SucceedCounts(o: Oracle, a: Advanced, sigset: SignatorySet, dep: bool, rate: nat, next: Checkpoint, h: Measure)
    requires Pristine(a.excessInputs) && sigset.index > 0
    requires Succeed(o, a, NewCheckpoint(sigset, dep), rate) == Ok(next)
    ensures DepositOf(h)(next) == Sum(a.excessInputs, PrevoutOf(h))
  {
    SucceedEffect(o, a, sigset, dep, rate);
    var ins := Tx(next).input;
    SumTail(ins, PrevoutOf(h));
    PrevoutsDecide(Suffix(ins, 1), a.excessInputs, h);
  }

  /** No deposit is lost or duplicated by carrying the excess over. */
  lemma HandoverCounts(o: Oracle, cfg: CheckpointConfig, q: Queue, b: Block, dep: bool, p: StepParts, h: Measure)
    requires Shape(q) && Computed(o, cfg, q, b, dep, p) && Fits(o, q, p.advanced, p.next, p.fees)
    ensures DepositOf(h)(p.advanced.cp) + DepositOf(h)(p.next) == DepositOf(h)(Last(q))
  {
    LastBuilding(q);
    FreezeCounts(o, cfg, Last(q), b.commitment, p.fees, p.advanced, h);
    SucceedIndex(o, p.advanced, p.sigset, dep, p.rate, p.next);
    SucceedCounts(o, p.advanced, p.sigset, dep, p.rate, p.next, h);
  }

  lemma SucceedIndex(o: Oracle, a: Advanced, sigset: SignatorySet, dep: bool, rate: nat, next: Checkpoint)
    requires Succeed(o, a, NewCheckpoint(sigset, dep), rate) == Ok(next)
    ensures next.sigset == sigset
  {
  }

  lemma DepositInputsSum(cp: Checkpoint, h: Measure)
    ensures Sum(Prevouts(DepositInputs(cp)), h) == DepositOf(h)(cp)
  {
    var ins := DepositInputs(cp);
    SumPrevouts(ins, |ins|, h);
    if cp.sigset.index != 0 && Tx(cp).input != [] {
      SumTail(Tx(cp).input, PrevoutOf(h));
    }
  }

  lemma SumTail<T>(s: seq<T>, f: T -> int)
    requires s != []
    ensures Sum(s, f) == f(s[0]) + Sum(Suffix(s, 1), f)
  {
    SumShift(s, Suffix(s, 1), 1, |s| - 1, f);
    assert SumTo(s, 1, f) == SumTo(s, 0, f) + f(s[0]);
  }

  lemma {:induction false} SumPrevouts(ins: seq<Input>, n: nat, h: Measure)
    requires n <= |ins|
    ensures SumTo(Prevouts(ins), n, h) == SumTo(ins, n, PrevoutOf(h))
  {
    if n > 0 {
      SumPrevouts(ins, n - 1, h);
    }
  }

  lemma PrunedSum(cps: seq<Checkpoint>, k: nat, h: Measure)
    requires k <= |cps|
    ensures Sum(PrunedOutpoints(cps, k), h) == SumTo(cps, k, DepositOf(h))
  {
    forall i | 0 <= i < k ensures Sum(DepositOutpoints(cps[i]), h) == DepositOf(h)(cps[i]) {
      DepositInputsSum(cps[i], h);
    }
    FlattenSum(cps, k, DepositOutpoints, h, DepositOf(h));
  }

  /** A step keeps every deposit input in the queue, except those it prunes. */
  lemma StepCounts(o: Oracle, cfg: Config, q: Queue, pool: int, b: Block, dep: bool, r: Stepped, out: Outcome, h: Measure)
    requires Shape(q) && Describes(o, cfg, q, pool, b, dep, r, out)
    ensures DepositSum(r.queue, h) + SumTo(q.cps, PoppedCount(q, r.queue), DepositOf(h)) == DepositSum(q, h)
  {
    match out {
      case Idle =>
      case First(sigset) =>
        SumSingle(NewCheckpoint(sigset, dep), DepositOf(h));
      case Pushed(p) =>
        FollowsSum(q, r.queue, p.popped, p.advanced.cp, p.next, DepositOf(h));
        HandoverCounts(o, cfg.checkpoint, q, b, dep, p, h);
        assert PoppedCount(q, r.queue) == p.popped;
    }
  }

  lemma ClearedCounts(q: Queue, q': Queue, n: nat, h: Measure)
    requires AllCleared(q, q') && n <= |q.cps|
    ensures SumTo(q'.cps, n, DepositOf(h)) == SumTo(q.cps, n, DepositOf(h))
  {
    forall k | 0 <= k < n ensures DepositOf(h)(q'.cps[k]) == DepositOf(h)(q.cps[k]) {
      assert Cleared(q.cps[k], q'.cps[k]);
    }
    SumToAgrees(q'.cps, q.cps, n, DepositOf(h), DepositOf(h));
  }

  lemma BlockCounts(o: Oracle, cfg: Config, q: Queue, taken: Queue, pool: int, b: Block, dep: bool, r: Stepped,
                    out: Outcome, h: Measure)
    requires AllCleared(q, taken) && Shape(taken) && Describes(o, cfg, taken, pool, b, dep, r, out)
    ensures DepositSum(r.queue, h) + Sum(PrunedOutpoints(q.cps, PoppedCount(q, r.queue)), h) == DepositSum(q, h)
  {
    var k, n := PoppedCount(q, r.queue), |q.cps|;
    assert PoppedCount(taken, r.queue) == k;
    StepCounts(o, cfg, taken, pool, b, dep, r, out, h);
    ClearedCounts(q, taken, k, h);
    ClearedCounts(q, taken, n, h);
    PrunedSum(q.cps, k, h);
  }

  lemma EndBlockCounts(o: Oracle, cfg: Config, s: State, b: Block, env: PayoutEnv, s': State, h: Measure)
    requires GoodConfig(cfg) && QueueInv(o, cfg.checkpoint, s.queue)
    requires ClockEndBlock(o, cfg, s, b, env).Ok? && ClockEndBlock(o, cfg, s, b, env).value.0 == s'
    ensures DepositSum(s'.queue, h) + Sum(PrunedOutpoints(s.queue.cps, PoppedCount(s.queue, s'.queue)), h)
         == DepositSum(s.queue, h)
    ensures s'.recovery == s.recovery && s'.outpoints == s.outpoints
  {
    var t, out := EndBlockOutcome(o, cfg, s, b, env);
    BlockCounts(o, cfg, s.queue, t.taken, s.feePool, b, t.dep, t.stepped, out, h);
  }

  // ----- runs -----

  ghost predicate Accounted(w: World, h: Measure) {
    Sum(w.hist.accepted, h) ==
    DepositSum(w.st.queue, h) + Sum(w.hist.pruned, h) + RecoverySum(w.st.recovery, h)
  }

  /** The replay set holds the accepted outpoints, none accepted twice. */
  ghost predicate Distinct(w: World) {
    Seen(w.st.outpoints, w.hist.accepted)
  }

  ghost predicate Seen(outpoints: set<OutPoint>, accepted: seq<OutPoint>) {
    && (forall p :: p in outpoints <==> p in accepted)
    && (forall i, j :: 0 <= i < j < |accepted| ==> accepted[i] != accepted[j])
  }

  lemma SeenGrows(outpoints: set<OutPoint>, accepted: seq<OutPoint>, p: OutPoint)
    requires Seen(outpoints, accepted) && p !in outpoints
    ensures Seen(outpoints + {p}, accepted + [p])
  {
  }

  lemma DepositAccounts(o: Oracle, cfg: Config, w: World, d: Deposit, s': State, h: Measure)
    requires GoodConfig(cfg) && QueueInv(o, cfg.checkpoint, w.st.queue) && Accounted(w, h)
    requires RelayDeposit(o, cfg, w.st, d) == Ok(s')
    ensures Sum(w.hist.accepted + [d.outpoint], h)
         == DepositSum(s'.queue, h) + Sum(w.hist.pruned, h) + RecoverySum(s'.recovery, h)
  {
    DepositCounts(o, cfg, w.st, d, s', h);
    SumSnoc(w.hist.accepted, d.outpoint, h);
  }

  lemma EndBlockAccounts(o: Oracle, cfg: Config, w: World, b: Block, env: PayoutEnv, s': State, h: Measure)
    requires GoodConfig(cfg) && QueueInv(o, cfg.checkpoint, w.st.queue) && Accounted(w, h)
    requires ClockEndBlock(o, cfg, w.st, b, env).Ok? && ClockEndBlock(o, cfg, w.st, b, env).value.0 == s'
    ensures var popped := PrunedOutpoints(w.st.queue.cps, PoppedCount(w.st.queue, s'.queue));
            Sum(w.hist.accepted, h)
            == DepositSum(s'.queue, h) + Sum(w.hist.pruned + popped, h) + RecoverySum(s'.recovery, h)
  {
    EndBlockCounts(o, cfg, w.st, b, env, s', h);
    SumConcat(w.hist.pruned, PrunedOutpoints(w.st.queue.cps, PoppedCount(w.st.queue, s'.queue)), h);
  }

  lemma EventAccounts(o: Oracle, cfg: Config, w: World, e: Event, h: Measure)
    requires GoodConfig(cfg) && StateInv(o, cfg, w.st) && Accounted(w, h)
    ensures Accounted(Apply(o, cfg, w, e), h)
  {
    var s := w.st;
    if Execute(o, cfg, s, e).Ok? {
      var s' := Execute(o, cfg, s, e).value.0;
      match e {
        case RelayDepositEvent(d) =>
          DepositAccounts(o, cfg, w, d, s', h);
        case EndBlockEvent(b, env) =>
          EndBlockAccounts(o, cfg, w, b, env, s', h);
        case _ =>
          QuietCounts(o, cfg, s, e, h);
      }
    }
  }

  lemma QuietCounts(o: Oracle, cfg: Config, s: State, e: Event, h: Measure)
    requires GoodConfig(cfg) && StateInv(o, cfg, s) && Execute(o, cfg, s, e).Ok?
    requires !e.RelayDepositEvent? && !e.EndBlockEvent?
    ensures var s' := Execute(o, cfg, s, e).value.0;
            DepositSum(s'.queue, h) == DepositSum(s.queue, h) && RecoverySum(s'.recovery, h) == RecoverySum(s.recovery, h)
  {
    match e {
      case WithdrawEvent(script, funds) =>
        WithdrawCounts(o, cfg, s, script, funds, h);
        WithdrawFrames(o, cfg, s, script, funds);
      case SignEvent(xpub, sigs, i, height) =>
        SignCounts(o, cfg.checkpoint, s.queue, xpub, sigs, i, height, h);
      case SignRecoveryEvent(xpub, sigs) =>
        SignRecoveryCounts(o, xpub, s.recovery, sigs, h);
      case RelayCheckpointEvent(i, proven) =>
    }
  }

  lemma EventDistinct(o: Oracle, cfg: Config, w: World, e: Event)
    requires GoodConfig(cfg) && StateInv(o, cfg, w.st) && Distinct(w)
    ensures Distinct(Apply(o, cfg, w, e))
  {
    var s := w.st;
    if Execute(o, cfg, s, e).Ok? {
      match e {
        case RelayDepositEvent(d) =>
          var t := DepositOutcome(o, cfg, s, d, RelayDeposit(o, cfg, s, d).value);
          SeenGrows(s.outpoints, w.hist.accepted, d.outpoint);
        case WithdrawEvent(script, funds) =>
          WithdrawFrames(o, cfg, s, script, funds);
        case EndBlockEvent(b, env) =>
          var t := EndBlockStages(o, cfg, s, b, env);
        case _ =>
      }
    }
  }

  lemma {:induction false} RunAccounts(o: Oracle, cfg: Config, es: seq<Event>, h: Measure)
    requires GoodConfig(cfg) && HonestRun(o, cfg, START, es)
    ensures Accounted(Run(o, cfg, START, es), h) && Distinct(Run(o, cfg, START, es))
    decreases |es|
  {
    if es != [] {
      var before := es[..|es| - 1];
      RunAccounts(o, cfg, before, h);
      RunKeepsInv(o, cfg, before);
      EventAccounts(o, cfg, Run(o, cfg, START, before), es[|es| - 1], h);
      EventDistinct(o, cfg, Run(o, cfg, START, before), es[|es| - 1]);
    }
  }

  function Is(p: OutPoint): Measure {
    (x: OutPoint) => if x == p then 1 else 0
  }

  lemma {:induction false} CountDistinct(s: seq<OutPoint>, n: nat, p: OutPoint)
    requires n <= |s| && forall i, j :: 0 <= i < j < |s| ==> s[i] != s[j]
    ensures SumTo(s, n, Is(p)) == if exists i :: 0 <= i < n && s[i] == p then 1 else 0
  {
    if n > 0 {
      CountDistinct(s, n - 1, p);
      if s[n - 1] != p && exists i :: 0 <= i < n && s[i] == p {
        assert exists i :: 0 <= i < n - 1 && s[i] == p;
      }
    }
  }

  /**
    An accepted outpoint is the input of exactly one deposit, queued or pruned, or of exactly
    one recovery transaction; an outpoint never accepted is the input of none.
   */
  lemma CreditedOnce(o: Oracle, cfg: Config, es: seq<Event>, p: OutPoint)
    requires GoodConfig(cfg) && HonestRun(o, cfg, START, es)
    ensures var w := Run(o, cfg, START, es);
            DepositSum(w.st.queue, Is(p)) + Sum(w.hist.pruned, Is(p)) + RecoverySum(w.st.recovery, Is(p))
            == if p in w.st.outpoints then 1 else 0
  {
    var w := Run(o, cfg, START, es);
    RunAccounts(o, cfg, es, Is(p));
    CountDistinct(w.hist.accepted, |w.hist.accepted|, p);
  }
}
