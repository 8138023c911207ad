/** `maybe_step` keeps the queue invariants, conserves funds and never fails half way. */
module StepInvariants {
  import opened Common
  import opened BitcoinTypes
  import opened Transactions
  import opened SignatorySets
  import opened Ordering
  import opened Advance
  import opened CheckpointQueue
  import opened QueueInvariants
  import TS = ThresholdSigs
  import Signing

  // ----- checkpoints nobody has signed -----

  ghost predicate Untouched(cp: Checkpoint) {
    && SingleTx(cp) && !cp.status.Complete?
    && cp.batches[0].signedTxs == 0 && Tx(cp).signedInputs == 0
    && Pristine(Tx(cp).input)
  }

  /** Inputs in a consistent, empty signing state. */
  ghost predicate Pristine(ins: seq<Input>) {
    Signing.InputsValid(ins) && InputsUnsigned(ins)
  }

  lemma UnsignedCount(ins: seq<Input>)
    requires Pristine(ins)
    ensures Sum(ins, Signing.CountInput) == 0
  {
    forall i | 0 <= i < |ins| ensures Signing.CountInput(ins[i]) == 0 {
      assert TS.Valid(ins[i].signatures) && TS.Unsigned(ins[i].signatures.sigs);
      TS.UnsignedSum(ins[i].signatures.sigs);
    }
    SumToZero(ins, |ins|, Signing.CountInput);
  }

  lemma UntouchedValid(cp: Checkpoint)
    requires Untouched(cp)
    ensures CpValid(cp)
  {
    UnsignedCount(Tx(cp).input);
    SumSingle(Tx(cp), Signing.CountTx);
    assert cp.batches[0].txs == [Tx(cp)];
    assert cp.batches[1..] == [];
  }

  lemma BuildingUntouched(cp: Checkpoint)
    requires CpValid(cp) && cp.status.Building?
    ensures Untouched(cp)
  {
    assert Signing.BatchValid(cp.batches[0]);
    assert Signing.TxValid(cp.batches[0].txs[0]);
    UnsignedCount(Tx(cp).input);
    SumSingle(Tx(cp), Signing.CountTx);
    assert cp.batches[0].txs == [Tx(cp)];
  }

  lemma NewInputPristine(o: Oracle, prevout: OutPoint, sigset: SignatorySet, dest: Bytes, amount: nat)
    requires NewInput(o, prevout, sigset, dest, amount).Ok?
    ensures var i := NewInput(o, prevout, sigset, dest, amount).value;
            Pristine([i]) && i.prevout == prevout && i.amount == amount && i.sigsetIndex == sigset.index
  {
    TS.FreshValid(TS.EntriesOf(sigset.signatories));
  }

  lemma PristineConcat(a: seq<Input>, b: seq<Input>)
    requires Pristine(a) && Pristine(b)
    ensures Pristine(a + b)
  {
  }

  // ----- freezing -----

  lemma MessagesPristine(o: Oracle, body: TxBody, ins: seq<Input>)
    requires Pristine(ins)
    ensures Pristine(WithMessages(o, body, ins))
  {
    var r := WithMessages(o, body, ins);
    forall i | 0 <= i < |r| ensures TS.Valid(r[i].signatures) && TS.Unsigned(r[i].signatures.sigs) {
      assert r[i] == WithMessage(o, body, i, ins[i]);
      assert TS.Valid(ins[i].signatures) && TS.Unsigned(ins[i].signatures.sigs);
    }
  }

  lemma PristineParts(ins: seq<Input>, n: nat)
    requires Pristine(ins)
    ensures Pristine(Take(ins, n)) && Pristine(Reverse(Drop(ins, n)))
  {
  }

  /** A frozen checkpoint is untouched, keeps its set, its pending transfers and the source
      of its first input, and its excess inputs are unsigned. */
  lemma FrozenUntouched(o: Oracle, cfg: CheckpointConfig, cp: Checkpoint, commitment: Bytes, fees: nat)
    requires Untouched(cp) && cfg.maxInputs >= 1 && Freeze(o, cfg, cp, commitment, fees).Ok?
    ensures var a := Freeze(o, cfg, cp, commitment, fees).value;
            && Untouched(a.cp) && a.cp.status.Signing?
            && a.cp.sigset == cp.sigset && a.cp.pending == cp.pending
            && (Tx(cp).input != [] ==>
                  Tx(a.cp).input != [] && SameSource(Tx(cp).input[0], Tx(a.cp).input[0]))
            && Pristine(a.excessInputs)
  {
    var a := Freeze(o, cfg, cp, commitment, fees).value;
    var ins := Take(Tx(cp).input, cfg.maxInputs);
    var body := TxBody(Tx(cp).lockTime, Prevouts(ins), Tx(a.cp).output);
    assert Tx(a.cp).input == WithMessages(o, body, ins);
    PristineParts(Tx(cp).input, cfg.maxInputs);
    MessagesPristine(o, body, ins);
  }

  // ----- the next building checkpoint -----

  /** Unsigned shares never trip the assertion in `from_shares`; outpoints and amounts stay. */
  lemma {:induction false} RefreshPristine(ins: seq<Input>, n: nat)
    requires Pristine(ins) && n <= |ins|
    ensures Refresh(ins, n).Ok?
    ensures var r := Refresh(ins, n).value;
            && |r| == n && Pristine(r)
            && (forall i :: 0 <= i < n ==> r[i].prevout == ins[i].prevout && r[i].amount == ins[i].amount)
  {
    if n > 0 {
      RefreshPristine(ins, n - 1);
      TS.FreshValid(ins[n - 1].signatures.sigs);
      assert TS.Valid(ins[n - 1].signatures) && TS.Unsigned(ins[n - 1].signatures.sigs);
    }
  }

  lemma RefreshSum(ins: seq<Input>)
    requires Pristine(ins)
    ensures Refresh(ins, |ins|).Ok?
    ensures Sum(Refresh(ins, |ins|).value, Amount) == Sum(ins, Amount)
    ensures Prevouts(Refresh(ins, |ins|).value) == Prevouts(ins)
  {
    RefreshPristine(ins, |ins|);
    SumAgrees(Refresh(ins, |ins|).value, ins, Amount, Amount);
  }

  lemma ReserveFirst(reserve: Input, excess: seq<Input>)
    requires Pristine([reserve]) && Pristine(excess)
    ensures var ins := [reserve] + excess;
            && Pristine(ins) && ins[0] == reserve && Suffix(ins, 1) == excess
            && Sum(ins, Amount) == reserve.amount + Sum(excess, Amount)
  {
    PristineConcat([reserve], excess);
    SumCons(reserve, excess, Amount);
    assert Suffix([reserve] + excess, 1) == excess;
  }

  lemma SucceedEffect(o: Oracle, a: Advanced, sigset: SignatorySet, dep: bool, rate: nat)
    requires Pristine(a.excessInputs)
    requires Succeed(o, a, NewCheckpoint(sigset, dep), rate).Ok?
    ensures var next := Succeed(o, a, NewCheckpoint(sigset, dep), rate).value;
            && Untouched(next) && next.status.Building? && next.sigset == sigset && next.pending == []
            && Tx(next).input != []
            && Tx(next).input[0].prevout == a.reserveOutpoint && Tx(next).input[0].amount == a.reserveValue
            && Prevouts(Suffix(Tx(next).input, 1)) == Prevouts(a.excessInputs)
            && Sum(Tx(next).input, Amount) == a.reserveValue + Sum(a.excessInputs, Amount)
            && Tx(next).output == a.excessOutputs
  {
    var next := Succeed(o, a, NewCheckpoint(sigset, dep), rate).value;
    var reserve, excess := SucceedParts(o, a, sigset, dep, rate, next);
    NewInputPristine(o, a.reserveOutpoint, a.cp.sigset, [0], a.reserveValue);
    RefreshSum(a.excessInputs);
    RefreshPristine(a.excessInputs, |a.excessInputs|);
    ReserveFirst(reserve, excess);
  }

  lemma SucceedParts(o: Oracle, a: Advanced, sigset: SignatorySet, dep: bool, rate: nat, next: Checkpoint)
    returns (reserve: Input, excess: seq<Input>)
    requires Succeed(o, a, NewCheckpoint(sigset, dep), rate) == Ok(next)
    ensures NewInput(o, a.reserveOutpoint, a.cp.sigset, [0], a.reserveValue) == Ok(reserve)
    ensures Refresh(a.excessInputs, |a.excessInputs|) == Ok(excess)
    ensures SingleTx(next) && Tx(next) == EMPTY_TX.(input := [reserve] + excess, output := a.excessOutputs)
    ensures next == NewCheckpoint(sigset, dep).(feeRate := rate, batches := next.batches)
    ensures next.batches[0].signedTxs == 0
  {
    reserve := NewInput(o, a.reserveOutpoint, a.cp.sigset, [0], a.reserveValue).value;
    excess := Refresh(a.excessInputs, |a.excessInputs|).value;
    assert [] + [reserve] + excess == [reserve] + excess;
    assert [] + a.excessOutputs == a.excessOutputs;
  }

  // ----- what a pushing step does -----

  /** The pieces a pushing step is made of. */
  datatype StepParts = StepParts(
    popped: nat,            // checkpoints pruned
    sigset: SignatorySet,   // of the new building checkpoint
    fees: nat,              // charged for the frozen one
    advanced: Advanced,
    rate: nat,
    next: Checkpoint)

  /** The queue right after a push. */
  function PushedQueue(q: Queue, next: Checkpoint): Queue {
    q.(cps := q.cps + [next], index := q.index + 1)
  }

  /** The queue between pruning and handover. */
  function Joined(q: Queue, sigset: SignatorySet, dep: bool, k: nat): Queue
    requires k <= |q.cps|
  {
    q.(cps := Suffix(q.cps + [NewCheckpoint(sigset, dep)], k), index := q.index + 1)
  }

  lemma JoinedEnds(q: Queue, sigset: SignatorySet, dep: bool, k: nat)
    requires k < |q.cps|
    ensures var cps := Joined(q, sigset, dep, k).cps;
            && |cps| == |q.cps| + 1 - k >= 2
            && cps[|cps| - 1] == NewCheckpoint(sigset, dep) && cps[|cps| - 2] == q.cps[|q.cps| - 1]
            && forall i :: 0 <= i < |cps| - 1 ==> cps[i] == q.cps[k + i]
  {
  }

  /** The queue with its last two checkpoints replaced by the frozen one and the new one. */
  function Replaced(j: Queue, frozen: Checkpoint, next: Checkpoint): Queue
    requires |j.cps| >= 2
  {
    j.(cps := j.cps[|j.cps| - 2 := frozen][|j.cps| - 1 := next])
  }

  /** How the parts of a handover on queue `j` follow from each other. */
  ghost predicate HandedOver(ops: StepOps, units: nat, j: Queue, p: StepParts) {
    && |j.cps| >= 2
    && ops.fee(j) == Ok(p.fees)
    && ops.freeze(j.cps[|j.cps| - 2], p.fees) == Ok(p.advanced)
    && ops.succeed(p.advanced, j.cps[|j.cps| - 1], p.rate) == Ok(p.next)
    && Times(p.fees, units) < U64
  }

  lemma HandoverEffect(ops: StepOps, units: nat, q: Queue, feePool: int, k: nat, sigset: SignatorySet)
    returns (p: StepParts)
    requires 2 <= |q.cps| <= q.index + 1
    requires Handover(ops, units, q, feePool).Ok?
    ensures p.popped == k && p.sigset == sigset
    ensures HandedOver(ops, units, q, p)
    ensures Handover(ops, units, q, feePool) ==
            Ok((Replaced(q, p.advanced.cp, p.next), feePool - AsI64(Times(p.fees, units))))
  {
    var n := |q.cps|;
    var prev, fees := q.cps[n - 2], ops.fee(q).value;
    var a := ops.freeze(prev, fees).value;
    var q1 := q.(cps := q.cps[n - 2 := a.cp]);
    var rate := ops.nextRate(q1, prev.feeRate).value;
    p := StepParts(k, sigset, fees, a, rate, ops.succeed(a, q.cps[n - 1], rate).value);
  }

  lemma PruneEffect(maxAge: nat, q: Queue)
    returns (k: nat)
    requires 1 <= |q.cps| <= q.index + 1 && Prune(maxAge, q).Ok?
    ensures k < |q.cps| && (k > 0 ==> |q.cps| - k >= MIN_CHECKPOINTS)
    ensures Prune(maxAge, q) == Ok(q.(cps := Suffix(q.cps, k)))
  {
    k := PruneCount(q.cps, 0, q.cps[|q.cps| - 1].sigset.createTime, maxAge).value;
  }

  /** The parts of a step on queue `q`. */
  ghost predicate StepsBy(ops: StepOps, units: nat, q: Queue, dep: bool, p: StepParts) {
    && ops.should(q) == Ok(true) && ops.sigset(q) == Ok(p.sigset)
    && p.popped < |q.cps| && (p.popped > 0 ==> |q.cps| + 1 - p.popped >= MIN_CHECKPOINTS)
    && HandedOver(ops, units, Joined(q, p.sigset, dep, p.popped), p)
  }

  /** A pushing step on a non-empty queue, taken apart: push, prune and hand over. */
  lemma StepEffect(ops: StepOps, maxAge: nat, units: nat, q: Queue, feePool: int, dep: bool)
    returns (p: StepParts)
    requires 1 <= |q.cps| <= q.index + 1
    requires StepWith(ops, maxAge, units, q, feePool, dep).Ok?
    requires StepWith(ops, maxAge, units, q, feePool, dep).value.pushed
    ensures StepsBy(ops, units, q, dep, p)
    ensures Prune(maxAge, PushedQueue(q, NewCheckpoint(p.sigset, dep))) == Ok(Joined(q, p.sigset, dep, p.popped))
    ensures var j := Joined(q, p.sigset, dep, p.popped);
            StepWith(ops, maxAge, units, q, feePool, dep) ==
            Ok(Stepped(Replaced(j, p.advanced.cp, p.next), feePool - AsI64(Times(p.fees, units)), true))
  {
    var k, sigset := StepPushes(ops, maxAge, units, q, feePool, dep);
    JoinedEnds(q, sigset, dep, k);
    p := HandoverEffect(ops, units, Joined(q, sigset, dep, k), feePool, k, sigset);
  }

  /** Up to the handover: push and prune. */
  lemma StepPushes(ops: StepOps, maxAge: nat, units: nat, q: Queue, feePool: int, dep: bool)
    returns (k: nat, sigset: SignatorySet)
    requires 1 <= |q.cps| <= q.index + 1
    requires StepWith(ops, maxAge, units, q, feePool, dep).Ok?
    requires StepWith(ops, maxAge, units, q, feePool, dep).value.pushed
    ensures ops.should(q) == Ok(true) && ops.sigset(q) == Ok(sigset)
    ensures k < |q.cps| && (k > 0 ==> |q.cps| + 1 - k >= MIN_CHECKPOINTS)
    ensures var done := Handover(ops, units, Joined(q, sigset, dep, k), feePool);
            done.Ok? && StepWith(ops, maxAge, units, q, feePool, dep) == Ok(Stepped(done.value.0, done.value.1, true))
    ensures Prune(maxAge, PushedQueue(q, NewCheckpoint(sigset, dep))) == Ok(Joined(q, sigset, dep, k))
  {
    sigset := ops.sigset(q).value;
    k := PruneEffect(maxAge, PushedQueue(q, NewCheckpoint(sigset, dep)));
  }

  /** A step on an empty queue only adds the first building checkpoint. */
  lemma FirstStepEffect(ops: StepOps, maxAge: nat, units: nat, q: Queue, feePool: int, dep: bool)
    requires q.cps == [] && q.index == 0
    requires StepWith(ops, maxAge, units, q, feePool, dep).Ok?
    requires StepWith(ops, maxAge, units, q, feePool, dep).value.pushed
    ensures ops.sigset(q).Ok?
    ensures StepWith(ops, maxAge, units, q, feePool, dep) ==
            Ok(Stepped(q.(cps := [NewCheckpoint(ops.sigset(q).value, dep)]), feePool, true))
  {
    var first := NewCheckpoint(ops.sigset(q).value, dep);
    assert [] + [first] == [first] && Suffix([first], 0) == [first];
  }

  // ----- a step that does not push changes nothing -----

  /** `maybe_push` succeeds whenever `should_push` said so: the index never moves alone. */
  lemma PushFollowsShould(o: Oracle, cfg: CheckpointConfig, q: Queue, b: Block, dep: bool)
    requires ShouldPush(o, cfg, q, b) == Ok(true)
    ensures MaybePush(q, NextSigset(o, q, b), dep).Ok? && MaybePush(q, NextSigset(o, q, b), dep).value.1
  {
  }

  lemma IdleStep(o: Oracle, cfg: CheckpointConfig, units: nat, q: Queue, feePool: int, b: Block, dep: bool)
    requires MaybeStep(o, cfg, units, q, feePool, b, dep).Ok?
    requires !MaybeStep(o, cfg, units, q, feePool, b, dep).value.pushed
    ensures MaybeStep(o, cfg, units, q, feePool, b, dep).value == Stepped(q, feePool, false)
    ensures ShouldPush(o, cfg, q, b) != Ok(true)
  {
    if ShouldPush(o, cfg, q, b) == Ok(true) {
      PushFollowsShould(o, cfg, q, b, dep);
    }
  }

  // ----- what the parts guarantee -----

  function InSum(cp: Checkpoint): int {
    Sum(Tx(cp).input, Amount)
  }

  function OutSum(cp: Checkpoint): int {
    Sum(Tx(cp).output, Value)
  }

  /** What freezing `cp` for a fee yields. */
  ghost predicate FrozenOk(o: Oracle, cp: Checkpoint, fees: nat, a: Advanced) {
    && Untouched(a.cp) && a.cp.status.Signing?
    && a.cp.sigset == cp.sigset && a.cp.pending == cp.pending
    && (Tx(cp).input != [] ==> Tx(a.cp).input != [] && SameSource(Tx(cp).input[0], Tx(a.cp).input[0]))
    && Pristine(a.excessInputs)
    && a.reserveOutpoint == OutPoint(Txid(o, Tx(a.cp)), 0)
    && Tx(a.cp).output != [] && Tx(a.cp).output[0].value == a.reserveValue
    && InSum(a.cp) + Sum(a.excessInputs, Amount) == InSum(cp)
    && OutSum(a.cp) + Sum(a.excessOutputs, Value) == OutSum(cp) + a.reserveValue
    && InSum(a.cp) == OutSum(a.cp) + fees
  }

  /** What the next building checkpoint is. */
  ghost predicate NextOk(a: Advanced, sigset: SignatorySet, next: Checkpoint) {
    && Untouched(next) && next.status.Building? && next.sigset == sigset && next.pending == []
    && Tx(next).input != []
    && Tx(next).input[0].prevout == a.reserveOutpoint && Tx(next).input[0].amount == a.reserveValue
    && InSum(next) == a.reserveValue + Sum(a.excessInputs, Amount)
    && OutSum(next) == Sum(a.excessOutputs, Value)
  }

  ghost predicate FreezeGood(o: Oracle, ops: StepOps, cp: Checkpoint, fees: nat) {
    Untouched(cp) && ops.freeze(cp, fees).Ok? ==> FrozenOk(o, cp, fees, ops.freeze(cp, fees).value)
  }

  ghost predicate SucceedGood(ops: StepOps, a: Advanced, sigset: SignatorySet, dep: bool, rate: nat) {
    Pristine(a.excessInputs) && ops.succeed(a, NewCheckpoint(sigset, dep), rate).Ok? ==>
      NextOk(a, sigset, ops.succeed(a, NewCheckpoint(sigset, dep), rate).value)
  }

  ghost predicate GuardGood(cfg: CheckpointConfig, ops: StepOps, q: Queue) {
    && (ops.sigset(q).Ok? ==> ops.sigset(q).value.index == NextIndex(q))
    && (ops.should(q) == Ok(true) ==>
          !HasSigning(q) && NumUnconfirmed(q).Ok? && NumUnconfirmed(q).value < cfg.maxUnconfirmed)
  }

  ghost predicate GoodOps(o: Oracle, cfg: CheckpointConfig, ops: StepOps) {
    && (forall cp, fees :: FreezeGood(o, ops, cp, fees))
    && (forall a, sigset, dep, rate :: SucceedGood(ops, a, sigset, dep, rate))
    && (forall q :: GuardGood(cfg, ops, q))
  }

  lemma FreezeIsGood(o: Oracle, cfg: CheckpointConfig, cp: Checkpoint, commitment: Bytes, fees: nat)
    requires ValidConfig(cfg) && Untouched(cp) && Freeze(o, cfg, cp, commitment, fees).Ok?
    ensures FrozenOk(o, cp, fees, Freeze(o, cfg, cp, commitment, fees).value)
  {
    FrozenUntouched(o, cfg, cp, commitment, fees);
    FreezeBalances(o, cfg, cp, commitment, fees);
  }

  lemma ShouldIsGood(o: Oracle, cfg: CheckpointConfig, q: Queue, b: Block)
    requires ShouldPush(o, cfg, q, b) == Ok(true)
    ensures !HasSigning(q) && NumUnconfirmed(q).Ok? && NumUnconfirmed(q).value < cfg.maxUnconfirmed
  {
  }

  /** What the computations of a step are, one by one. */
  lemma OpsAre(o: Oracle, cfg: CheckpointConfig, b: Block, ops: StepOps)
    requires ops == OpsFor(o, cfg, b)
    ensures forall q :: ops.should(q) == ShouldPush(o, cfg, q, b)
    ensures forall q :: ops.sigset(q) == NextSigset(o, q, b)
    ensures forall q :: ops.fee(q) == CalcFee(o, cfg, q, q.index - 1, b.commitment)
    ensures forall cp, fees :: ops.freeze(cp, fees) == Freeze(o, cfg, cp, b.commitment, fees)
    ensures forall q, rate :: ops.nextRate(q, rate) == NextFeeRate(cfg, q, rate, b.btcHeight)
    ensures forall a, cp, rate :: ops.succeed(a, cp, rate) == Succeed(o, a, cp, rate)
  {
  }

  lemma OpsForGood(o: Oracle, cfg: CheckpointConfig, b: Block)
    requires ValidConfig(cfg)
    ensures GoodOps(o, cfg, OpsFor(o, cfg, b))
  {
    var ops := OpsFor(o, cfg, b);
    forall cp, fees ensures FreezeGood(o, ops, cp, fees) {
      if Untouched(cp) && ops.freeze(cp, fees).Ok? {
        FreezeIsGood(o, cfg, cp, b.commitment, fees);
      }
    }
    forall a, sigset, dep, rate ensures SucceedGood(ops, a, sigset, dep, rate) {
      if Pristine(a.excessInputs) && ops.succeed(a, NewCheckpoint(sigset, dep), rate).Ok? {
        SucceedEffect(o, a, sigset, dep, rate);
      }
    }
    forall q ensures GuardGood(cfg, ops, q) {
      if ops.should(q) == Ok(true) {
        ShouldIsGood(o, cfg, q, b);
      }
    }
  }

  // ----- a pushing step keeps the invariants -----

  /** No complete checkpoint has pending transfers. */
  ghost predicate NonePending(q: Queue) {
    forall k :: 0 <= k < |q.cps| && q.cps[k].status.Complete? ==> q.cps[k].pending == []
  }

  /** The new queue, position by position: a suffix of complete, empty checkpoints, then the
      frozen one, then the new one. */
  ghost predicate Follows(q: Queue, r: Queue, k: nat, frozen: Checkpoint, next: Checkpoint) {
    && k < |q.cps| && |r.cps| == |q.cps| + 1 - k
    && r == q.(cps := r.cps, index := q.index + 1)
    && (forall i :: 0 <= i < |r.cps| - 2 ==> r.cps[i] == q.cps[k + i])
    && r.cps[|r.cps| - 2] == frozen && r.cps[|r.cps| - 1] == next
  }

  lemma ReplacedFollows(q: Queue, sigset: SignatorySet, dep: bool, k: nat, frozen: Checkpoint, next: Checkpoint)
    requires k < |q.cps|
    ensures |Joined(q, sigset, dep, k).cps| >= 2
    ensures Follows(q, Replaced(Joined(q, sigset, dep, k), frozen, next), k, frozen, next)
  {
    JoinedEnds(q, sigset, dep, k);
  }

  ghost predicate Fits(o: Oracle, q: Queue, a: Advanced, next: Checkpoint, fees: nat) {
    && q.cps != []
    && FrozenOk(o, q.cps[|q.cps| - 1], fees, a)
    && NextOk(a, next.sigset, next) && next.sigset.index == q.index + 1
  }

  lemma FollowsShape(o: Oracle, q: Queue, r: Queue, k: nat, a: Advanced, next: Checkpoint, fees: nat)
    requires Shape(q) && !HasSigning(q) && Fits(o, q, a, next, fees) && Follows(q, r, k, a.cp, next)
    ensures Shape(r) && HasSigning(r)
  {
    UntouchedValid(a.cp);
    UntouchedValid(next);
    FollowsValid(q, r, k, a.cp, next);
    FollowsOrdered(o, q, r, k, a, next, fees);
  }

  ghost predicate CpsValid(cps: seq<Checkpoint>) {
    forall i :: 0 <= i < |cps| ==> CpValid(cps[i])
  }

  lemma FollowsValid(q: Queue, r: Queue, k: nat, frozen: Checkpoint, next: Checkpoint)
    requires CpsValid(q.cps) && CpValid(frozen) && CpValid(next) && Follows(q, r, k, frozen, next)
    ensures CpsValid(r.cps)
  {
  }

  lemma FollowsOrdered(o: Oracle, q: Queue, r: Queue, k: nat, a: Advanced, next: Checkpoint, fees: nat)
    requires Ordered(q) && !HasSigning(q) && Fits(o, q, a, next, fees) && Follows(q, r, k, a.cp, next)
    ensures Ordered(r) && HasSigning(r)
  {
    var n := |r.cps|;
    forall i | 0 <= i < n ensures r.cps[i].sigset.index == Start(r) + i && StatusFits(r.cps[i].status, i, n) {
      if i < n - 2 {
        assert StatusFits(q.cps[k + i].status, k + i, |q.cps|);
        assert q.cps[k + i].sigset.index == Start(q) + (k + i);
      } else if i == n - 2 {
        assert q.cps[|q.cps| - 1].sigset.index == Start(q) + (|q.cps| - 1);
      }
    }
  }

  lemma FollowsChain(o: Oracle, q: Queue, r: Queue, k: nat, a: Advanced, next: Checkpoint, fees: nat)
    requires Chain(o, q) && Fits(o, q, a, next, fees) && Follows(q, r, k, a.cp, next)
    ensures Chain(o, r)
  {
    var n := |r.cps|;
    forall i | 0 <= i < n - 1 ensures Linked(o, r.cps[i], r.cps[i + 1]) {
      if i < n - 2 {
        assert Linked(o, q.cps[k + i], q.cps[k + i + 1]);
      }
    }
  }

  lemma FollowsHandled(o: Oracle, q: Queue, r: Queue, k: nat, a: Advanced, next: Checkpoint)
    requires Ordered(q) && !HasSigning(q) && NonePending(q) && Follows(q, r, k, a.cp, next)
    ensures Handled(r)
    ensures forall i :: 0 <= i < k ==> q.cps[i].pending == []
  {
    forall i | 0 <= i < |q.cps| - 1 ensures q.cps[i].pending == [] {
      assert StatusFits(q.cps[i].status, i, |q.cps|);
    }
  }

  lemma FollowsBacklog(cfg: CheckpointConfig, q: Queue, r: Queue, k: nat, a: Advanced, next: Checkpoint)
    requires Ordered(q) && !HasSigning(q) && Follows(q, r, k, a.cp, next) && a.cp.status.Signing?
    requires NumUnconfirmed(q).Ok? && NumUnconfirmed(q).value < cfg.maxUnconfirmed
    ensures Backlog(r) <= cfg.maxUnconfirmed
  {
  }

  /** A pushing step keeps every queue invariant; the checkpoints it prunes hold no pending
      transfers. */
  lemma StepKeepsInv(o: Oracle, cfg: CheckpointConfig, ops: StepOps, units: nat, q: Queue, dep: bool, p: StepParts)
    requires GoodOps(o, cfg, ops) && QueueInv(o, cfg, q) && NonePending(q)
    requires StepsBy(ops, units, q, dep, p)
    ensures |Joined(q, p.sigset, dep, p.popped).cps| >= 2
    ensures var r := Replaced(Joined(q, p.sigset, dep, p.popped), p.advanced.cp, p.next);
            && QueueInv(o, cfg, r) && Follows(q, r, p.popped, p.advanced.cp, p.next)
            && Fits(o, q, p.advanced, p.next, p.fees)
            && forall i :: 0 <= i < p.popped ==> q.cps[i].pending == []
  {
    StepFits(o, cfg, ops, units, q, dep, p);
    ReplacedFollows(q, p.sigset, dep, p.popped, p.advanced.cp, p.next);
    var r := Replaced(Joined(q, p.sigset, dep, p.popped), p.advanced.cp, p.next);
    assert GuardGood(cfg, ops, q);
    FollowsShape(o, q, r, p.popped, p.advanced, p.next, p.fees);
    FollowsChain(o, q, r, p.popped, p.advanced, p.next, p.fees);
    FollowsHandled(o, q, r, p.popped, p.advanced, p.next);
    FollowsBacklog(cfg, q, r, p.popped, p.advanced, p.next);
  }

  lemma StepFits(o: Oracle, cfg: CheckpointConfig, ops: StepOps, units: nat, q: Queue, dep: bool, p: StepParts)
    requires GoodOps(o, cfg, ops) && Shape(q)
    requires StepsBy(ops, units, q, dep, p)
    ensures Fits(o, q, p.advanced, p.next, p.fees)
  {
    JoinedEnds(q, p.sigset, dep, p.popped);
    var building := q.cps[|q.cps| - 1];
    assert CpValid(building) && StatusFits(building.status, |q.cps| - 1, |q.cps|);
    BuildingUntouched(building);
    assert FreezeGood(o, ops, building, p.fees);
    assert SucceedGood(ops, p.advanced, p.sigset, dep, p.rate);
    assert GuardGood(cfg, ops, q);
  }

  /** The first checkpoint. */
  lemma FirstKeepsInv(o: Oracle, cfg: CheckpointConfig, q: Queue, sigset: SignatorySet, dep: bool)
    requires q.cps == [] && Shape(q) && sigset.index == 0
    ensures QueueInv(o, cfg, q.(cps := [NewCheckpoint(sigset, dep)]))
  {
    var first := NewCheckpoint(sigset, dep);
    UntouchedValid(first);
  }
}
