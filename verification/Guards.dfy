/** `should_push` is a sufficient guard for what follows it in `maybe_step`. */
module Guards {
  import opened Common
  import opened BitcoinTypes
  import opened Transactions
  import opened SignatorySets
  import opened Advance
  import opened CheckpointQueue
  import opened QueueInvariants
  import opened StepInvariants

  /** What the guard has established about the building checkpoint. */
  lemma GuardFacts(o: Oracle, cfg: CheckpointConfig, q: Queue, b: Block) returns (fees: nat)
    requires 1 <= |q.cps| <= q.index + 1 && ShouldPush(o, cfg, q, b) == Ok(true)
    ensures !HasSigning(q) && NumUnconfirmed(q).Ok? && NumUnconfirmed(q).value < cfg.maxUnconfirmed
    ensures CalcFee(o, cfg, q, q.index, b.commitment) == Ok(fees)
    ensures Totals(cfg, Last(q)).Ok? && Totals(cfg, Last(q)).value.1 + fees <= Totals(cfg, Last(q)).value.0
  {
    ShouldIsGood(o, cfg, q, b);
    ShouldReady(o, cfg, q, b);
    fees := ReadyFacts(o, cfg, q, b);
  }

  lemma ShouldReady(o: Oracle, cfg: CheckpointConfig, q: Queue, b: Block)
    requires q.cps != [] && ShouldPush(o, cfg, q, b) == Ok(true)
    ensures BuildingReady(o, cfg, q, b) == Ok(true)
  {
  }

  lemma ReadyFacts(o: Oracle, cfg: CheckpointConfig, q: Queue, b: Block) returns (fees: nat)
    requires 1 <= |q.cps| <= q.index + 1 && BuildingReady(o, cfg, q, b) == Ok(true)
    ensures CalcFee(o, cfg, q, q.index, b.commitment) == Ok(fees)
    ensures Totals(cfg, Last(q)).Ok? && Totals(cfg, Last(q)).value.1 + fees <= Totals(cfg, Last(q)).value.0
  {
    fees := CalcFee(o, cfg, q, q.index, b.commitment).value;
  }

  lemma FeeImpliesOutputs(o: Oracle, cfg: CheckpointConfig, q: Queue, b: Block)
    requires Ordered(q) && q.cps != [] && CalcFee(o, cfg, q, q.index, b.commitment).Ok?
    ensures AdditionalOutputs(o, Last(q).sigset, b.commitment).Ok?
  {
  }

  // ----- the fee does not change although two checkpoints are building -----

  lemma PushedCount(cfg: CheckpointConfig, q: Queue, next: Checkpoint)
    requires Ordered(q) && q.cps != [] && !HasSigning(q)
    requires NumUnconfirmed(q).Ok? && NumUnconfirmed(q).value < cfg.maxUnconfirmed
    ensures NumUnconfirmed(PushedQueue(q, next)) == Ok(NumUnconfirmed(q).value + 1)
    ensures !HasSigning(PushedQueue(q, next))
  {
    var n := |q.cps|;
    assert StatusFits(q.cps[n - 1].status, n - 1, n);
    assert PushedQueue(q, next).cps[n - 1] == q.cps[n - 1];
  }

  /** A run of complete checkpoints ends before the building one. */
  lemma {:induction false} RunStops(cps: seq<Checkpoint>, k: nat, next: Checkpoint)
    requires k < |cps| && cps[|cps| - 1].status.Building?
    ensures CompleteFrom(cps + [next], k) == CompleteFrom(cps, k)
    decreases |cps| - k
  {
    if cps[k].status.Complete? {
      RunStops(cps, k + 1, next);
    }
  }

  /** Counting from the new building checkpoint, the old one is the first to look at. */
  lemma PushedFirst(cfg: CheckpointConfig, q: Queue, next: Checkpoint) returns (i: nat)
    requires Ordered(q) && q.cps != [] && !HasSigning(q)
    requires NumUnconfirmed(q).Ok? && NumUnconfirmed(q).value < cfg.maxUnconfirmed
    requires FirstUnconfirmed(q).Ok?
    ensures i == q.index - NumUnconfirmed(q).value
    ensures FirstUnconfirmed(PushedQueue(q, next)) == Ok(Some(i))
    ensures FirstUnconfirmed(q) == Ok(if i == q.index then None else Some(i))
  {
    PushedCount(cfg, q, next);
    i := q.index - NumUnconfirmed(q).value;
  }

  lemma PushedUnconfirmed(cfg: CheckpointConfig, q: Queue, next: Checkpoint)
    requires Ordered(q) && q.cps != [] && !HasSigning(q)
    requires NumUnconfirmed(q).Ok? && NumUnconfirmed(q).value < cfg.maxUnconfirmed
    requires Unconfirmed(q).Ok?
    ensures Unconfirmed(PushedQueue(q, next)) == Unconfirmed(q)
  {
    var i := PushedFirst(cfg, q, next);
    var last := |q.cps| - 1;
    assert StatusFits(q.cps[last].status, last, |q.cps|);
    RunStops(q.cps, i - Start(q), next);
  }

  /** The fee charged after the push is the fee that was checked before it. */
  lemma FeeUnchanged(o: Oracle, cfg: CheckpointConfig, q: Queue, next: Checkpoint, commitment: Bytes)
    requires 1 <= |q.cps| <= q.index + 1
    requires Unconfirmed(PushedQueue(q, next)) == Unconfirmed(q)
    ensures CalcFee(o, cfg, PushedQueue(q, next), q.index, commitment) == CalcFee(o, cfg, q, q.index, commitment)
  {
    var j := PushedQueue(q, next);
    assert Get(j, q.index) == Get(q, q.index);
    SameFee(o, cfg, q, q.index, j, q.index, commitment);
  }

  lemma UnconfirmedKnown(o: Oracle, cfg: CheckpointConfig, q: Queue, b: Block)
    requires CalcFee(o, cfg, q, q.index, b.commitment).Ok?
    ensures Unconfirmed(q).Ok?
  {
  }

  lemma SameFee(o: Oracle, cfg: CheckpointConfig, q: Queue, i: int, q': Queue, i': int, commitment: Bytes)
    requires Get(q', i') == Get(q, i) && Unconfirmed(q') == Unconfirmed(q)
    ensures CalcFee(o, cfg, q', i', commitment) == CalcFee(o, cfg, q, i, commitment)
  {
  }

  lemma PushResult(o: Oracle, cfg: CheckpointConfig, q: Queue, b: Block, dep: bool) returns (sigset: SignatorySet)
    requires q.cps != [] && ShouldPush(o, cfg, q, b) == Ok(true)
    ensures NextSigset(o, q, b) == Ok(sigset)
    ensures MaybePush(q, Ok(sigset), dep) == Ok((PushedQueue(q, NewCheckpoint(sigset, dep)), true))
  {
    sigset := NextSigset(o, q, b).value;
  }

  /**
    If `should_push` is true on a non-empty queue then `maybe_push` pushes, the fee computed
    again on the queue with two building checkpoints is the one that was checked, and the
    reserve subtraction of `advance` cannot fail.
   */
  lemma GuardSufficient(o: Oracle, cfg: CheckpointConfig, q: Queue, b: Block, dep: bool)
    returns (sigset: SignatorySet, fees: nat)
    requires ValidConfig(cfg) && Ordered(q) && q.cps != []
    requires ShouldPush(o, cfg, q, b) == Ok(true)
    ensures NextSigset(o, q, b) == Ok(sigset)
    ensures MaybePush(q, Ok(sigset), dep) == Ok((PushedQueue(q, NewCheckpoint(sigset, dep)), true))
    ensures CalcFee(o, cfg, q, q.index, b.commitment) == Ok(fees)
    ensures CalcFee(o, cfg, PushedQueue(q, NewCheckpoint(sigset, dep)), q.index, b.commitment) == Ok(fees)
    ensures Freeze(o, cfg, Last(q), b.commitment, fees).Ok?
  {
    sigset := PushResult(o, cfg, q, b, dep);
    fees := GuardFacts(o, cfg, q, b);
    UnconfirmedKnown(o, cfg, q, b);
    PushedUnconfirmed(cfg, q, NewCheckpoint(sigset, dep));
    FeeUnchanged(o, cfg, q, NewCheckpoint(sigset, dep), b.commitment);
    FeeImpliesOutputs(o, cfg, q, b);
    FreezeSucceeds(o, cfg, Last(q), b.commitment, fees);
  }

  // ----- the fee after pruning -----

  lemma {:induction false} CompleteSuffix(cps: seq<Checkpoint>, k: nat, x: nat)
    requires k + x <= |cps|
    ensures CompleteFrom(Suffix(cps, k), x) == CompleteFrom(cps, k + x)
    decreases |cps| - k - x
  {
    if k + x < |cps| {
      CompleteSuffix(cps, k, x + 1);
    }
  }

  /** The unconfirmed run of the queue after pruning, read in the queue before the push. */
  lemma JoinedRun(q: Queue, sigset: SignatorySet, dep: bool, k: nat, x: nat)
    requires Ordered(q) && k + x < |q.cps|
    ensures CompleteFrom(Joined(q, sigset, dep, k).cps, x) == CompleteFrom(q.cps, k + x)
  {
    var next := NewCheckpoint(sigset, dep);
    assert StatusFits(q.cps[|q.cps| - 1].status, |q.cps| - 1, |q.cps|);
    CompleteSuffix(q.cps + [next], k, x);
    RunStops(q.cps, k + x, next);
  }

  /** The unconfirmed count and the first unconfirmed index after push and prune. */
  lemma JoinedFirst(q: Queue, sigset: SignatorySet, dep: bool, k: nat)
    requires Ordered(q) && k < |q.cps|
    ensures FirstUnconfirmed(Joined(q, sigset, dep, k))
         == Ok(Some(if q.confirmed.Some? then q.confirmed.value + 1 else Start(q) + k))
  {
    JoinedEnds(q, sigset, dep, k);
    assert StatusFits(q.cps[|q.cps| - 1].status, |q.cps| - 1, |q.cps|);
  }

  lemma OldFirst(q: Queue)
    requires Ordered(q) && !HasSigning(q) && q.cps != [] && q.confirmed.Some?
    ensures FirstUnconfirmed(q) == Ok(if q.confirmed.value + 1 == q.index then None else Some(q.confirmed.value + 1))
  {
  }

  /** The unconfirmed view after push and prune, read before them: with checkpoint `c` confirmed
      it is the old one, but fails when something above `c` is pruned; with none confirmed it is
      what the prune leaves. */
  function ViewAfter(q: Queue, k: nat): Result<seq<Checkpoint>> {
    match q.confirmed
    case None => Ok(CompleteFrom(q.cps, k))
    case Some(c) => if Start(q) + k <= c + 1 then Unconfirmed(q) else Err(OutOfBounds)
  }

  lemma JoinedView(q: Queue, sigset: SignatorySet, dep: bool, k: nat)
    requires Ordered(q) && !HasSigning(q) && k < |q.cps|
    ensures Unconfirmed(Joined(q, sigset, dep, k)) == ViewAfter(q, k)
  {
    var j := Joined(q, sigset, dep, k);
    JoinedFirst(q, sigset, dep, k);
    if q.confirmed.None? {
      JoinedRun(q, sigset, dep, k, 0);
    } else {
      JoinedKept(q, sigset, dep, k);
    }
  }

  lemma JoinedKept(q: Queue, sigset: SignatorySet, dep: bool, k: nat)
    requires Ordered(q) && !HasSigning(q) && k < |q.cps| && q.confirmed.Some?
    ensures Unconfirmed(Joined(q, sigset, dep, k)) == ViewAfter(q, k)
  {
    var c, j := q.confirmed.value, Joined(q, sigset, dep, k);
    JoinedFirst(q, sigset, dep, k);
    OldFirst(q);
    if Start(q) + k <= c + 1 {
      JoinedRun(q, sigset, dep, k, c + 1 - Start(j));
      assert StatusFits(q.cps[|q.cps| - 1].status, |q.cps| - 1, |q.cps|);
    }
  }

  lemma JoinedGet(q: Queue, sigset: SignatorySet, dep: bool, k: nat)
    requires 1 <= |q.cps| <= q.index + 1 && k < |q.cps|
    ensures Get(Joined(q, sigset, dep, k), q.index) == Get(q, q.index) == Ok(Last(q))
  {
    JoinedEnds(q, sigset, dep, k);
  }

  /** The fee of a checkpoint over a given unconfirmed view. */
  function ViewFee(o: Oracle, cfg: CheckpointConfig, cp: Checkpoint, view: seq<Checkpoint>, commitment: Bytes)
    : Result<nat>
  {
    var extra :- FeeAdjustment(o, cfg, view, cp.feeRate);
    var base :- BaseFee(o, cfg, cp, commitment);
    Checked(base + extra)
  }

  lemma FeeOfView(o: Oracle, cfg: CheckpointConfig, q: Queue, i: int, commitment: Bytes)
    requires Get(q, i).Ok?
    ensures CalcFee(o, cfg, q, i, commitment)
         == match Unconfirmed(q)
            case Err(e) => Err(e)
            case Ok(view) => ViewFee(o, cfg, Get(q, i).value, view, commitment)
  {
  }

  /**
    The fee charged after push and prune, read before them. With checkpoint `c` confirmed it is
    the fee that was checked exactly when the prune pops nothing above `c`, and otherwise cannot
    be computed; with none confirmed it is the fee over what the prune leaves.
   */
  lemma JoinedFee(o: Oracle, cfg: CheckpointConfig, q: Queue, sigset: SignatorySet, dep: bool, k: nat, commitment: Bytes)
    requires Ordered(q) && !HasSigning(q) && k < |q.cps|
    ensures CalcFee(o, cfg, Joined(q, sigset, dep, k), q.index, commitment)
         == match q.confirmed
            case None => ViewFee(o, cfg, Last(q), CompleteFrom(q.cps, k), commitment)
            case Some(c) =>
              if Start(q) + k <= c + 1 then CalcFee(o, cfg, q, q.index, commitment) else Err(OutOfBounds)
  {
    JoinedView(q, sigset, dep, k);
    JoinedGet(q, sigset, dep, k);
    FeeOfView(o, cfg, Joined(q, sigset, dep, k), q.index, commitment);
    FeeOfView(o, cfg, q, q.index, commitment);
  }

  /** A fee computed after the prune shows that nothing above the confirmed index was pruned. */
  lemma FeeNeedsRetained(o: Oracle, cfg: CheckpointConfig, q: Queue, sigset: SignatorySet, dep: bool, k: nat,
                         commitment: Bytes)
    requires Ordered(q) && k < |q.cps| && CalcFee(o, cfg, Joined(q, sigset, dep, k), q.index, commitment).Ok?
    ensures q.confirmed.Some? ==> Start(q) + k <= q.confirmed.value + 1
  {
    if q.confirmed.Some? {
      ViewNeedsRetained(q, sigset, dep, k);
    }
  }

  lemma ViewNeedsRetained(q: Queue, sigset: SignatorySet, dep: bool, k: nat)
    requires Ordered(q) && k < |q.cps| && Unconfirmed(Joined(q, sigset, dep, k)).Ok? && q.confirmed.Some?
    ensures Start(q) + k <= q.confirmed.value + 1
  {
    JoinedEnds(q, sigset, dep, k);
    assert StatusFits(q.cps[|q.cps| - 1].status, |q.cps| - 1, |q.cps|);
  }

  /** The kept inputs of a checkpoint cover its kept outputs and the fee. */
  predicate Covers(cfg: CheckpointConfig, cp: Checkpoint, fees: nat)
    requires cfg.maxOutputs >= 2
  {
    Sum(Take(Tx(cp).output, cfg.maxOutputs - 2), Value) + fees <= Sum(Take(Tx(cp).input, cfg.maxInputs), Amount)
  }

  /** The reserve subtraction of `advance` succeeds exactly when the inputs cover it. */
  lemma FreezeIffCovers(o: Oracle, cfg: CheckpointConfig, cp: Checkpoint, commitment: Bytes, fees: nat)
    requires cfg.maxOutputs >= 2 && AdditionalOutputs(o, cp.sigset, commitment).Ok? && Totals(cfg, cp).Ok?
    ensures Freeze(o, cfg, cp, commitment, fees).Ok? <==> Covers(cfg, cp, fees)
  {
    var outs := AdditionalOutputs(o, cp.sigset, commitment).value;
    var output := Tx(cp).output;
    var rest, all := Take(output, cfg.maxOutputs - 2), Take(output, cfg.maxOutputs);
    assert Take(outs + output, cfg.maxOutputs) == outs + rest;
    SumConcat(outs, rest, Value);
    SumPair(outs);
    assert rest == all[..|rest|];
    SumPrefix(all, |rest|, Value);
  }

  /** A step that should push fails when the fee or the freeze after the prune does. */
  lemma StepFails(ops: StepOps, maxAge: nat, units: nat, q: Queue, feePool: int, dep: bool, sigset: SignatorySet, k: nat)
    requires 1 <= |q.cps| <= q.index + 1 && k < |q.cps|
    requires ops.should(q) == Ok(true) && ops.sigset(q) == Ok(sigset) && Usable(sigset)
    requires Prune(maxAge, PushedQueue(q, NewCheckpoint(sigset, dep))) == Ok(Joined(q, sigset, dep, k))
    requires var fee := ops.fee(Joined(q, sigset, dep, k)); fee.Err? || ops.freeze(Last(q), fee.value).Err?
    ensures StepWith(ops, maxAge, units, q, feePool, dep).Err?
  {
    var j := Joined(q, sigset, dep, k);
    JoinedGet(q, sigset, dep, k);
    assert Get(j, j.index - 1) == Ok(Last(q));
    assert Handover(ops, units, j, feePool).Err?;
  }

  lemma PushUsable(o: Oracle, cfg: CheckpointConfig, q: Queue, b: Block, sigset: SignatorySet)
    requires ShouldPush(o, cfg, q, b) == Ok(true) && NextSigset(o, q, b) == Ok(sigset)
    ensures Usable(sigset)
  {
  }

  lemma DueStepFails(o: Oracle, cfg: CheckpointConfig, units: nat, q: Queue, feePool: int, b: Block, dep: bool,
                     sigset: SignatorySet, k: nat)
    requires 1 <= |q.cps| <= q.index + 1 && k < |q.cps|
    requires ShouldPush(o, cfg, q, b) == Ok(true) && NextSigset(o, q, b) == Ok(sigset)
    requires Prune(cfg.maxAge, PushedQueue(q, NewCheckpoint(sigset, dep))) == Ok(Joined(q, sigset, dep, k))
    requires var fee := CalcFee(o, cfg, Joined(q, sigset, dep, k), q.index, b.commitment);
             fee.Err? || Freeze(o, cfg, Last(q), b.commitment, fee.value).Err?
    ensures MaybeStep(o, cfg, units, q, feePool, b, dep).Err?
  {
    var ops, j := OpsFor(o, cfg, b), Joined(q, sigset, dep, k);
    PushUsable(o, cfg, q, b, sigset);
    OpsAre(o, cfg, b, ops);
    assert ops.fee(j) == CalcFee(o, cfg, j, j.index - 1, b.commitment);
    StepFails(ops, cfg.maxAge, units, q, feePool, dep, sigset, k);
  }

  /**
    A due step and its prune. The fee after the prune is `JoinedFee`; with that fee the reserve
    subtraction succeeds exactly when the inputs cover outputs and fee, which the guard ensures
    for the fee it checked. When there is no such fee or it is not covered, the step fails.
   */
  lemma PruneDecides(o: Oracle, cfg: CheckpointConfig, units: nat, q: Queue, feePool: int, b: Block, dep: bool,
                     sigset: SignatorySet, k: nat)
    requires ValidConfig(cfg) && Ordered(q) && k < |q.cps|
    requires ShouldPush(o, cfg, q, b) == Ok(true) && NextSigset(o, q, b) == Ok(sigset)
    requires Prune(cfg.maxAge, PushedQueue(q, NewCheckpoint(sigset, dep))) == Ok(Joined(q, sigset, dep, k))
    ensures var fee := CalcFee(o, cfg, Joined(q, sigset, dep, k), q.index, b.commitment);
            && (fee.Ok? ==> (Freeze(o, cfg, Last(q), b.commitment, fee.value).Ok? <==> Covers(cfg, Last(q), fee.value)))
            && (fee.Ok? && fee.value <= CalcFee(o, cfg, q, q.index, b.commitment).value ==> Covers(cfg, Last(q), fee.value))
            && (fee.Err? || !Covers(cfg, Last(q), fee.value) ==> MaybeStep(o, cfg, units, q, feePool, b, dep).Err?)
    ensures CalcFee(o, cfg, q, q.index, b.commitment).Ok?
  {
    var fees := GuardFacts(o, cfg, q, b);
    var fee := CalcFee(o, cfg, Joined(q, sigset, dep, k), q.index, b.commitment);
    FeeImpliesOutputs(o, cfg, q, b);
    if fee.Ok? {
      FreezeIffCovers(o, cfg, Last(q), b.commitment, fee.value);
      if fee.value <= fees {
        FreezeSucceeds(o, cfg, Last(q), b.commitment, fee.value);
      }
    }
    if fee.Err? || !Covers(cfg, Last(q), fee.value) {
      DueStepFails(o, cfg, units, q, feePool, b, dep, sigset, k);
    }
  }

  // ----- when a checkpoint is due -----

  /** At least half of the possible power is present, rounded down, and some is possible. */
  predicate HalfPresent(s: SignatorySet) {
    s.possibleVp > 0 && 2 * s.presentVp + 1 >= s.possibleVp
  }

  lemma UsableMeans(s: SignatorySet)
    ensures Usable(s) <==> HalfPresent(s)
  {
  }

  /** Before the maximum interval, and on checkpoint 0, there has to be something to do, and the
      collected fees have to cover the miner fee. */
  predicate WorthIt(cfg: CheckpointConfig, q: Queue, b: Block, cp: Checkpoint, fee: nat) {
    b.now < cp.sigset.createTime + cfg.maxInterval || q.index == 0 ==>
      && (|Tx(cp).input| > (if q.index == 0 then 0 else 1) || |Tx(cp).output| > 0 || |cp.pending| > 0)
      && cp.feesCollected >= fee
  }

  /** The inputs that fit cover the outputs that fit and the fee, all in machine words. */
  predicate Affords(cfg: CheckpointConfig, cp: Checkpoint, fee: nat) {
    var ins, outs := Sum(Take(Tx(cp).input, cfg.maxInputs), Amount), Sum(Take(Tx(cp).output, cfg.maxOutputs), Value);
    outs + fee <= ins < U64
  }

  /** The building checkpoint is old enough, the light client has caught up with the last completed
      one, there is enough to do, and the fee is covered. */
  ghost predicate BuildingDue(o: Oracle, cfg: CheckpointConfig, q: Queue, b: Block)
    requires q.cps != []
  {
    var n := |q.cps|;
    var cp, fee := q.cps[n - 1], CalcFee(o, cfg, q, q.index, b.commitment);
    && b.now >= cp.sigset.createTime + cfg.minInterval
    && (n >= 2 ==> b.btcHeight >= SignedAt(q.cps[n - 2]))
    && fee.Ok? && WorthIt(cfg, q, b, cp, fee.value) && Affords(cfg, cp, fee.value)
  }

  lemma TotalsMean(cfg: CheckpointConfig, cp: Checkpoint, fee: nat)
    ensures (Totals(cfg, cp).Ok? && Totals(cfg, cp).value.1 + fee < U64
             && Totals(cfg, cp).value.0 >= Totals(cfg, cp).value.1 + fee) <==> Affords(cfg, cp, fee)
  {
    SumNonNegative(Take(Tx(cp).input, cfg.maxInputs), Amount);
    SumNonNegative(Take(Tx(cp).output, cfg.maxOutputs), Value);
  }

  lemma BackfillMeans(q: Queue, btcHeight: nat)
    requires Ordered(q) && q.cps != [] && !HasSigning(q)
    ensures Backfilling(q, btcHeight) == Ok(|q.cps| >= 2 && btcHeight < SignedAt(q.cps[|q.cps| - 2]))
  {
    assert q.index >= 1 ==> Get(q, q.index - 1) == Ok(q.cps[|q.cps| - 2]);
  }

  lemma ReadyMeans(o: Oracle, cfg: CheckpointConfig, q: Queue, b: Block)
    requires Ordered(q) && q.cps != [] && !HasSigning(q)
    ensures BuildingReady(o, cfg, q, b) == Ok(true) <==> BuildingDue(o, cfg, q, b)
  {
    BackfillMeans(q, b.btcHeight);
    assert Get(q, q.index) == Ok(q.cps[|q.cps| - 1]);
    var fee := CalcFee(o, cfg, q, q.index, b.commitment);
    if fee.Ok? {
      TotalsMean(cfg, q.cps[|q.cps| - 1], fee.value);
    }
  }

  /** Completed but unconfirmed checkpoints of a queue in which none is being signed. */
  function Unanswered(q: Queue): int {
    match q.confirmed
    case None => |q.cps| - 1
    case Some(c) => q.index - 1 - c
  }

  /** The set of a checkpoint pushed now can be built and has enough power present. */
  ghost predicate SetReady(o: Oracle, b: Block, index: nat) {
    var s := FromValidators(o, b.ctx, b.now, index);
    s.Ok? && HalfPresent(s.value)
  }

  lemma ShouldUnfolds(o: Oracle, cfg: CheckpointConfig, q: Queue, b: Block)
    requires q.cps != []
    ensures ShouldPush(o, cfg, q, b) == Ok(true) <==>
              && !HasSigning(q) && BuildingReady(o, cfg, q, b) == Ok(true)
              && NumUnconfirmed(q).Ok? && NumUnconfirmed(q).value < cfg.maxUnconfirmed
              && NextSigset(o, q, b).Ok? && Usable(NextSigset(o, q, b).value)
  {
  }

  lemma CountMeans(q: Queue)
    requires Ordered(q) && q.cps != [] && !HasSigning(q)
    ensures NumUnconfirmed(q) == Ok(Unanswered(q))
  {
    NumUnconfirmedIsBacklog(q);
  }

  lemma SetMeans(o: Oracle, q: Queue, b: Block)
    requires q.cps != []
    ensures NextSigset(o, q, b).Ok? && Usable(NextSigset(o, q, b).value) <==> SetReady(o, b, q.index + 1)
  {
    var s := FromValidators(o, b.ctx, b.now, q.index + 1);
    if s.Ok? {
      UsableMeans(s.value);
    }
  }

  /**
    Exactly when a push is due on a non-empty queue: no checkpoint is being signed, the building
    one is due, fewer than the maximum are unconfirmed, and the next set is ready.
   */
  lemma PushIsDue(o: Oracle, cfg: CheckpointConfig, q: Queue, b: Block)
    requires Ordered(q) && q.cps != []
    ensures ShouldPush(o, cfg, q, b) == Ok(true) <==>
              && (|q.cps| >= 2 ==> !q.cps[|q.cps| - 2].status.Signing?)
              && BuildingDue(o, cfg, q, b) && Unanswered(q) < cfg.maxUnconfirmed && SetReady(o, b, q.index + 1)
  {
    ShouldUnfolds(o, cfg, q, b);
    SetMeans(o, q, b);
    if !HasSigning(q) {
      ReadyMeans(o, cfg, q, b);
      CountMeans(q);
    }
  }

  /** On the empty queue only the set and the maximum count. */
  lemma FirstIsDue(o: Oracle, cfg: CheckpointConfig, q: Queue, b: Block)
    requires Ordered(q) && q.cps == []
    ensures ShouldPush(o, cfg, q, b) == Ok(true) <==> cfg.maxUnconfirmed > 0 && SetReady(o, b, 0)
  {
    var s := FromValidators(o, b.ctx, b.now, 0);
    if s.Ok? {
      UsableMeans(s.value);
    }
  }

  // ----- fee rates -----

  /** `r` is the rate between the bounds that is nearest to `x`. */
  predicate Nearest(cfg: CheckpointConfig, r: nat, x: int) {
    cfg.minFeeRate <= r <= cfg.maxFeeRate && (r < x ==> r == cfg.maxFeeRate) && (r > x ==> r == cfg.minFeeRate)
  }

  function AtLeastOne(x: int): int {
    if x < 1 then 1 else x
  }

  /** An adjusted rate moves by a quarter of what it was, up by the quarter rounded down and down by
      the quarter rounded up, by one at least, as far as the bounds let it. */
  lemma AdjustBounds(prev: nat, up: bool, cfg: CheckpointConfig, r: nat)
    requires cfg.minFeeRate <= cfg.maxFeeRate && AdjustFeeRate(prev, up, cfg) == Ok(r)
    ensures Nearest(cfg, r, if up then prev + AtLeastOne(prev / 4) else prev - AtLeastOne((prev + 3) / 4))
    ensures cfg.minFeeRate <= prev <= cfg.maxFeeRate ==>
              if up then prev <= r && (r == prev <==> prev == cfg.maxFeeRate)
              else r <= prev && (r == prev <==> prev == cfg.minFeeRate)
  {
  }

  /** Position of the last completed checkpoint of a queue. */
  function Newest(q: Queue): int {
    |q.cps| - if |q.cps| >= 2 && q.cps[|q.cps| - 2].status.Signing? then 3 else 2
  }

  /** Position of the first checkpoint after the confirmed index. */
  function Oldest(q: Queue): int {
    match q.confirmed
    case None => 0
    case Some(c) => c + |q.cps| - q.index
  }

  /** Miners left the oldest unconfirmed checkpoint out for long enough, and a block was mined
      since the newest one was signed. */
  predicate Overdue(cfg: CheckpointConfig, q: Queue, btcHeight: nat) {
    && 0 <= Oldest(q) <= Newest(q)
    && btcHeight - SignedAt(q.cps[Oldest(q)]) >= cfg.targetInclusion && btcHeight > SignedAt(q.cps[Newest(q)])
  }

  /** Every completed checkpoint is confirmed, and there is one. */
  predicate CaughtUp(q: Queue) {
    Oldest(q) > Newest(q) && q.index >= 1 + (if |q.cps| >= 2 && q.cps[|q.cps| - 2].status.Signing? then 1 else 0)
  }

  lemma FirstUnconfirmedAt(q: Queue)
    requires 1 <= |q.cps| <= q.index + 1 && FirstUnconfirmed(q).Ok?
    ensures FirstUnconfirmed(q) == Ok(if Oldest(q) <= Newest(q) then Some(Oldest(q) + Start(q)) else None)
  {
  }

  /** How the fee rate of a checkpoint follows from the one before it: up when a checkpoint is
      overdue, down when every completed one is confirmed, and otherwise the same. */
  predicate RateFollows(cfg: CheckpointConfig, q: Queue, prev: nat, btcHeight: nat, r: nat) {
    if Overdue(cfg, q, btcHeight) then Nearest(cfg, r, prev + AtLeastOne(prev / 4))
    else if CaughtUp(q) then Nearest(cfg, r, prev - AtLeastOne((prev + 3) / 4))
    else r == prev
  }

  lemma RateMoves(cfg: CheckpointConfig, q: Queue, prev: nat, btcHeight: nat, r: nat)
    requires cfg.minFeeRate <= cfg.maxFeeRate && 1 <= |q.cps| <= q.index + 1
    requires NextFeeRate(cfg, q, prev, btcHeight) == Ok(r)
    ensures RateFollows(cfg, q, prev, btcHeight, r)
  {
    FirstUnconfirmedAt(q);
    if AdjustFeeRate(prev, true, cfg).Ok? {
      AdjustBounds(prev, true, cfg, AdjustFeeRate(prev, true, cfg).value);
    }
    if AdjustFeeRate(prev, false, cfg).Ok? {
      AdjustBounds(prev, false, cfg, AdjustFeeRate(prev, false, cfg).value);
    }
  }

  // ----- pruning -----

  /** Exactly the leading checkpoints older than the maximum age are pruned, as long as more
      than ten are left. */
  lemma {:induction false} PruneExact(cps: seq<Checkpoint>, k: nat, latest: nat, maxAge: nat, r: nat)
    requires k <= |cps| && PruneCount(cps, k, latest, maxAge) == Ok(r)
    ensures k <= r <= |cps|
    ensures forall i :: k <= i < r ==> latest - cps[i].sigset.createTime > maxAge && |cps| - i > 10
    ensures |cps| - r <= 10 || latest - cps[r].sigset.createTime <= maxAge
    decreases |cps| - k
  {
    if |cps| - k > MIN_CHECKPOINTS && latest - cps[k].sigset.createTime > maxAge {
      PruneExact(cps, k + 1, latest, maxAge, r);
    }
  }
}
