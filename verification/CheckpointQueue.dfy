/**
  `CheckpointQueue`: the chain of checkpoints as a state machine. `Queue` holds the
  checkpoints oldest first, so a write replaces the checkpoint at its logical position;
  the module `BridgeContract` relates this to the stored deque.
 */
module CheckpointQueue {
  import opened Common
  import opened BitcoinTypes
  import opened Transactions
  import opened SignatorySets
  import opened Advance
  import TS = ThresholdSigs
  import Signing

  const MIN_CHECKPOINTS: nat := 10

  datatype Queue = Queue(
    cps: seq<Checkpoint>,
    index: nat,
    confirmed: Option<nat>,
    firstUnhandled: nat)

  const EMPTY_QUEUE := Queue([], 0, None, 0)

  /** What a block contributes to a step: its time, the Bitcoin height of the light
      client, the validator set, and the data to timestamp. */
  datatype Block = Block(now: nat, btcHeight: nat, ctx: ValidatorCtx, commitment: Bytes)

  // ----- access by checkpoint index -----

  /** Index of the oldest checkpoint. */
  function Start(q: Queue): int {
    q.index + 1 - |q.cps|
  }

  predicate InRange(q: Queue, i: int) {
    0 <= Start(q) <= i <= q.index
  }

  function Get(q: Queue, i: int): (r: Result<Checkpoint>)
    ensures r.Ok? <==> InRange(q, i)
    ensures r.Ok? ==> r.value == q.cps[i - Start(q)]
  {
    if InRange(q, i) then Ok(q.cps[i - Start(q)]) else Err(OutOfBounds)
  }

  function Put(q: Queue, i: int, cp: Checkpoint): (r: Result<Queue>)
    ensures r.Ok? <==> InRange(q, i)
    ensures r.Ok? ==> r.value == q.(cps := q.cps[i - Start(q) := cp])
  {
    if InRange(q, i) then Ok(q.(cps := q.cps[i - Start(q) := cp])) else Err(OutOfBounds)
  }

  /** A write succeeds exactly where a read does; it is read back at its index, and nothing else
      is read differently. */
  lemma PutThenGet(q: Queue, i: int, cp: Checkpoint, j: int)
    ensures Put(q, i, cp).Ok? <==> Get(q, i).Ok?
    ensures Put(q, i, cp).Ok? ==> Get(Put(q, i, cp).value, j) == if j == i then Ok(cp) else Get(q, j)
  {
  }

  predicate HasSigning(q: Queue) {
    |q.cps| >= 2 && q.cps[|q.cps| - 2].status.Signing?
  }

  function SigningOffset(q: Queue): nat {
    if HasSigning(q) then 1 else 0
  }

  function LastCompletedIndex(q: Queue): (r: Result<nat>)
    ensures r.Err? ==> r.error == NoCompleted
  {
    if q.index >= 1 + SigningOffset(q) then Ok(q.index - 1 - SigningOffset(q)) else Err(NoCompleted)
  }

  function NumUnconfirmed(q: Queue): Result<nat> {
    match LastCompletedIndex(q)
    case Err(_) => Ok(0)
    case Ok(last) =>
      match q.confirmed
      case None => Minus(|q.cps| - 1, SigningOffset(q))
      case Some(c) => Minus(last, c)
  }

  function FirstUnconfirmed(q: Queue): Result<Option<nat>> {
    var n :- NumUnconfirmed(q);
    if n == 0 then Ok(None) else
    var i :- Minus(q.index, n + SigningOffset(q));
    Ok(Some(i))
  }

  /** The longest run of complete checkpoints from position `k` on. */
  function CompleteFrom(cps: seq<Checkpoint>, k: nat): seq<Checkpoint>
    decreases |cps| - k
  {
    if k >= |cps| || !cps[k].status.Complete? then [] else [cps[k]] + CompleteFrom(cps, k + 1)
  }

  function Unconfirmed(q: Queue): Result<seq<Checkpoint>> {
    var first :- FirstUnconfirmed(q);
    match first
    case None => Ok([])
    case Some(i) => if InRange(q, i) then Ok(CompleteFrom(q.cps, i - Start(q))) else Err(OutOfBounds)
  }

  // ----- fees -----

  function FeesPaid(cps: seq<Checkpoint>): Result<nat> {
    if cps == [] then Ok(0) else
    var front :- FeesPaid(cps[..|cps| - 1]);
    var fee :- MinerFees(cps[|cps| - 1]);
    Checked(front + fee)
  }

  const ZERO_COMMITMENT: Bytes := [
    0, 0, 0, 0, 0, 0, 0, 0, 0, 0, 0, 0, 0, 0, 0, 0, 0, 0, 0, 0, 0, 0, 0, 0, 0, 0, 0, 0, 0, 0, 0, 0]

  function Vbytes(o: Oracle, cfg: CheckpointConfig, cps: seq<Checkpoint>): Result<nat> {
    if cps == [] then Ok(0) else
    var front :- Vbytes(o, cfg, cps[..|cps| - 1]);
    var size :- EstVsize(o, cfg, cps[|cps| - 1], ZERO_COMMITMENT);
    Checked(front + size)
  }

  /** What is missing for the unconfirmed checkpoints to have paid the given rate. */
  function FeeAdjustment(o: Oracle, cfg: CheckpointConfig, unconfirmed: seq<Checkpoint>, rate: nat): Result<nat> {
    var paid :- FeesPaid(unconfirmed);
    var vbytes :- Vbytes(o, cfg, unconfirmed);
    var want :- Checked(vbytes * rate);
    Ok(SatSub(want, paid))
  }

  /** `calc_fee_checkpoint`: the miner fee to charge for checkpoint `i`. */
  function CalcFee(o: Oracle, cfg: CheckpointConfig, q: Queue, i: int, commitment: Bytes): Result<nat> {
    var cp :- Get(q, i);
    var unconfirmed :- Unconfirmed(q);
    var extra :- FeeAdjustment(o, cfg, unconfirmed, cp.feeRate);
    var base :- BaseFee(o, cfg, cp, commitment);
    Checked(base + extra)
  }

  /** Up or down by a quarter, at least by one, within the configured bounds. */
  function AdjustFeeRate(prev: nat, up: bool, cfg: CheckpointConfig): Result<nat> {
    if up then
      var quarter :- Checked(prev * 5);
      var next := if quarter / 4 > prev + 1 then quarter / 4 else prev + 1;
      Ok(Clamp(next, cfg.minFeeRate, cfg.maxFeeRate))
    else
      var one :- Checked(prev - 1);
      var next := if prev * 3 / 4 < one then prev * 3 / 4 else one;
      Ok(Clamp(next, cfg.minFeeRate, cfg.maxFeeRate))
  }

  function SignedAt(cp: Checkpoint): nat {
    if cp.signedAtBtcHeight.Some? then cp.signedAtBtcHeight.value else 0
  }

  /** The fee rate of the next checkpoint, raised when miners left signed ones out. */
  function NextFeeRate(cfg: CheckpointConfig, q: Queue, prev: nat, btcHeight: nat): Result<nat> {
    var first :- FirstUnconfirmed(q);
    match first
    case None =>
      if LastCompletedIndex(q).Ok? then AdjustFeeRate(prev, false, cfg) else Ok(prev)
    case Some(i) =>
      var oldest :- Get(q, i);
      var sinceFirst :- Checked(btcHeight - SignedAt(oldest));
      var last :- LastCompletedIndex(q);
      var newest :- Get(q, last);
      var sinceLast :- Checked(btcHeight - SignedAt(newest));
      if sinceFirst >= cfg.targetInclusion && sinceLast > 0
      then AdjustFeeRate(prev, true, cfg)
      else Ok(prev)
  }

  // ----- should_push, maybe_push, prune -----

  /** Whether the deposits, withdrawals and transfers of a building checkpoint make it
      worth pushing before the maximum interval has elapsed. */
  predicate HasWork(q: Queue, building: Checkpoint) {
    || |Tx(building).input| > (if q.index == 0 then 0 else 1)
    || Tx(building).output != []
    || building.pending != []
  }

  /** The part of `should_push` that looks at the building checkpoint. */
  function BuildingReady(o: Oracle, cfg: CheckpointConfig, q: Queue, b: Block): Result<bool> {
    var building :- Get(q, q.index);
    var elapsed :- Minus(b.now, building.sigset.createTime);
    if elapsed < cfg.minInterval then Ok(false) else
    var backfilling :- Backfilling(q, b.btcHeight);
    if backfilling then Ok(false) else
    var fees :- CalcFee(o, cfg, q, q.index, b.commitment);
    if (elapsed < cfg.maxInterval || q.index == 0) && (!HasWork(q, building) || building.feesCollected < fees)
    then Ok(false)
    else
      var totals :- Totals(cfg, building);
      var due :- Checked(totals.1 + fees);
      Ok(totals.0 >= due)
  }

  function Ready(o: Oracle, cfg: CheckpointConfig, q: Queue, b: Block): Result<bool> {
    if q.cps == [] then Ok(true) else BuildingReady(o, cfg, q, b)
  }

  function Backfilling(q: Queue, btcHeight: nat): Result<bool> {
    match LastCompletedIndex(q)
    case Err(_) => Ok(false)
    case Ok(last) =>
      var cp :- Get(q, last);
      Ok(btcHeight < SignedAt(cp))
  }

  function NextIndex(q: Queue): nat {
    if q.cps == [] then q.index else q.index + 1
  }

  predicate Usable(sigset: SignatorySet) {
    sigset.possibleVp != 0 && HasQuorum(sigset)
  }

  function ShouldPush(o: Oracle, cfg: CheckpointConfig, q: Queue, b: Block): Result<bool> {
    if HasSigning(q) then Ok(false) else
    var ready :- Ready(o, cfg, q, b);
    if !ready then Ok(false) else
    var unconfirmed :- NumUnconfirmed(q);
    if unconfirmed >= cfg.maxUnconfirmed then Ok(false) else
    var sigset :- NextSigset(o, q, b);
    Ok(Usable(sigset))
  }

  /** The signatory set of a checkpoint pushed now. */
  function NextSigset(o: Oracle, q: Queue, b: Block): Result<SignatorySet> {
    FromValidators(o, b.ctx, b.now, NextIndex(q))
  }

  /** `maybe_push`: the queue with a new building checkpoint, if the signatory set is usable.
      The index moves before that is known; the new checkpoint is read back by its index. */
  function MaybePush(q: Queue, candidate: Result<SignatorySet>, depositsEnabled: bool): Result<(Queue, bool)> {
    var sigset :- candidate;
    var q' := q.(index := NextIndex(q));
    if !Usable(sigset) then Ok((q', false))
    else if |q.cps| > NextIndex(q) then Err(OutOfBounds)
    else Ok((q'.(cps := q.cps + [NewCheckpoint(sigset, depositsEnabled)]), true))
  }

  /** How many of the oldest checkpoints to pop, `k` of them being gone already. */
  function PruneCount(cps: seq<Checkpoint>, k: nat, latest: nat, maxAge: nat): (r: Result<nat>)
    requires k <= |cps|
    ensures r.Ok? ==> k <= r.value <= |cps|
    ensures r.Ok? && r.value > k ==> |cps| - r.value >= 10
    decreases |cps| - k
  {
    if |cps| - k <= MIN_CHECKPOINTS then Ok(k) else
    var age :- Minus(latest, cps[k].sigset.createTime);
    if age <= maxAge then Ok(k) else PruneCount(cps, k + 1, latest, maxAge)
  }

  function Prune(maxAge: nat, q: Queue): Result<Queue> {
    var building :- Get(q, q.index);
    var k :- PruneCount(q.cps, 0, building.sigset.createTime, maxAge);
    Ok(q.(cps := Suffix(q.cps, k)))
  }

  // ----- maybe_step -----

  /** Excess inputs enter the next checkpoint with a fresh signing state. */
  function Refresh(ins: seq<Input>, n: nat): Result<seq<Input>>
    requires n <= |ins|
  {
    if n == 0 then Ok([]) else
    var front :- Refresh(ins, n - 1);
    var ts :- TS.Fresh(ins[n - 1].signatures.sigs);
    Ok(front + [ins[n - 1].(signatures := ts)])
  }

  /** The new building checkpoint: the reserve input first, then what did not fit before. */
  function Succeed(o: Oracle, a: Advanced, building: Checkpoint, rate: nat): Result<Checkpoint> {
    var reserve :- NewInput(o, a.reserveOutpoint, a.cp.sigset, [0], a.reserveValue);
    var excess :- Refresh(a.excessInputs, |a.excessInputs|);
    var tx := Tx(building);
    Ok(WithTx(building.(feeRate := rate),
              tx.(input := tx.input + [reserve] + excess, output := tx.output + a.excessOutputs)))
  }

  /** The computations a step is put together from. */
  datatype StepOps = StepOps(
    should: Queue -> Result<bool>,
    sigset: Queue -> Result<SignatorySet>,
    fee: Queue -> Result<nat>,
    freeze: (Checkpoint, nat) -> Result<Advanced>,
    nextRate: (Queue, nat) -> Result<nat>,
    succeed: (Advanced, Checkpoint, nat) -> Result<Checkpoint>)

  function OpsFor(o: Oracle, cfg: CheckpointConfig, b: Block): StepOps {
    StepOps(
      (q: Queue) => ShouldPush(o, cfg, q, b),
      (q: Queue) => NextSigset(o, q, b),
      (q: Queue) => CalcFee(o, cfg, q, q.index - 1, b.commitment),
      (cp: Checkpoint, fees: nat) => Freeze(o, cfg, cp, b.commitment, fees),
      (q: Queue, prev: nat) => NextFeeRate(cfg, q, prev, b.btcHeight),
      (a: Advanced, building: Checkpoint, rate: nat) => Succeed(o, a, building, rate))
  }

  /** Freezes the previous checkpoint and hands its reserve to the building one. */
  function Handover(ops: StepOps, units: nat, q: Queue, feePool: int): Result<(Queue, int)> {
    var fees :- ops.fee(q);
    var prev :- Get(q, q.index - 1);
    var a :- ops.freeze(prev, fees);
    var q1 :- Put(q, q.index - 1, a.cp);
    var due :- Checked(Times(fees, units));
    var pool :- CheckedI64(feePool - AsI64(due));
    var rate :- ops.nextRate(q1, prev.feeRate);
    var building :- Get(q1, q1.index);
    var next :- ops.succeed(a, building, rate);
    var q2 :- Put(q1, q1.index, next);
    Ok((q2, pool))
  }

  datatype Stepped = Stepped(queue: Queue, feePool: int, pushed: bool)

  function StepWith(ops: StepOps, maxAge: nat, units: nat, q: Queue, feePool: int, dep: bool): Result<Stepped> {
    var push :- ops.should(q);
    if !push then Ok(Stepped(q, feePool, false)) else
    var pushed :- MaybePush(q, ops.sigset(q), dep);
    if !pushed.1 then Ok(Stepped(pushed.0, feePool, false)) else
    var pruned :- Prune(maxAge, pushed.0);
    if pruned.index == 0 then Ok(Stepped(pruned, feePool, true)) else
    var done :- Handover(ops, units, pruned, feePool);
    Ok(Stepped(done.0, done.1, true))
  }

  /** `maybe_step`. */
  function MaybeStep(o: Oracle, cfg: CheckpointConfig, units: nat, q: Queue, feePool: int, b: Block,
                     dep: bool): Result<Stepped>
  {
    StepWith(OpsFor(o, cfg, b), cfg.maxAge, units, q, feePool, dep)
  }

  // ----- sign -----

  function SignAt(o: Oracle, q: Queue, xpub: Xpub, sigs: seq<Signature>, i: int, btcHeight: nat): Result<Queue> {
    var cp :- Get(q, i);
    if cp.status.Building? then Err(StillBuilding) else
    var signed :- Signing.SignCheckpoint(o, cp, xpub, sigs, btcHeight);
    var cp' := if cp.status.Signing? && CheckpointSigned(signed.batches)
               then signed.(status := Complete) else signed;
    Put(q, i, cp')
  }

  // ----- pending transfers -----

  /** The pending transfers of the checkpoints from position `a` up to `b`, in order. */
  function Pendings(cps: seq<Checkpoint>, a: nat, b: nat): seq<Transfer>
    requires b <= |cps|
  {
    if a >= b then [] else Pendings(cps, a, b - 1) + cps[b - 1].pending
  }

  function Emptied(cp: Checkpoint): Checkpoint {
    cp.(pending := [])
  }

  /** The checkpoints with positions `i` up to `end` emptied of pending transfers. */
  function ClearRange(cps: seq<Checkpoint>, i: int, end: int): (r: seq<Checkpoint>)
    ensures |r| == |cps|
    ensures forall k :: 0 <= k < |cps| ==> r[k] == if i <= k < end then Emptied(cps[k]) else cps[k]
  {
    seq(|cps|, k requires 0 <= k < |cps| => if i <= k < end then Emptied(cps[k]) else cps[k])
  }

  /** Empties the pending transfers of checkpoints `i` up to `end`, in order. */
  function TakeRange(q: Queue, i: nat, end: nat): Result<(Queue, seq<Transfer>)> {
    if i >= end then Ok((q, []))
    else if !InRange(q, i) || !InRange(q, end - 1) then Err(OutOfBounds)
    else
      var a, b := i - Start(q), end - Start(q);
      Ok((q.(cps := ClearRange(q.cps, a, b)), Pendings(q.cps, a, b)))
  }

  /** One past the last confirmed complete checkpoint still to be handled. */
  function UnhandledEnd(q: Queue, i: nat, confirmed: nat): Result<nat>
    decreases confirmed + 1 - i
  {
    if i > confirmed then Ok(i) else
    var cp :- Get(q, i);
    if !cp.status.Complete? then Ok(i) else UnhandledEnd(q, i + 1, confirmed)
  }

  /** An index that cannot be read makes this return nothing rather than fail. */
  function TakePendingConfirmed(q: Queue): Result<(Queue, seq<Transfer>)> {
    if q.confirmed.None? then Ok((q, [])) else
    match UnhandledEnd(q, q.firstUnhandled, q.confirmed.value)
    case Err(_) => Ok((q, []))
    case Ok(end) =>
      var taken :- TakeRange(q, q.firstUnhandled, end);
      Ok((if end > q.firstUnhandled then taken.0.(firstUnhandled := end) else taken.0, taken.1))
  }

  function FirstTaken(q: Queue): nat {
    if q.confirmed.Some? then q.confirmed.value else 0
  }

  function TakePendingCompleted(q: Queue): Result<(Queue, seq<Transfer>)> {
    var confirmed :- TakePendingConfirmed(q);
    match LastCompletedIndex(confirmed.0)
    case Err(_) => Ok((confirmed.0, []))
    case Ok(last) =>
      var completed :- TakeRange(confirmed.0, FirstTaken(q), last + 1);
      Ok((completed.0, confirmed.1 + completed.1))
  }
}
