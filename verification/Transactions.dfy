/** Inputs, transactions, batches and checkpoints. */
module Transactions {
  import opened Common
  import opened BitcoinTypes
  import TS = ThresholdSigs

  datatype BitcoinTx = BitcoinTx(
    lockTime: nat,
    signedInputs: nat,
    input: seq<Input>,
    output: seq<TxOut>)

  datatype Batch = Batch(signedTxs: nat, txs: seq<BitcoinTx>)

  datatype Status = Building | Signing | Complete

  datatype Coin = Coin(denom: string, amount: nat)

  datatype Transfer = Transfer(dest: Dest, coin: Coin)

  datatype Checkpoint = Checkpoint(
    status: Status,
    pending: seq<Transfer>,
    batches: seq<Batch>,
    feeRate: nat,
    signedAtBtcHeight: Option<nat>,
    depositsEnabled: bool,
    feesCollected: nat,
    sigset: SignatorySet)

  const DEFAULT_FEE_RATE: nat := 55

  const EMPTY_TX := BitcoinTx(0, 0, [], [])

  function Amount(i: Input): int {
    i.amount
  }

  function Value(out: TxOut): int {
    out.value
  }

  function Vsize(i: Input): int {
    i.estWitnessVsize
  }

  predicate TxSigned(tx: BitcoinTx) {
    tx.signedInputs == |tx.input|
  }

  predicate BatchSigned(b: Batch) {
    b.signedTxs == |b.txs|
  }

  /** The number of leading batches that are fully signed. */
  function SignedBatches(bs: seq<Batch>): nat {
    if bs == [] || !BatchSigned(bs[0]) then 0 else 1 + SignedBatches(bs[1..])
  }

  predicate CheckpointSigned(bs: seq<Batch>) {
    SignedBatches(bs) == |bs|
  }

  /** The part of a transaction its id commits to. */
  function Body(tx: BitcoinTx): TxBody {
    TxBody(tx.lockTime, Prevouts(tx.input), tx.output)
  }

  function Prevouts(ins: seq<Input>): (ps: seq<OutPoint>)
    ensures |ps| == |ins| && forall i :: 0 <= i < |ins| ==> ps[i] == ins[i].prevout
  {
    seq(|ins|, i requires 0 <= i < |ins| => ins[i].prevout)
  }

  /** The id of a transaction, which ignores its witnesses. */
  function Txid(o: Oracle, tx: BitcoinTx): Hash {
    o.txid(Body(tx))
  }

  function OutputScript(o: Oracle, sigset: SignatorySet, dest: Bytes): Result<Bytes> {
    if sigset.signatories == [] then Err(EmptySigset) else Ok(o.p2wsh(o.redeemScript(sigset, dest)))
  }

  function EstWitnessVsize(sigset: SignatorySet): nat {
    |sigset.signatories| * 79 + 39
  }

  /** `Input::new`: an input spending `prevout`, to be signed by `sigset`. */
  function NewInput(o: Oracle, prevout: OutPoint, sigset: SignatorySet, dest: Bytes, amount: nat): Result<Input> {
    var script :- OutputScript(o, sigset, dest);
    var ts :- TS.Fresh(TS.EntriesOf(sigset.signatories));
    Ok(Input(prevout, script, o.redeemScript(sigset, dest), sigset.index, dest, amount,
             EstWitnessVsize(sigset), ts))
  }

  /** A new checkpoint holds one batch of one empty checkpoint transaction. */
  function NewCheckpoint(sigset: SignatorySet, depositsEnabled: bool): Checkpoint {
    Checkpoint(Building, [], [Batch(0, [EMPTY_TX])], DEFAULT_FEE_RATE, None, depositsEnabled, 0, sigset)
  }

  predicate SingleTx(cp: Checkpoint) {
    |cp.batches| == 1 && |cp.batches[0].txs| == 1
  }

  /** The checkpoint transaction. */
  function Tx(cp: Checkpoint): BitcoinTx {
    if SingleTx(cp) then cp.batches[0].txs[0] else EMPTY_TX
  }

  function WithTx(cp: Checkpoint, tx: BitcoinTx): (cp': Checkpoint)
    ensures SingleTx(cp) ==> SingleTx(cp') && Tx(cp') == tx && cp'.batches[0].signedTxs == cp.batches[0].signedTxs
    ensures cp' == cp.(batches := cp'.batches)
  {
    if SingleTx(cp) then cp.(batches := [cp.batches[0].(txs := [tx])]) else cp
  }
}
