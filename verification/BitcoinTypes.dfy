/**
  Bitcoin and bridge values. Hashing, signature checking, key derivation, size
  estimation and dust limits are uninterpreted: they are the function-valued
  fields of `Oracle`, and every result holds for all choices of them.
 */
module BitcoinTypes {
  import opened Common

  type Byte = x: int | 0 <= x < 256
  type Bytes = seq<Byte>
  type Hash = Bytes
  type Pubkey = Bytes
  type Signature = Bytes
  type Xpub = Bytes

  datatype OutPoint = OutPoint(txid: Hash, vout: nat)

  datatype TxOut = TxOut(value: nat, script: Bytes)

  datatype Signatory = Signatory(power: nat, key: Pubkey)

  datatype SignatorySet = SignatorySet(
    createTime: nat,
    presentVp: nat,
    possibleVp: nat,
    index: nat,
    signatories: seq<Signatory>)

  /** What a transaction id commits to: no witness data. */
  datatype TxBody = TxBody(lockTime: nat, prevouts: seq<OutPoint>, outputs: seq<TxOut>)

  datatype Share = Share(power: nat, sig: Option<Signature>)

  datatype Entry = Entry(key: Pubkey, share: Share)

  datatype ThresholdSig = ThresholdSig(
    threshold: nat,
    signed: nat,
    message: Hash,
    len: nat,
    sigs: seq<Entry>)

  datatype Input = Input(
    prevout: OutPoint,
    scriptPubkey: Bytes,
    redeemScript: Bytes,
    sigsetIndex: nat,
    dest: Bytes,
    amount: nat,
    estWitnessVsize: nat,
    signatures: ThresholdSig)

  datatype Dest =
    | Address(addr: string)
    | Ibc(sourcePort: string, receiver: string, sender: string, timeout: nat)

  datatype Oracle = Oracle(
    txid: TxBody -> Hash,
    sighash: (TxBody, nat, Bytes, nat) -> Hash,
    vsize: (seq<Input>, seq<TxOut>) -> nat,
    dust: Bytes -> nat,
    redeemScript: (SignatorySet, Bytes) -> Bytes,
    p2wsh: Bytes -> Bytes,
    opReturn: Bytes -> Bytes,
    commitment: Dest -> Bytes,
    derive: (Xpub, nat) -> Option<Pubkey>,
    verify: (Hash, Pubkey, Signature) -> bool)
}
