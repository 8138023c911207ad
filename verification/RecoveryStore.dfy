/** The recovery transactions as the contract stores them: a deque that is never popped. */
module RecoveryStore {
  import opened Common
  import opened BitcoinTypes
  import opened Transactions
  import opened FeeDeduction
  import opened Recovery
  import opened Signing
  import opened Deques

  /** `create_recovery_tx`: builds the transaction and appends it. */
  method CreateRecoveryTx(d: Deque<RecoveryTx>, o: Oracle, expired: OutPoint, value: nat, oldSigset: SignatorySet,
                          newSigset: SignatorySet, dest: Dest, feeRate: nat) returns (r: Result<()>)
    requires d.Valid() && value <= MAX_U64
    modifies d
    ensures d.Valid() && d.head == old(d.head)
    ensures match Create(o, expired, value, oldSigset, newSigset, dest, feeRate)
            case Err(e) => r == Err(e) && d.Contents() == old(d.Contents())
            case Ok(tx) => r.Ok? && d.Contents() == old(d.Contents()) + [tx]
  {
    var input := NewInput(o, expired, oldSigset, o.commitment(dest), value);
    if input.Err? {
      return Err(input.error);
    }
    var script := OutputScript(o, newSigset, o.commitment(dest));
    if script.Err? {
      return Err(script.error);
    }
    var output := [TxOut(value, script.value)];
    var size := Checked(o.vsize([input.value], output) + input.value.estWitnessVsize);
    if size.Err? {
      return Err(size.error);
    }
    var fee := Checked(feeRate * size.value);
    if fee.Err? {
      return Err(fee.error);
    }
    var outs := DeductFee(o, output, fee.value);
    if outs.Err? {
      return Err(outs.error);
    }
    var body := TxBody(0, [expired], outs.value);
    var message := o.sighash(body, 0, input.value.redeemScript, value);
    var signed := input.value.(signatures := input.value.signatures.(message := message));
    d.PushBack(RecoveryTx(BitcoinTx(0, 0, [signed], outs.value), oldSigset.index, newSigset.index, dest));
    return Ok(());
  }

  /** Reads, signs and writes back one transaction, from signature number `first` on. */
  method SignAt(d: Deque<RecoveryTx>, o: Oracle, xpub: Xpub, sigs: seq<Signature>, k: nat, first: nat)
    returns (r: Result<nat>)
    requires d.Valid() && d.Aligned() && k < |d.Contents()| && first <= |sigs|
    modifies d`items
    ensures d.Valid()
    ensures match RecoverySigner(o, xpub)(old(d.Contents())[k], sigs[first..])
            case Err(e) => r == Err(e)
            case Ok(p) =>
              && r.Ok? && r.value <= |sigs| && p.rest == sigs[r.value..]
              && |p.items| == 1 && d.Contents() == old(d.Contents())[k := p.items[0]]
  {
    var tx := d.Get(k);
    var done := SignTxLoop(o, xpub, tx.value.tx, sigs, first);
    if done.Err? {
      return Err(done.error);
    }
    d.Set(k, tx.value.(tx := done.value.0));
    return Ok(done.value.1);
  }

  /** `RecoveryTxs::sign`: each transaction is signed and written back at its position. */
  method SignRecoveryTxs(d: Deque<RecoveryTx>, o: Oracle, xpub: Xpub, sigs: seq<Signature>) returns (r: Result<()>)
    requires d.Valid() && d.Aligned()
    modifies d`items
    ensures d.Valid()
    ensures SignAll(o, xpub, old(d.Contents()), sigs) == if r.Err? then Err(r.error) else Ok(d.Contents())
  {
    if |sigs| == 0 {
      return Err(SignaturesMissing);
    }
    var done := SignEach(d, o, xpub, sigs);
    if done.Err? {
      return Err(done.error);
    }
    if done.value != |sigs| {
      return Err(SignaturesExcess);
    }
    return Ok(());
  }

  method SignEach(d: Deque<RecoveryTx>, o: Oracle, xpub: Xpub, sigs: seq<Signature>) returns (r: Result<nat>)
    requires d.Valid() && d.Aligned()
    modifies d`items
    ensures d.Valid()
    ensures match PassAll(RecoverySigner(o, xpub), old(d.Contents()), sigs)
            case Err(e) => r == Err(e)
            case Ok(p) => r.Ok? && r.value <= |sigs| && p.rest == sigs[r.value..] && d.Contents() == p.items
  {
    ghost var txs, f := d.Contents(), RecoverySigner(o, xpub);
    var sigIndex: nat, n := 0, d.Len();
    ghost var p := Pass([], sigs, 0);
    assert sigs[0..] == sigs;
    for k := 0 to n
      invariant d.Valid() && n == |txs| && sigIndex <= |sigs| && p.rest == sigs[sigIndex..]
      invariant PassedTo(f, txs, sigs, d.Contents(), k, p)
    {
      ghost var l := f(txs[k], p.rest);
      PassedStep(f, txs, sigs, d.Contents(), k, p);
      var done := SignAt(d, o, xpub, sigs, k, sigIndex);
      if done.Err? {
        return Err(done.error);
      }
      p := JoinPass(p, l.value);
      sigIndex := done.value;
    }
    PassedAll(f, txs, sigs, d.Contents(), p);
    return Ok(sigIndex);
  }
}
