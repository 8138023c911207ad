/** Recovery transactions for deposits that arrive after their signatory set expired. */
module Recovery {
  import opened Common
  import opened BitcoinTypes
  import opened Transactions
  import opened FeeDeduction
  import TS = ThresholdSigs
  import opened Signing

  datatype RecoveryTx = RecoveryTx(tx: BitcoinTx, oldSigsetIndex: nat, newSigsetIndex: nat, dest: Dest)

  /** An unsigned transaction moving the expired deposit to the current signatory set,
      its fee taken out of the only output, its input carrying the sighash. */
  function Create(o: Oracle, expired: OutPoint, value: nat, oldSigset: SignatorySet, newSigset: SignatorySet,
                  dest: Dest, feeRate: nat): Result<RecoveryTx>
  {
    var input :- NewInput(o, expired, oldSigset, o.commitment(dest), value);
    var script :- OutputScript(o, newSigset, o.commitment(dest));
    var output := [TxOut(value, script)];
    var size :- Checked(o.vsize([input], output) + input.estWitnessVsize);
    var fee :- Checked(feeRate * size);
    var outs :- Deducted(o, output, fee);
    var body := TxBody(0, [expired], outs);
    var signed := input.(signatures := input.signatures.(message := o.sighash(body, 0, input.redeemScript, value)));
    Ok(RecoveryTx(BitcoinTx(0, 0, [signed], outs), oldSigset.index, newSigset.index, dest))
  }

  /** A single output pays the whole fee. */
  lemma OnlyOutput(o: Oracle, out: TxOut, fee: nat)
    ensures Deducted(o, [out], fee) ==
            Ok(if fee == 0 then [out]
               else if out.value > o.dust(out.script) + fee then [out.(value := out.value - fee)] else [])
  {
    assert [out][1..] == [] && Above(o, [], fee) == [];
    var kept := Above(o, [out], fee);
    assert kept == if Spare(o, out) > fee then [out] else [];
    assert CutOff(o, [out], fee) == fee;
    assert Charged(kept, fee) == if Spare(o, out) > fee then [out.(value := out.value - fee)] else [];
  }

  /** What a created transaction moves: the expired outpoint, to be signed by the old set for this
      very transaction, to the same destination under the new set, less the fee, and to nobody
      when dust would be left. */
  ghost predicate Moves(o: Oracle, r: RecoveryTx, expired: OutPoint, value: nat, oldSigset: SignatorySet,
                        newSigset: SignatorySet, dest: Dest, fee: nat)
  {
    && r.oldSigsetIndex == oldSigset.index && r.newSigsetIndex == newSigset.index && r.dest == dest
    && r.tx.lockTime == 0 && |r.tx.input| == 1
    && (var i := r.tx.input[0];
        && i.prevout == expired && i.amount == value && i.sigsetIndex == oldSigset.index && i.dest == o.commitment(dest)
        && i.redeemScript == o.redeemScript(oldSigset, o.commitment(dest)) && i.scriptPubkey == o.p2wsh(i.redeemScript)
        && i.signatures.sigs == TS.EntriesOf(oldSigset.signatories)
        && i.signatures.message == o.sighash(Body(r.tx), 0, i.redeemScript, value))
    && (var script := o.p2wsh(o.redeemScript(newSigset, o.commitment(dest)));
        r.tx.output == if fee == 0 || value > o.dust(script) + fee then [TxOut(value - fee, script)] else [])
  }

  /** The size the fee is charged for: the transaction before the fee, with its worst-case witness. */
  function MoveSize(o: Oracle, expired: OutPoint, value: nat, oldSigset: SignatorySet, newSigset: SignatorySet,
                    dest: Dest): nat
  {
    match NewInput(o, expired, oldSigset, o.commitment(dest), value)
    case Err(_) => 0
    case Ok(input) =>
      o.vsize([input], [TxOut(value, o.p2wsh(o.redeemScript(newSigset, o.commitment(dest))))])
      + |oldSigset.signatories| * 79 + 39
  }

  /** A created transaction spends exactly the expired outpoint, pays the rest to the new set and is
      ready to be signed. */
  lemma CreateValid(o: Oracle, expired: OutPoint, value: nat, oldSigset: SignatorySet, newSigset: SignatorySet,
                    dest: Dest, feeRate: nat) returns (fee: nat)
    requires Create(o, expired, value, oldSigset, newSigset, dest, feeRate).Ok?
    ensures var r := Create(o, expired, value, oldSigset, newSigset, dest, feeRate).value;
            && Moves(o, r, expired, value, oldSigset, newSigset, dest, fee) && TxValid(r.tx)
            && oldSigset.signatories != [] && newSigset.signatories != []
    ensures fee == feeRate * MoveSize(o, expired, value, oldSigset, newSigset, dest)
  {
    var r := Create(o, expired, value, oldSigset, newSigset, dest, feeRate).value;
    var input := NewInput(o, expired, oldSigset, o.commitment(dest), value).value;
    var entries := TS.EntriesOf(oldSigset.signatories);
    var out := TxOut(value, o.p2wsh(o.redeemScript(newSigset, o.commitment(dest))));
    fee := feeRate * MoveSize(o, expired, value, oldSigset, newSigset, dest);
    OnlyOutput(o, out, fee);
    TS.FreshValid(entries);
    SumSingle(r.tx.input[0], CountInput);
    assert Prevouts(r.tx.input) == [expired];
  }

  // ----- signing -----

  function SignOne(o: Oracle, xpub: Xpub, r: RecoveryTx, sigs: seq<Signature>): Result<Pass<RecoveryTx>> {
    var p :- SignTx(o, xpub, r.tx, sigs);
    Ok(Pass([r.(tx := p.items[0])], p.rest, p.newly))
  }

  function RecoverySigner(o: Oracle, xpub: Xpub): Signer<RecoveryTx> {
    (r, sigs) => SignOne(o, xpub, r, sigs)
  }

  function RecoveryLister(o: Oracle, xpub: Xpub): Lister<RecoveryTx> {
    (r: RecoveryTx) => TxLister(o, xpub)(r.tx)
  }

  function SignAll(o: Oracle, xpub: Xpub, txs: seq<RecoveryTx>, sigs: seq<Signature>): Result<seq<RecoveryTx>> {
    if sigs == [] then Err(SignaturesMissing) else
    var p :- PassAll(RecoverySigner(o, xpub), txs, sigs);
    if p.rest != [] then Err(SignaturesExcess) else Ok(p.items)
  }

  ghost predicate AllValid(txs: seq<RecoveryTx>) {
    forall i :: 0 <= i < |txs| ==> TxValid(txs[i].tx)
  }

  lemma SignOneRefines(o: Oracle, xpub: Xpub, r: RecoveryTx, sigs: seq<Signature>)
    requires TxValid(r.tx)
    ensures PassRefines(o, xpub, RecoveryLister(o, xpub)(r), sigs, RecoverySigner(o, xpub)(r, sigs))
  {
    SignTxRefines(o, xpub, r.tx, sigs);
  }

  ghost predicate RecoveryKept(o: Oracle, xpub: Xpub, a: RecoveryTx, b: RecoveryTx) {
    && b == a.(tx := b.tx) && TxExtends(a.tx, b.tx) && TxValid(b.tx)
    && RecoveryLister(o, xpub)(b) == Ok([])
    && (RecoveryLister(o, xpub)(a) == Ok([]) ==> b == a)
  }

  function CountRecovery(r: RecoveryTx): int {
    CountTx(r.tx)
  }

  /** One more item that a signer leaves alone. */
  lemma LeftAlone<T>(f: Signer<T>, items: seq<T>, x: T, sigs: seq<Signature>)
    requires PassAll(f, items, sigs) == Ok(Pass(items, sigs, 0)) && f(x, sigs) == Ok(Pass([x], sigs, 0))
    ensures PassAll(f, items + [x], sigs) == Ok(Pass(items + [x], sigs, 0))
  {
    assert (items + [x])[..|items|] == items;
  }

  lemma {:induction false} NothingToSign(o: Oracle, xpub: Xpub, ins: seq<Input>, sigs: seq<Signature>)
    requires Tasks(InputLister(o, xpub), ins) == Ok([])
    ensures PassAll(InputSigner(o, xpub), ins, sigs) == Ok(Pass(ins, sigs, 0))
  {
    if ins != [] {
      var n := |ins| - 1;
      assert Tasks(InputLister(o, xpub), ins[..n]).value == [] && InputTask(o, xpub, ins[n]) == Ok([]);
      NothingToSign(o, xpub, ins[..n], sigs);
      LeftAlone(InputSigner(o, xpub), ins[..n], ins[n], sigs);
      assert ins == ins[..n] + [ins[n]];
    }
  }

  lemma SignOneKept(o: Oracle, xpub: Xpub, r: RecoveryTx, sigs: seq<Signature>)
    requires TxValid(r.tx) && SignOne(o, xpub, r, sigs).Ok?
    ensures var p := SignOne(o, xpub, r, sigs).value;
            && |p.items| == 1 && RecoveryKept(o, xpub, r, p.items[0])
            && p.newly == CountRecovery(p.items[0]) - CountRecovery(r)
  {
    SignTxKept(o, xpub, r.tx, sigs);
    if RecoveryLister(o, xpub)(r) == Ok([]) {
      NothingToSign(o, xpub, r.tx.input, sigs);
    }
  }

  /**
    `RecoveryTxs::sign` refines its `to_sign`: it succeeds exactly when at least one
    signature is supplied and the signatures answer the listed tasks one for one; counters
    stay exact, nothing is left for this signatory, and a transaction with no listed task is
    not touched.
   */
  lemma SignAllCorrect(o: Oracle, xpub: Xpub, txs: seq<RecoveryTx>, sigs: seq<Signature>)
    requires AllValid(txs)
    ensures var tasks := Tasks(RecoveryLister(o, xpub), txs); var r := SignAll(o, xpub, txs, sigs);
            && (r.Ok? <==> sigs != [] && tasks.Ok? && |sigs| == |tasks.value| && Answers(o, xpub, tasks.value, sigs))
            && (r.Ok? ==>
                  && |r.value| == |txs| && AllValid(r.value)
                  && forall i :: 0 <= i < |txs| ==> RecoveryKept(o, xpub, txs[i], r.value[i]))
  {
    var f, t := RecoverySigner(o, xpub), RecoveryLister(o, xpub);
    forall i, s | 0 <= i < |txs| ensures PassRefines(o, xpub, t(txs[i]), s, f(txs[i], s)) {
      SignOneRefines(o, xpub, txs[i], s);
    }
    AllRefine(o, xpub, f, t, txs, sigs);
    var p := PassAll(f, txs, sigs);
    if p.Ok? {
      var keep := (a, b) => RecoveryKept(o, xpub, a, b);
      forall i, s | 0 <= i < |txs| ensures ItemKept(f, keep, CountRecovery, txs[i], s) {
        if f(txs[i], s).Ok? {
          SignOneKept(o, xpub, txs[i], s);
        }
      }
      AllKept(f, keep, CountRecovery, txs, sigs);
      assert forall i :: 0 <= i < |txs| ==> RecoveryKept(o, xpub, txs[i], p.value.items[i]);
    }
  }
}
