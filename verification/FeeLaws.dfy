/**
  The miner fee. A checkpoint is charged its own size at its own rate, and on top what the
  unconfirmed checkpoints before it have paid less than that rate; the size it is charged for is
  that of the transaction it is frozen into.
 */
module FeeLaws {
  import opened Common
  import opened BitcoinTypes
  import opened Transactions
  import opened SignatorySets
  import opened Advance
  import opened CheckpointQueue

  // ----- sums over the unconfirmed -----

  /** What a checkpoint transaction pays to miners. */
  function Margin(cp: Checkpoint): int {
    Sum(Tx(cp).input, Amount) - Sum(Tx(cp).output, Value)
  }

  /** The two outputs every frozen transaction starts with, the reserve still empty. */
  function HeadOutputs(o: Oracle, sigset: SignatorySet, data: Bytes): seq<TxOut> {
    [TxOut(0, o.p2wsh(o.redeemScript(sigset, [0]))), TxOut(0, o.opReturn(data))]
  }

  /** The size of the inputs and outputs that fit, with worst-case witnesses. */
  function SizeWith(o: Oracle, cfg: CheckpointConfig, data: Bytes): Checkpoint -> int {
    (cp: Checkpoint) =>
      var ins := Take(Tx(cp).input, cfg.maxInputs);
      o.vsize(ins, Take(HeadOutputs(o, cp.sigset, data) + Tx(cp).output, cfg.maxOutputs)) + Sum(ins, Vsize)
  }

  lemma SizeMeans(o: Oracle, cfg: CheckpointConfig, cp: Checkpoint, data: Bytes)
    ensures EstVsize(o, cfg, cp, data).Ok? <==> cp.sigset.signatories != [] && 0 <= SizeWith(o, cfg, data)(cp) < U64
    ensures EstVsize(o, cfg, cp, data).Ok? ==> EstVsize(o, cfg, cp, data).value == SizeWith(o, cfg, data)(cp)
  {
    if cp.sigset.signatories != [] {
      assert AdditionalOutputs(o, cp.sigset, data) == Ok(HeadOutputs(o, cp.sigset, data));
    }
  }

  lemma {:induction false} PaidMeans(cps: seq<Checkpoint>)
    requires FeesPaid(cps).Ok?
    ensures FeesPaid(cps).value == Sum(cps, Margin)
  {
    if cps != [] {
      var n := |cps| - 1;
      PaidMeans(cps[..n]);
      SumSnoc(cps[..n], cps[n], Margin);
      assert cps == cps[..n] + [cps[n]];
    }
  }

  lemma {:induction false} VbytesMean(o: Oracle, cfg: CheckpointConfig, cps: seq<Checkpoint>)
    requires Vbytes(o, cfg, cps).Ok?
    ensures Vbytes(o, cfg, cps).value == Sum(cps, SizeWith(o, cfg, ZERO_COMMITMENT))
  {
    if cps != [] {
      var n := |cps| - 1;
      VbytesMean(o, cfg, cps[..n]);
      SizeMeans(o, cfg, cps[n], ZERO_COMMITMENT);
      SumSnoc(cps[..n], cps[n], SizeWith(o, cfg, ZERO_COMMITMENT));
      assert cps == cps[..n] + [cps[n]];
    }
  }

  // ----- the fee -----

  function Positive(x: int): int {
    if x > 0 then x else 0
  }

  /**
    The fee of checkpoint `i`: its size at its rate, and what the unconfirmed ones have paid less
    than that rate. So all of them together have paid at least that rate for their whole size, and
    exactly that when the earlier ones had not paid more.
   */
  lemma FeeMeans(o: Oracle, cfg: CheckpointConfig, q: Queue, i: int, data: Bytes)
    requires CalcFee(o, cfg, q, i, data).Ok?
    ensures Get(q, i).Ok? && Unconfirmed(q).Ok?
    ensures var cp, view := Get(q, i).value, Unconfirmed(q).value;
            var size, sizes := SizeWith(o, cfg, data)(cp), Sum(view, SizeWith(o, cfg, ZERO_COMMITMENT));
            var paid := Sum(view, Margin);
            var fee := CalcFee(o, cfg, q, i, data).value;
            && fee == size * cp.feeRate + Positive(sizes * cp.feeRate - paid)
            && paid + fee >= (sizes + size) * cp.feeRate
            && (paid <= sizes * cp.feeRate ==> paid + fee == (sizes + size) * cp.feeRate)
  {
    var cp, view := Get(q, i).value, Unconfirmed(q).value;
    PaidMeans(view);
    VbytesMean(o, cfg, view);
    SizeMeans(o, cfg, cp, data);
    Distributes(Sum(view, SizeWith(o, cfg, ZERO_COMMITMENT)), SizeWith(o, cfg, data)(cp), cp.feeRate);
  }

  lemma Distributes(a: int, b: int, c: int)
    ensures (a + b) * c == a * c + b * c
  {
  }

  // ----- what is frozen -----

  /** A frozen transaction starts with the reserve output to its own set and the timestamp, then
      the outputs that still fit, in order; it spends the inputs that fit, in order. */
  lemma FrozenTx(o: Oracle, cfg: CheckpointConfig, cp: Checkpoint, data: Bytes, fees: nat, a: Advanced)
    requires SingleTx(cp) && cfg.maxOutputs >= 2 && Freeze(o, cfg, cp, data, fees) == Ok(a)
    ensures var tx, tx' := Tx(cp), Tx(a.cp);
            && tx'.output == [TxOut(a.reserveValue, o.p2wsh(o.redeemScript(cp.sigset, [0]))), TxOut(0, o.opReturn(data))]
                           + Take(tx.output, cfg.maxOutputs - 2)
            && Prevouts(tx'.input) == Prevouts(Take(tx.input, cfg.maxInputs)) && tx'.lockTime == tx.lockTime
            && a.reserveOutpoint == OutPoint(Txid(o, tx'), 0) && a.cp == cp.(status := Signing, batches := a.cp.batches)
  {
    var outs, tx := HeadOutputs(o, cp.sigset, data), Tx(cp);
    assert AdditionalOutputs(o, cp.sigset, data) == Ok(outs);
    var kept := Take(outs + tx.output, cfg.maxOutputs);
    assert kept == outs + Take(tx.output, cfg.maxOutputs - 2);
    FreezeInputs(o, cfg, cp, data, fees);
  }

  predicate SameScripts(outs: seq<TxOut>, outs': seq<TxOut>) {
    |outs| == |outs'| && forall k :: 0 <= k < |outs| ==> outs[k].script == outs'[k].script
  }

  /** Sizes depend on the number of inputs and on the output scripts only. */
  ghost predicate SizedByShape(o: Oracle) {
    forall ins: seq<Input>, ins': seq<Input>, outs: seq<TxOut>, outs': seq<TxOut> ::
      |ins| == |ins'| && SameScripts(outs, outs') ==> o.vsize(ins, outs) == o.vsize(ins', outs')
  }

  /** The size charged for is that of the frozen transaction with its worst-case witnesses. */
  lemma FrozenSize(o: Oracle, cfg: CheckpointConfig, cp: Checkpoint, data: Bytes, fees: nat, a: Advanced)
    requires SizedByShape(o) && SingleTx(cp) && cfg.maxOutputs >= 2 && Freeze(o, cfg, cp, data, fees) == Ok(a)
    ensures SizeWith(o, cfg, data)(cp) == o.vsize(Tx(a.cp).input, Tx(a.cp).output) + Sum(Tx(a.cp).input, Vsize)
  {
    var ins := Take(Tx(cp).input, cfg.maxInputs);
    var kept := Take(HeadOutputs(o, cp.sigset, data) + Tx(cp).output, cfg.maxOutputs);
    assert AdditionalOutputs(o, cp.sigset, data) == Ok(HeadOutputs(o, cp.sigset, data));
    var body := TxBody(Tx(cp).lockTime, Prevouts(ins), Tx(a.cp).output);
    assert Tx(a.cp).input == WithMessages(o, body, ins) && Tx(a.cp).output == ReserveSet(kept, a.reserveValue);
    SumAgrees(WithMessages(o, body, ins), ins, Vsize, Vsize);
    assert o.vsize(Tx(a.cp).input, Tx(a.cp).output) == o.vsize(ins, kept);
  }
}
