/**
  Fees of a checkpoint transaction and `BuildingCheckpoint::advance`, which freezes a
  checkpoint: it prepends the reserve and timestamping outputs, moves what exceeds the
  configured limits aside, and pays the remainder into the reserve output.
 */
module Advance {
  import opened Common
  import opened BitcoinTypes
  import opened Transactions
  import opened SignatorySets
  import opened Ordering

  datatype CheckpointConfig = CheckpointConfig(
    minInterval: nat,
    maxInterval: nat,
    maxInputs: nat,
    maxOutputs: nat,
    maxAge: nat,
    targetInclusion: nat,
    minFeeRate: nat,
    maxFeeRate: nat,
    userFeeFactor: nat,
    maxUnconfirmed: nat)

  predicate ValidConfig(cfg: CheckpointConfig) {
    cfg.maxInputs >= 1 && cfg.maxOutputs >= 2 && cfg.minFeeRate <= cfg.maxFeeRate
  }

  /** The reserve output, still worth nothing, and the timestamping commitment. */
  function AdditionalOutputs(o: Oracle, sigset: SignatorySet, commitment: Bytes): (r: Result<seq<TxOut>>)
    ensures r.Ok? ==> |r.value| == 2 && r.value[0].value == 0 && r.value[1].value == 0
  {
    var script :- OutputScript(o, sigset, [0]);
    Ok([TxOut(0, script), TxOut(0, o.opReturn(commitment))])
  }

  /** Estimated size of the frozen transaction, worst-case witnesses included. */
  function EstVsize(o: Oracle, cfg: CheckpointConfig, cp: Checkpoint, commitment: Bytes): Result<nat> {
    var outs :- AdditionalOutputs(o, cp.sigset, commitment);
    var ins := Take(Tx(cp).input, cfg.maxInputs);
    Checked(o.vsize(ins, Take(outs + Tx(cp).output, cfg.maxOutputs)) + Sum(ins, Vsize))
  }

  function BaseFee(o: Oracle, cfg: CheckpointConfig, cp: Checkpoint, commitment: Bytes): Result<nat> {
    var vsize :- EstVsize(o, cfg, cp, commitment);
    Checked(vsize * cp.feeRate)
  }

  /** The miner fee a checkpoint transaction pays: inputs minus outputs. */
  function MinerFees(cp: Checkpoint): Result<nat> {
    var ins :- Checked(Sum(Tx(cp).input, Amount));
    Checked(ins - Sum(Tx(cp).output, Value))
  }

  /** Totals over the inputs and outputs that fit the limits. */
  function Totals(cfg: CheckpointConfig, cp: Checkpoint): Result<(nat, nat)> {
    var ins :- Checked(Sum(Take(Tx(cp).input, cfg.maxInputs), Amount));
    var outs :- Checked(Sum(Take(Tx(cp).output, cfg.maxOutputs), Value));
    Ok((ins, outs))
  }

  datatype Advanced = Advanced(
    cp: Checkpoint,
    reserveOutpoint: OutPoint,
    reserveValue: nat,
    excessInputs: seq<Input>,
    excessOutputs: seq<TxOut>)

  /** Every input carries the sighash it is to be signed for. */
  function WithMessages(o: Oracle, body: TxBody, ins: seq<Input>): (r: seq<Input>)
    ensures |r| == |ins|
    ensures forall i :: 0 <= i < |ins| ==> r[i] == WithMessage(o, body, i, ins[i])
  {
    seq(|ins|, i requires 0 <= i < |ins| => WithMessage(o, body, i, ins[i]))
  }

  function WithMessage(o: Oracle, body: TxBody, i: nat, input: Input): Input {
    input.(signatures := input.signatures.(message := o.sighash(body, i, input.redeemScript, input.amount)))
  }

  function Drop<T>(s: seq<T>, n: nat): seq<T> {
    if |s| <= n then [] else s[n..]
  }

  /** The outputs with the reserve value written to the first one. */
  function ReserveSet(outs: seq<TxOut>, reserve: nat): seq<TxOut>
    requires outs != []
  {
    outs[0 := outs[0].(value := reserve)]
  }

  /** What `advance` computes. */
  function Freeze(o: Oracle, cfg: CheckpointConfig, cp: Checkpoint, commitment: Bytes, fees: nat): Result<Advanced> {
    var outs :- AdditionalOutputs(o, cp.sigset, commitment);
    var tx := Tx(cp);
    var ins := Take(tx.input, cfg.maxInputs);
    var kept := Take(outs + tx.output, cfg.maxOutputs);
    var inAmount :- Checked(Sum(ins, Amount));
    var outAmount :- Checked(Sum(kept, Value));
    var due :- Checked(outAmount + fees);
    if inAmount < due then Err(InsufficientReserve)
    else if kept == [] then Err(NoValue)
    else
      var reserve := inAmount - due;
      var outputs := ReserveSet(kept, reserve);
      var body := TxBody(tx.lockTime, Prevouts(ins), outputs);
      var tx' := tx.(input := WithMessages(o, body, ins), output := outputs);
      Ok(Advanced(WithTx(cp, tx').(status := Signing),
                  OutPoint(o.txid(body), 0), reserve,
                  Reverse(Drop(tx.input, cfg.maxInputs)),
                  Reverse(Drop(outs + tx.output, cfg.maxOutputs))))
  }

  lemma TakeDrop<T>(s: seq<T>, n: nat)
    ensures Take(s, n) + Drop(s, n) == s
    ensures multiset(Take(s, n)) + multiset(Reverse(Drop(s, n))) == multiset(s)
  {
    assert Take(s, n) + Drop(s, n) == s;
    ReverseMultiset(Drop(s, n));
  }

  lemma SumTakeDrop<T>(s: seq<T>, n: nat, f: T -> int)
    ensures Sum(s, f) == Sum(Take(s, n), f) + Sum(Reverse(Drop(s, n)), f)
  {
    TakeDrop(s, n);
    SumConcat(Take(s, n), Drop(s, n), f);
    SumReversed(Drop(s, n), f);
  }

  lemma MessagesKeepAmounts(o: Oracle, body: TxBody, ins: seq<Input>)
    ensures Sum(WithMessages(o, body, ins), Amount) == Sum(ins, Amount)
    ensures Prevouts(WithMessages(o, body, ins)) == Prevouts(ins)
  {
    SumAgrees(WithMessages(o, body, ins), ins, Amount, Amount);
  }

  lemma FreezeInputs(o: Oracle, cfg: CheckpointConfig, cp: Checkpoint, commitment: Bytes, fees: nat)
    requires SingleTx(cp) && Freeze(o, cfg, cp, commitment, fees).Ok?
    ensures var a := Freeze(o, cfg, cp, commitment, fees).value;
            var tx, tx', ins := Tx(cp), Tx(a.cp), Take(Tx(cp).input, cfg.maxInputs);
            && SingleTx(a.cp)
            && Sum(tx'.input, Amount) == Sum(ins, Amount)
            && Sum(ins, Amount) + Sum(a.excessInputs, Amount) == Sum(tx.input, Amount)
            && Prevouts(tx'.input) == Prevouts(ins)
            && a.reserveOutpoint == OutPoint(Txid(o, tx'), 0)
  {
    var a := Freeze(o, cfg, cp, commitment, fees).value;
    var tx, tx' := Tx(cp), Tx(a.cp);
    var ins := Take(tx.input, cfg.maxInputs);
    var body := TxBody(tx.lockTime, Prevouts(ins), tx'.output);
    assert tx'.input == WithMessages(o, body, ins);
    MessagesKeepAmounts(o, body, ins);
    SumTakeDrop(tx.input, cfg.maxInputs, Amount);
  }

  lemma PrevoutsSplit(ins: seq<Input>, n: nat)
    ensures multiset(Prevouts(Take(ins, n))) + multiset(Prevouts(Reverse(Drop(ins, n)))) == multiset(Prevouts(ins))
  {
    TakeDrop(Prevouts(ins), n);
    assert Prevouts(Take(ins, n)) == Take(Prevouts(ins), n);
    assert Prevouts(Reverse(Drop(ins, n))) == Reverse(Drop(Prevouts(ins), n));
  }

  lemma SumPair(outs: seq<TxOut>)
    requires |outs| == 2 && outs[0].value == 0 && outs[1].value == 0
    ensures Sum(outs, Value) == 0
  {
    assert outs == [outs[0]] + [outs[1]];
    SumCons(outs[0], [outs[1]], Value);
    SumSingle(outs[1], Value);
  }

  lemma OutputsSum(outs: seq<TxOut>, output: seq<TxOut>, limit: nat, reserve: nat)
    requires |outs| == 2 && outs[0].value == 0 && outs[1].value == 0 && limit >= 2
    ensures var kept := Take(outs + output, limit);
            && Sum(kept, Value) + Sum(Reverse(Drop(outs + output, limit)), Value) == Sum(output, Value)
            && kept != [] && Sum(ReserveSet(kept, reserve), Value) == Sum(kept, Value) + reserve
  {
    var kept := Take(outs + output, limit);
    SumTakeDrop(outs + output, limit, Value);
    SumConcat(outs, output, Value);
    SumPair(outs);
    SumUpdate(kept, 0, kept[0].(value := reserve), Value);
  }

  /**
    The kept inputs pay for the kept outputs and exactly the fee charged, so the fee read
    back from the frozen transaction is that fee; nothing is lost between kept and excess;
    the reserve outpoint names output 0 of the frozen transaction, which holds the reserve.
   */
  lemma FreezeBalances(o: Oracle, cfg: CheckpointConfig, cp: Checkpoint, commitment: Bytes, fees: nat)
    requires SingleTx(cp) && cfg.maxOutputs >= 2
    requires Freeze(o, cfg, cp, commitment, fees).Ok?
    ensures var a := Freeze(o, cfg, cp, commitment, fees).value;
            var tx, tx' := Tx(cp), Tx(a.cp);
            && SingleTx(a.cp)
            && Sum(tx'.input, Amount) + Sum(a.excessInputs, Amount) == Sum(tx.input, Amount)
            && Sum(tx'.output, Value) + Sum(a.excessOutputs, Value) == Sum(tx.output, Value) + a.reserveValue
            && Sum(tx'.input, Amount) == Sum(tx'.output, Value) + fees
            && MinerFees(a.cp) == Ok(fees)
            && a.reserveOutpoint == OutPoint(Txid(o, tx'), 0)
            && tx'.output != [] && tx'.output[0].value == a.reserveValue
  {
    var a := Freeze(o, cfg, cp, commitment, fees).value;
    var outs := AdditionalOutputs(o, cp.sigset, commitment).value;
    FreezeInputs(o, cfg, cp, commitment, fees);
    OutputsSum(outs, Tx(cp).output, cfg.maxOutputs, a.reserveValue);
    assert Tx(a.cp).output == ReserveSet(Take(outs + Tx(cp).output, cfg.maxOutputs), a.reserveValue);
    SumNonNegative(Tx(a.cp).output, Value);
  }

  /** `advance` conserves inputs: as multisets, kept and excess prevouts are the old ones. */
  lemma FreezeConservesInputs(o: Oracle, cfg: CheckpointConfig, cp: Checkpoint, commitment: Bytes, fees: nat)
    requires SingleTx(cp) && Freeze(o, cfg, cp, commitment, fees).Ok?
    ensures var a := Freeze(o, cfg, cp, commitment, fees).value;
            var tx, tx' := Tx(cp), Tx(a.cp);
            && multiset(Prevouts(tx'.input)) + multiset(Prevouts(a.excessInputs)) == multiset(Prevouts(tx.input))
            && |tx'.input| <= cfg.maxInputs
  {
    FreezeInputs(o, cfg, cp, commitment, fees);
    PrevoutsSplit(Tx(cp).input, cfg.maxInputs);
  }

  /** `advance` conserves outputs: kept and excess ones are the old ones with the two additions,
      the first of them replaced by the reserve output. */
  lemma FreezeConservesOutputs(o: Oracle, cfg: CheckpointConfig, cp: Checkpoint, commitment: Bytes, fees: nat)
    requires SingleTx(cp) && cfg.maxOutputs >= 2 && Freeze(o, cfg, cp, commitment, fees).Ok?
    ensures var a := Freeze(o, cfg, cp, commitment, fees).value;
            var tx, tx', outs := Tx(cp), Tx(a.cp), AdditionalOutputs(o, cp.sigset, commitment).value;
            && tx'.output != [] && |tx'.output| <= cfg.maxOutputs
            && multiset(tx'.output[0 := outs[0]]) + multiset(a.excessOutputs) == multiset(outs + tx.output)
  {
    var a := Freeze(o, cfg, cp, commitment, fees).value;
    var outs := AdditionalOutputs(o, cp.sigset, commitment).value;
    TakeDrop(outs + Tx(cp).output, cfg.maxOutputs);
    assert Tx(a.cp).output[0 := outs[0]] == Take(outs + Tx(cp).output, cfg.maxOutputs);
  }

  /** A guard that covers outputs and fee is enough for the reserve subtraction. */
  lemma FreezeSucceeds(o: Oracle, cfg: CheckpointConfig, cp: Checkpoint, commitment: Bytes, fees: nat)
    requires cfg.maxOutputs >= 2
    requires AdditionalOutputs(o, cp.sigset, commitment).Ok?
    requires Totals(cfg, cp).Ok?
    requires Totals(cfg, cp).value.1 + fees <= Totals(cfg, cp).value.0
    ensures Freeze(o, cfg, cp, commitment, fees).Ok?
  {
    var outs := AdditionalOutputs(o, cp.sigset, commitment).value;
    var output := Tx(cp).output;
    var kept := Take(outs + output, cfg.maxOutputs);
    var rest := Take(output, cfg.maxOutputs - 2);
    assert kept == outs + rest;
    SumConcat(outs, rest, Value);
    SumPair(outs);
    SumNonNegative(rest, Value);
    var all := Take(output, cfg.maxOutputs);
    assert rest == all[..|rest|];
    SumPrefix(all, |rest|, Value);
  }

  // ----- the loops of `advance` -----

  /** Pops elements off the end until at most `limit` are left. */
  method PopExcess<T>(items: seq<T>, limit: nat) returns (kept: seq<T>, excess: seq<T>)
    ensures kept == Take(items, limit)
    ensures excess == Reverse(Drop(items, limit))
  {
    kept, excess := items, [];
    while |kept| > limit
      invariant |kept| <= |items| && kept == items[..|kept|]
      invariant |kept| >= limit || kept == items
      invariant excess == Reverse(items[|kept|..])
    {
      var last := kept[|kept| - 1];
      excess := excess + [last];
      assert items[|kept| - 1..] == [last] + items[|kept|..];
      assert excess == Reverse(items[|kept| - 1..]);
      kept := kept[..|kept| - 1];
    }
  }

  method TotalAmount(ins: seq<Input>) returns (r: Result<nat>)
    ensures r == Checked(Sum(ins, Amount))
  {
    var total := 0;
    for i := 0 to |ins|
      invariant 0 <= total == Sum(ins[..i], Amount) < U64
    {
      assert ins[..i + 1] == ins[..i] + [ins[i]];
      SumSnoc(ins[..i], ins[i], Amount);
      SumPrefix(ins, i + 1, Amount);
      total := total + ins[i].amount;
      if total >= U64 {
        return Err(Overflow);
      }
    }
    assert ins[..|ins|] == ins;
    return Ok(total);
  }

  method TotalValue(outs: seq<TxOut>) returns (r: Result<nat>)
    ensures r == Checked(Sum(outs, Value))
  {
    var total := 0;
    for i := 0 to |outs|
      invariant 0 <= total == Sum(outs[..i], Value) < U64
    {
      assert outs[..i + 1] == outs[..i] + [outs[i]];
      SumSnoc(outs[..i], outs[i], Value);
      SumPrefix(outs, i + 1, Value);
      total := total + outs[i].value;
      if total >= U64 {
        return Err(Overflow);
      }
    }
    assert outs[..|outs|] == outs;
    return Ok(total);
  }

  method SetMessages(o: Oracle, body: TxBody, plain: seq<Input>) returns (input: seq<Input>)
    ensures input == WithMessages(o, body, plain)
  {
    input := plain;
    for i := 0 to |input|
      invariant |input| == |plain| && input[i..] == plain[i..]
      invariant forall j :: 0 <= j < i ==> input[j] == WithMessage(o, body, j, plain[j])
    {
      assert input[i..][0] == plain[i];
      input := input[i := WithMessage(o, body, i, input[i])];
    }
  }

  /** `BuildingCheckpoint::advance`. */
  method AdvanceBuilding(o: Oracle, cfg: CheckpointConfig, cp: Checkpoint, commitment: Bytes, fees: nat)
    returns (r: Result<Advanced>)
    ensures r == Freeze(o, cfg, cp, commitment, fees)
  {
    var outs := AdditionalOutputs(o, cp.sigset, commitment);
    if outs.Err? {
      return Err(outs.error);
    }
    var input, excessInputs := PopExcess(Tx(cp).input, cfg.maxInputs);
    var output, excessOutputs := PopExcess(outs.value + Tx(cp).output, cfg.maxOutputs);
    var inAmount := TotalAmount(input);
    if inAmount.Err? {
      return Err(inAmount.error);
    }
    var outAmount := TotalValue(output);
    if outAmount.Err? {
      return Err(outAmount.error);
    }
    var due := Checked(outAmount.value + fees);
    if due.Err? {
      return Err(due.error);
    }
    if inAmount.value < due.value {
      return Err(InsufficientReserve);
    }
    if |output| == 0 {
      return Err(NoValue);
    }
    var reserve := inAmount.value - due.value;
    output := ReserveSet(output, reserve);
    var body := TxBody(Tx(cp).lockTime, Prevouts(input), output);
    input := SetMessages(o, body, input);
    var tx := Tx(cp).(input := input, output := output);
    return Ok(Advanced(WithTx(cp, tx).(status := Signing), OutPoint(o.txid(body), 0), reserve,
                       excessInputs, excessOutputs));
  }
}
