/** Paying out pending transfers: the three-way split of a coin and the messages it emits. */
module Payouts {
  import opened Common
  import opened BitcoinTypes
  import opened Transactions

  const DECIMAL: nat := 1_000_000_000_000_000_000
  const U128: nat := 0x1_0000_0000_0000_0000_0000_0000_0000_0000

  datatype Ratio = Ratio(nominator: nat, denominator: nat)

  /** What the payout of a block depends on: the token fee ratio, the relayer fee as the
      swap simulation quotes it, the fee receivers, whether a swap entry point is set, and
      the block time. */
  datatype PayoutEnv = PayoutEnv(
    tokenFee: Option<Ratio>,
    relayerFee: nat,
    relayerFeeReceiver: string,
    tokenFeeReceiver: string,
    contract: string,
    hasEntryPoint: bool,
    nanos: nat)

  datatype FeeData = FeeData(deducted: nat, tokenFee: nat, relayerFee: nat)

  datatype Msg = Mint(to: string, amount: nat) | Swap(amount: nat) | Burn(amount: nat)

  /** `amount` times the ratio as an 18-digit decimal, rounded down twice. */
  function RatioFee(ratio: Ratio, amount: nat): Result<nat> {
    if ratio.denominator == 0 then Ok(0) else
    var decimal := ratio.nominator * DECIMAL / ratio.denominator;
    if decimal >= U128 || amount * decimal / DECIMAL >= U128 then Err(Overflow)
    else Ok(amount * decimal / DECIMAL)
  }

  /** `deduct_token_fee`: what is left and the fee; a fee above the amount is refused. */
  function DeductTokenFee(ratio: Option<Ratio>, amount: nat): (r: Result<(nat, nat)>)
    ensures r.Ok? ==> r.value.0 + r.value.1 == amount
  {
    match ratio
    case None => Ok((amount, 0))
    case Some(ratio) =>
      var fee :- RatioFee(ratio, amount);
      if fee > amount then Err(Overflow) else Ok((amount - fee, fee))
  }

  /** `process_deduct_fee`: the coin goes to the receiver, the token fee and the relayer
      fee, without remainder; a share that would be empty is absorbed by the fee that ate it. */
  method ProcessDeductFee(env: PayoutEnv, amount: nat) returns (r: Result<FeeData>)
    ensures r == SplitCoin(env, amount)
  {
    var tokenStep := DeductTokenFee(env.tokenFee, amount);
    if tokenStep.Err? {
      return Err(tokenStep.error);
    }
    var (deducted, tokenFee) := tokenStep.value;
    var feeData := FeeData(deducted, tokenFee, 0);
    if deducted == 0 {
      feeData := feeData.(tokenFee := amount);
      return Ok(feeData);
    }
    feeData := feeData.(deducted := SatSub(deducted, env.relayerFee));
    feeData := feeData.(relayerFee := env.relayerFee);
    if feeData.deducted == 0 {
      feeData := feeData.(relayerFee := deducted);
    }
    return Ok(feeData);
  }

  function SplitCoin(env: PayoutEnv, amount: nat): Result<FeeData> {
    var step :- DeductTokenFee(env.tokenFee, amount);
    if step.0 == 0 then Ok(FeeData(0, amount, 0))
    else if step.0 <= env.relayerFee then Ok(FeeData(0, step.1, step.0))
    else Ok(FeeData(step.0 - env.relayerFee, step.1, env.relayerFee))
  }

  /** The three shares add up to the coin. */
  lemma SplitConserves(env: PayoutEnv, amount: nat)
    ensures SplitCoin(env, amount).Ok? ==>
              var f := SplitCoin(env, amount).value;
              f.deducted + f.tokenFee + f.relayerFee == amount
  {
  }

  /** Transfers whose mint is dropped: a swap is possible but the port is not supported. */
  predicate Skipped(env: PayoutEnv, dest: Dest) {
    dest.Ibc? && env.hasEntryPoint && dest.timeout >= env.nanos && dest.sourcePort != "transfer"
  }

  /** `build_cosmos_msg`. */
  function DestMsgs(env: PayoutEnv, dest: Dest, amount: nat): seq<Msg> {
    match dest
    case Address(addr) => [Mint(addr, amount)]
    case Ibc(port, _, sender, timeout) =>
      if !env.hasEntryPoint || timeout < env.nanos then [Mint(sender, amount)]
      else if port != "transfer" then []
      else [Mint(env.contract, amount), Swap(amount)]
  }

  function FeeMsg(to: string, amount: nat): seq<Msg> {
    if amount > 0 then [Mint(to, amount)] else []
  }

  function TransferMsgs(env: PayoutEnv, t: Transfer): Result<seq<Msg>> {
    var f :- SplitCoin(env, t.coin.amount);
    Ok(DestMsgs(env, t.dest, f.deducted) + FeeMsg(env.relayerFeeReceiver, f.relayerFee)
       + FeeMsg(env.tokenFeeReceiver, f.tokenFee))
  }

  function PayoutMsgs(env: PayoutEnv, ts: seq<Transfer>): Result<seq<Msg>> {
    if ts == [] then Ok([]) else
    var front :- PayoutMsgs(env, ts[..|ts| - 1]);
    var last :- TransferMsgs(env, ts[|ts| - 1]);
    Ok(front + last)
  }

  function Minted(m: Msg): int {
    if m.Mint? then m.amount else 0
  }

  function CoinAmount(t: Transfer): int {
    t.coin.amount
  }

  /** What a transfer leaves unminted. */
  ghost function Dropped(env: PayoutEnv, t: Transfer): int {
    if Skipped(env, t.dest) && SplitCoin(env, t.coin.amount).Ok?
    then SplitCoin(env, t.coin.amount).value.deducted else 0
  }

  lemma FeeMsgMints(to: string, amount: nat)
    ensures Sum(FeeMsg(to, amount), Minted) == amount
  {
    if amount > 0 {
      SumSingle(Mint(to, amount), Minted);
    }
  }

  lemma DestMsgsMint(env: PayoutEnv, dest: Dest, amount: nat)
    ensures Sum(DestMsgs(env, dest, amount), Minted) == if Skipped(env, dest) then 0 else amount
  {
    match dest {
      case Address(addr) => SumSingle(Mint(addr, amount), Minted);
      case Ibc(port, _, sender, timeout) =>
        SumSingle(Mint(sender, amount), Minted);
        var pair := [Mint(env.contract, amount), Swap(amount)];
        assert pair == [Mint(env.contract, amount)] + [Swap(amount)];
        SumCons(Mint(env.contract, amount), [Swap(amount)], Minted);
        SumSingle(Swap(amount), Minted);
    }
  }

  /** A transfer mints its whole coin, except what a skipped destination drops. */
  lemma TransferMints(env: PayoutEnv, t: Transfer)
    requires TransferMsgs(env, t).Ok?
    ensures Sum(TransferMsgs(env, t).value, Minted) == t.coin.amount - Dropped(env, t)
    ensures 0 <= Dropped(env, t) <= t.coin.amount
  {
    SplitConserves(env, t.coin.amount);
    var f := SplitCoin(env, t.coin.amount).value;
    var a, b, c := DestMsgs(env, t.dest, f.deducted), FeeMsg(env.relayerFeeReceiver, f.relayerFee),
                   FeeMsg(env.tokenFeeReceiver, f.tokenFee);
    DestMsgsMint(env, t.dest, f.deducted);
    FeeMsgMints(env.relayerFeeReceiver, f.relayerFee);
    FeeMsgMints(env.tokenFeeReceiver, f.tokenFee);
    SumConcat(a + b, c, Minted);
    SumConcat(a, b, Minted);
  }

  ghost function DroppedAll(env: PayoutEnv, ts: seq<Transfer>): int {
    if ts == [] then 0 else DroppedAll(env, ts[..|ts| - 1]) + Dropped(env, ts[|ts| - 1])
  }

  lemma {:induction false} PayoutMints(env: PayoutEnv, ts: seq<Transfer>)
    requires PayoutMsgs(env, ts).Ok?
    ensures Sum(PayoutMsgs(env, ts).value, Minted) == Sum(ts, CoinAmount) - DroppedAll(env, ts)
    ensures DroppedAll(env, ts) >= 0
  {
    if ts != [] {
      var n := |ts| - 1;
      PayoutMints(env, ts[..n]);
      TransferMints(env, ts[n]);
      SumConcat(PayoutMsgs(env, ts[..n]).value, TransferMsgs(env, ts[n]).value, Minted);
      SumSnoc(ts[..n], ts[n], CoinAmount);
      assert ts == ts[..n] + [ts[n]];
    }
  }

  /** The payout loop of `clock_end_block`. */
  method PayOut(env: PayoutEnv, ts: seq<Transfer>) returns (r: Result<seq<Msg>>)
    ensures r == PayoutMsgs(env, ts)
  {
    var msgs := [];
    for i := 0 to |ts|
      invariant PayoutMsgs(env, ts[..i]) == Ok(msgs)
    {
      assert ts[..i + 1][..i] == ts[..i];
      var feeData := ProcessDeductFee(env, ts[i].coin.amount);
      if feeData.Err? {
        PayoutFails(env, ts, i + 1);
        return Err(feeData.error);
      }
      ghost var before := msgs;
      msgs := msgs + DestMsgs(env, ts[i].dest, feeData.value.deducted);
      if feeData.value.relayerFee > 0 {
        msgs := msgs + [Mint(env.relayerFeeReceiver, feeData.value.relayerFee)];
      }
      if feeData.value.tokenFee > 0 {
        msgs := msgs + [Mint(env.tokenFeeReceiver, feeData.value.tokenFee)];
      }
      assert msgs == before + TransferMsgs(env, ts[i]).value;
    }
    assert ts[..|ts|] == ts;
    return Ok(msgs);
  }

  lemma {:induction false} PayoutFails(env: PayoutEnv, ts: seq<Transfer>, k: nat)
    requires k <= |ts| && PayoutMsgs(env, ts[..k]).Err?
    ensures PayoutMsgs(env, ts) == PayoutMsgs(env, ts[..k])
  {
    if k < |ts| {
      assert ts[..|ts| - 1][..k] == ts[..k];
      PayoutFails(env, ts[..|ts| - 1], k);
    } else {
      assert ts[..k] == ts;
    }
  }
}
