/**
  Who is paid. For every address, what the messages of a payout mint to it is what the paid
  transfers owe it: the receiver's share where it is the receiver, the relayer's share where it
  collects relayer fees, the token fee where it collects those.
 */
module Receivers {
  import opened Common
  import opened BitcoinTypes
  import opened Transactions
  import opened CheckpointQueue
  import opened Payouts
  import opened Bridge
  import opened BridgeRun
  import opened RunInvariants

  // ----- the shares of a coin -----

  /** What is left of an amount after a fee. */
  function Remainder(amount: nat, fee: nat): nat {
    if fee <= amount then amount - fee else 0
  }

  /** The ratio in 18 digits. */
  function Digits(ratio: Ratio): nat
    requires ratio.denominator > 0
  {
    ratio.nominator * 1_000_000_000_000_000_000 / ratio.denominator
  }

  /** The token fee of an amount: nothing without a ratio or a denominator. */
  function TokenFee(env: PayoutEnv, amount: nat): nat {
    match env.tokenFee
    case None => 0
    case Some(ratio) => if ratio.denominator == 0 then 0 else amount * Digits(ratio) / 1_000_000_000_000_000_000
  }

  /** The relayer gets its fee, or everything when that is more than what the token fee leaves. */
  function RelayerFee(env: PayoutEnv, amount: nat): nat {
    var left := Remainder(amount, TokenFee(env, amount));
    if env.relayerFee < left then env.relayerFee else left
  }

  /** The receiver gets the rest. */
  function Share(env: PayoutEnv, amount: nat): nat {
    Remainder(amount, TokenFee(env, amount) + RelayerFee(env, amount))
  }

  /** The ratio and the fee fit 128 bits. */
  predicate FeeInRange(env: PayoutEnv, amount: nat) {
    match env.tokenFee
    case None => true
    case Some(ratio) =>
      ratio.denominator > 0 ==> Digits(ratio) < U128 && TokenFee(env, amount) < U128
  }

  /** Which share is which, and when the split fails: when the token fee exceeds the amount or does
      not fit the machine. */
  lemma SplitMeans(env: PayoutEnv, amount: nat)
    ensures SplitCoin(env, amount).Ok? ==>
              && SplitCoin(env, amount).value == FeeData(Share(env, amount), TokenFee(env, amount), RelayerFee(env, amount))
              && TokenFee(env, amount) <= amount
    ensures SplitCoin(env, amount).Ok? <==> TokenFee(env, amount) <= amount && FeeInRange(env, amount)
  {
  }

  // ----- who receives -----

  /** The address that gets the receiver's share: the address itself, the sender where no swap is
      possible, else the bridge, which swaps it; nobody for an unsupported port. */
  function Receiver(env: PayoutEnv, dest: Dest): Option<string> {
    match dest
    case Address(addr) => Some(addr)
    case Ibc(port, _, sender, timeout) =>
      if Swaps(env, dest) then Some(env.contract)
      else if !env.hasEntryPoint || timeout < env.nanos then Some(sender)
      else None
  }

  /** A swap is possible: there is an entry point, the transfer has not timed out, and its port is
      the transfer port. */
  predicate Swaps(env: PayoutEnv, dest: Dest) {
    dest.Ibc? && env.hasEntryPoint && env.nanos <= dest.timeout && dest.sourcePort == "transfer"
  }

  /** What a paid transfer owes to an address. */
  function Owed(a: string): Payout -> int {
    (p: Payout) =>
      (if Receiver(p.env, p.transfer.dest) == Some(a) then Share(p.env, p.transfer.coin.amount) else 0)
      + (if p.env.relayerFeeReceiver == a then RelayerFee(p.env, p.transfer.coin.amount) else 0)
      + (if p.env.tokenFeeReceiver == a then TokenFee(p.env, p.transfer.coin.amount) else 0)
  }

  function OwedSwap(p: Payout): int {
    if Swaps(p.env, p.transfer.dest) then Share(p.env, p.transfer.coin.amount) else 0
  }

  /** What a message mints to an address. */
  function MintedTo(a: string): Msg -> int {
    (m: Msg) => if m.Mint? && m.to == a then m.amount else 0
  }

  function Swapped(m: Msg): int {
    if m.Swap? then m.amount else 0
  }

  lemma TwoMessages(x: Msg, y: Msg, f: Msg -> int)
    ensures Sum([x, y], f) == f(x) + f(y)
  {
    assert [x, y] == [x] + [y];
    SumCons(x, [y], f);
    SumSingle(y, f);
  }

  lemma DestMints(env: PayoutEnv, dest: Dest, amount: nat, a: string)
    ensures Sum(DestMsgs(env, dest, amount), MintedTo(a)) == if Receiver(env, dest) == Some(a) then amount else 0
    ensures Sum(DestMsgs(env, dest, amount), Swapped) == if Swaps(env, dest) then amount else 0
  {
    var msgs := DestMsgs(env, dest, amount);
    if |msgs| == 1 {
      SumSingle(msgs[0], MintedTo(a));
      SumSingle(msgs[0], Swapped);
    } else if |msgs| == 2 {
      TwoMessages(msgs[0], msgs[1], MintedTo(a));
      TwoMessages(msgs[0], msgs[1], Swapped);
    }
  }

  lemma FeeMints(to: string, amount: nat, a: string)
    ensures Sum(FeeMsg(to, amount), MintedTo(a)) == if to == a then amount else 0
    ensures Sum(FeeMsg(to, amount), Swapped) == 0
  {
    if amount > 0 {
      SumSingle(Mint(to, amount), MintedTo(a));
      SumSingle(Mint(to, amount), Swapped);
    }
  }

  lemma ThreeParts(x: seq<Msg>, y: seq<Msg>, z: seq<Msg>, f: Msg -> int)
    ensures Sum(x + y + z, f) == Sum(x, f) + Sum(y, f) + Sum(z, f)
  {
    SumConcat(x + y, z, f);
    SumConcat(x, y, f);
  }

  /** One transfer pays everyone what it owes. */
  lemma TransferPays(env: PayoutEnv, t: Transfer, a: string)
    requires TransferMsgs(env, t).Ok?
    ensures Sum(TransferMsgs(env, t).value, MintedTo(a)) == Owed(a)(Payout(env, t))
    ensures Sum(TransferMsgs(env, t).value, Swapped) == OwedSwap(Payout(env, t))
  {
    var f := SplitCoin(env, t.coin.amount).value;
    var x, y, z := DestMsgs(env, t.dest, f.deducted), FeeMsg(env.relayerFeeReceiver, f.relayerFee),
                   FeeMsg(env.tokenFeeReceiver, f.tokenFee);
    SplitMeans(env, t.coin.amount);
    DestMints(env, t.dest, f.deducted, a);
    FeeMints(env.relayerFeeReceiver, f.relayerFee, a);
    FeeMints(env.tokenFeeReceiver, f.tokenFee, a);
    ThreeParts(x, y, z, MintedTo(a));
    ThreeParts(x, y, z, Swapped);
  }

  /** The messages of a block pay everyone what the taken transfers owe, and swap as much as is
      minted for swapping. */
  lemma {:induction false} PayoutPays(env: PayoutEnv, ts: seq<Transfer>, a: string)
    requires PayoutMsgs(env, ts).Ok?
    ensures Sum(PayoutMsgs(env, ts).value, MintedTo(a)) == Sum(PaidAt(env, ts), Owed(a))
    ensures Sum(PayoutMsgs(env, ts).value, Swapped) == Sum(PaidAt(env, ts), OwedSwap)
  {
    if ts != [] {
      var n := |ts| - 1;
      PayoutPays(env, ts[..n], a);
      TransferPays(env, ts[n], a);
      var front, last := PayoutMsgs(env, ts[..n]).value, TransferMsgs(env, ts[n]).value;
      SumConcat(front, last, MintedTo(a));
      SumConcat(front, last, Swapped);
      assert PaidAt(env, ts) == PaidAt(env, ts[..n]) + [Payout(env, ts[n])];
      SumSnoc(PaidAt(env, ts[..n]), Payout(env, ts[n]), Owed(a));
      SumSnoc(PaidAt(env, ts[..n]), Payout(env, ts[n]), OwedSwap);
    }
  }

  // ----- runs -----

  /** Everyone has been minted what the paid transfers owed, and what was to be swapped was. */
  ghost predicate PaidOut(hist: History, a: string) {
    && Sum(hist.messages, MintedTo(a)) == Sum(hist.paid, Owed(a))
    && Sum(hist.messages, Swapped) == Sum(hist.paid, OwedSwap)
  }

  lemma {:induction false} WithdrawMintsNothing(o: Oracle, cfg: Config, s: State, script: Bytes, funds: seq<Coin>, a: string)
    requires cfg.unitsPerSat > 0 && Withdraw(o, cfg, s, script, funds).Ok?
    ensures Sum(Withdraw(o, cfg, s, script, funds).value.1, MintedTo(a)) == 0
    ensures Sum(Withdraw(o, cfg, s, script, funds).value.1, Swapped) == 0
    decreases |funds|
  {
    if funds != [] {
      var n := |funds| - 1;
      WithdrawMintsNothing(o, cfg, s, script, funds[..n], a);
      var front := Withdraw(o, cfg, s, script, funds[..n]).value.1;
      SumSnoc(front, Burn(funds[n].amount), MintedTo(a));
      SumSnoc(front, Burn(funds[n].amount), Swapped);
    }
  }

  lemma MorePaidOut(hist: History, h: History, msgs: seq<Msg>, paid: seq<Payout>, a: string)
    requires PaidOut(hist, a) && h.messages == hist.messages + msgs && h.paid == hist.paid + paid
    requires Sum(msgs, MintedTo(a)) == Sum(paid, Owed(a)) && Sum(msgs, Swapped) == Sum(paid, OwedSwap)
    ensures PaidOut(h, a)
  {
    SumConcat(hist.messages, msgs, MintedTo(a));
    SumConcat(hist.messages, msgs, Swapped);
    SumConcat(hist.paid, paid, Owed(a));
    SumConcat(hist.paid, paid, OwedSwap);
  }

  /** What an event hands out for payment. */
  function PaidBy(s: State, e: Event): seq<Payout> {
    if e.EndBlockEvent? then PaidAt(e.env, TakenAt(s)) else []
  }

  lemma EventPays(o: Oracle, cfg: Config, s: State, e: Event, s': State, msgs: seq<Msg>, a: string)
    requires GoodConfig(cfg) && Execute(o, cfg, s, e) == Ok((s', msgs))
    ensures Sum(msgs, MintedTo(a)) == Sum(PaidBy(s, e), Owed(a)) && Sum(msgs, Swapped) == Sum(PaidBy(s, e), OwedSwap)
  {
    match e {
      case WithdrawEvent(script, funds) =>
        WithdrawMintsNothing(o, cfg, s, script, funds, a);
      case EndBlockEvent(b, env) =>
        BlockPays(o, cfg, s, b, env, a);
      case _ =>
    }
  }

  lemma BlockPays(o: Oracle, cfg: Config, s: State, b: Block, env: PayoutEnv, a: string)
    requires ClockEndBlock(o, cfg, s, b, env).Ok?
    ensures var msgs := ClockEndBlock(o, cfg, s, b, env).value.1;
            && Sum(msgs, MintedTo(a)) == Sum(PaidAt(env, TakenAt(s)), Owed(a))
            && Sum(msgs, Swapped) == Sum(PaidAt(env, TakenAt(s)), OwedSwap)
  {
    var t := EndBlockStages(o, cfg, s, b, env);
    PayoutPays(env, t.transfers, a);
  }

  lemma RecordPaid(o: Oracle, cfg: Config, s: State, e: Event, s': State, msgs: seq<Msg>, hist: History)
    ensures var h := Record(o, cfg, s, e, s', msgs, hist);
            h.messages == hist.messages + msgs && h.paid == hist.paid + PaidBy(s, e)
  {
  }

  /**
    Over every run and for every address: what was minted to it is what the transfers paid so far
    owed it, each transfer ever inserted being paid once or pending once (`RunPaysOnce`).
   */
  lemma {:induction false} RunPaysEveryone(o: Oracle, cfg: Config, es: seq<Event>, a: string)
    requires GoodConfig(cfg) && HonestRun(o, cfg, START, es)
    ensures PaidOut(Run(o, cfg, START, es).hist, a)
    decreases |es|
  {
    if es != [] {
      var before, e := es[..|es| - 1], es[|es| - 1];
      RunPaysEveryone(o, cfg, before, a);
      var w := Run(o, cfg, START, before);
      var done := Execute(o, cfg, w.st, e);
      if done.Ok? {
        EventPays(o, cfg, w.st, e, done.value.0, done.value.1, a);
        RecordPaid(o, cfg, w.st, e, done.value.0, done.value.1, w.hist);
        MorePaidOut(w.hist, Run(o, cfg, START, es).hist, done.value.1, PaidBy(w.st, e), a);
      }
    }
  }
}
