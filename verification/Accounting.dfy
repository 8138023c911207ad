/**
  The accounting identity of the bridge. Measured in units, the net value of the building
  checkpoint (inputs minus outputs) covers the fee pool, the pending transfers and the
  circulating supply. `Slack` says exactly by how much each event moves the difference.
 */
module Accounting {
  import opened Common
  import opened BitcoinTypes
  import opened Transactions
  import opened Advance
  import opened CheckpointQueue
  import opened QueueInvariants
  import opened StepInvariants
  import opened StepOutcomes
  import opened Payouts
  import opened Bridge
  import opened BridgeInvariants
  import opened BridgeRun
  import opened DepositOutcomes
  import opened RunInvariants
  import opened PayoutOnce

  /** Satoshis in units, as repeated addition. */
  function Scale(units: nat, sats: int): int
    decreases if sats < 0 then -sats else sats
  {
    if sats == 0 then 0 else if sats > 0 then Scale(units, sats - 1) + units else Scale(units, sats + 1) - units
  }

  lemma {:induction false} ScaleProduct(units: nat, sats: int)
    ensures Scale(units, sats) == units * sats
    decreases if sats < 0 then -sats else sats
  {
    if sats > 0 {
      ScaleProduct(units, sats - 1);
    } else if sats < 0 {
      ScaleProduct(units, sats + 1);
    }
  }

  lemma ScaleSum(units: nat, a: int, b: int)
    ensures Scale(units, a + b) == Scale(units, a) + Scale(units, b)
  {
    ScaleProduct(units, a);
    ScaleProduct(units, b);
    ScaleProduct(units, a + b);
  }

  lemma ScaleTimes(units: nat, a: nat)
    ensures Scale(units, a) == Times(a, units)
    ensures Scale(units, 0 - a) == 0 - Times(a, units)
  {
    ScaleProduct(units, a);
    ScaleProduct(units, 0 - a);
  }

  /** Net value of the building checkpoint. */
  function Net(q: Queue): int {
    if q.cps == [] then 0 else InSum(Last(q)) - OutSum(Last(q))
  }

  function Backing(cfg: Config, s: State): int {
    Scale(cfg.unitsPerSat, Net(s.queue)) - s.feePool - PendingSum(s.queue, CoinAmount)
  }

  /** Backing less the supply, which is what was minted and not burnt. */
  function Balance(cfg: Config, w: World): int {
    Backing(cfg, w.st) - Supply(w.hist)
  }

  // ----- what moves the balance -----

  /** What the silent cast to a signed word changes: nothing below 2^63, else 2^64. */
  function Wrap(x: nat): (w: int)
    ensures x < U64 ==> 0 <= w
    ensures w == 0 <==> x < I64
  {
    x - AsI64(x)
  }

  /** What the cut to a machine word and to whole satoshis takes from a withdrawal. */
  function Rounding(cfg: Config, amount: nat, fee: nat): int
    requires cfg.unitsPerSat > 0
  {
    amount - fee - Scale(cfg.unitsPerSat, WithdrawalValue(cfg, SatSub(amount, fee)))
  }

  function WithdrawalFee(cfg: Config, q: Queue, script: Bytes): nat {
    if q.cps == [] then 0 else
    match UserFee(cfg, 9 + |script|, Last(q).feeRate)
    case Err(_) => 0
    case Ok(fee) => fee
  }

  function WithdrawSlack(o: Oracle, cfg: Config, s: State, script: Bytes, funds: seq<Coin>): int
    requires cfg.unitsPerSat > 0
  {
    if funds == [] then 0 else
    var front := WithdrawSlack(o, cfg, s, script, funds[..|funds| - 1]);
    match Withdraw(o, cfg, s, script, funds[..|funds| - 1])
    case Err(_) => front
    case Ok(before) =>
      var coin := funds[|funds| - 1];
      if coin.denom != cfg.denom then front else
      var fee := WithdrawalFee(cfg, before.0.queue, script);
      front + Rounding(cfg, coin.amount, fee) + Wrap(fee)
  }

  /** The miner fee of the checkpoint a step has frozen. */
  function Charged(q: Queue, q': Queue): nat {
    if q'.index > q.index && |q'.cps| >= 2
    then Difference(InSum(q'.cps[|q'.cps| - 2]), OutSum(q'.cps[|q'.cps| - 2])) else 0
  }

  function Difference(a: int, b: int): nat {
    if a >= b then a - b else 0
  }

  // ----- the fee a step will charge -----

  /** The fee that a due step charges: computed on the queue after push and prune. */
  function StepFee(o: Oracle, cfg: CheckpointConfig, q: Queue, b: Block, dep: bool): nat {
    if q.cps == [] || ShouldPush(o, cfg, q, b) != Ok(true) then 0 else
    match NextSigset(o, q, b)
    case Err(_) => 0
    case Ok(sigset) => PrunedFee(o, cfg, Prune(cfg.maxAge, PushedQueue(q, NewCheckpoint(sigset, dep))), q.index, b)
  }

  function PrunedFee(o: Oracle, cfg: CheckpointConfig, pruned: Result<Queue>, i: nat, b: Block): nat {
    if pruned.Err? then 0 else
    match CalcFee(o, cfg, pruned.value, i, b.commitment)
    case Err(_) => 0
    case Ok(fee) => fee
  }

  /** The fee that an end of block is about to charge, before the call. */
  function DueFee(o: Oracle, cfg: Config, s: State, b: Block): nat {
    match TakePendingCompleted(s.queue)
    case Err(_) => 0
    case Ok(taken) =>
      match BelowCapacity(cfg, taken.0)
      case Err(_) => 0
      case Ok(dep) => StepFee(o, cfg.checkpoint, taken.0, b, dep)
  }

  lemma ChargedIsStepFee(o: Oracle, cfg: Config, q: Queue, pool: int, b: Block, dep: bool, r: Stepped, out: Outcome)
    requires Describes(o, cfg, q, pool, b, dep, r, out)
    ensures Charged(q, r.queue) == StepFee(o, cfg.checkpoint, q, b, dep)
  {
    match out {
      case Idle =>
      case First(sigset) => FirstNet(q, r.queue, cfg.unitsPerSat);
      case Pushed(p) => FitsNet(o, q, r.queue, p);
    }
  }

  /** What a successful end of block charges is what was due before it. */
  lemma ChargedIsDue(o: Oracle, cfg: Config, s: State, b: Block, t: BlockStages, out: Outcome)
    requires TakePendingCompleted(s.queue) == Ok((t.taken, t.transfers)) && BelowCapacity(cfg, t.taken) == Ok(t.dep)
    requires Describes(o, cfg, t.taken, s.feePool, b, t.dep, t.stepped, out) && AllCleared(s.queue, t.taken)
    ensures Charged(s.queue, t.stepped.queue) == DueFee(o, cfg, s, b)
  {
    ClearedNet(s.queue, t.taken, t.stepped.queue);
    ChargedIsStepFee(o, cfg, t.taken, s.feePool, b, t.dep, t.stepped, out);
  }

  /** How an event moves the balance, from the state before it. */
  ghost function Slack(o: Oracle, cfg: Config, s: State, e: Event): int
    requires cfg.unitsPerSat > 0
  {
    match e
    case RelayDepositEvent(d) => DepositSlack(cfg, s, d)
    case WithdrawEvent(script, funds) => WithdrawSlack(o, cfg, s, script, funds)
    case EndBlockEvent(b, env) => EndBlockSlack(o, cfg, s, b, env)
    case _ => 0
  }

  ghost function DepositSlack(cfg: Config, s: State, d: Deposit): int {
    match DepositFee(cfg, s, d)
    case None => 0
    case Some(fee) => Wrap(fee)
  }

  ghost function EndBlockSlack(o: Oracle, cfg: Config, s: State, b: Block, env: PayoutEnv): int {
    DroppedAll(env, TakenAt(s)) - Wrap(Times(DueFee(o, cfg, s, b), cfg.unitsPerSat))
  }

  // ----- deposits -----

  lemma GrownNet(q: Queue, q': Queue, ins: seq<Input>, outs: seq<TxOut>, ts: seq<Transfer>)
    requires LastReplaced(q, q') && Grown(Last(q), Last(q'), ins, outs, ts)
    ensures Net(q') == Net(q) + Sum(ins, Amount) - Sum(outs, Value)
  {
    SumConcat(Tx(Last(q)).input, ins, Amount);
    SumConcat(Tx(Last(q)).output, outs, Value);
  }

  lemma EnteredBacking(cfg: Config, s: State, s': State, fee: nat, ins: seq<Input>, outs: seq<TxOut>,
                       ts: seq<Transfer>)
    requires Entered(cfg, s, s', fee, ins, outs, ts)
    ensures Backing(cfg, s') == Backing(cfg, s) + Scale(cfg.unitsPerSat, Sum(ins, Amount) - Sum(outs, Value))
                                - AsI64(fee) - Sum(ts, CoinAmount)
  {
    GrownNet(s.queue, s'.queue, ins, outs, ts);
    GrownPending(s.queue, s'.queue, ins, outs, ts, CoinAmount);
    ScaleSum(cfg.unitsPerSat, Net(s.queue), Sum(ins, Amount) - Sum(outs, Value));
  }

  lemma DepositBacking(o: Oracle, cfg: Config, s: State, d: Deposit, s': State)
    requires GoodConfig(cfg) && Shape(s.queue) && RelayDeposit(o, cfg, s, d) == Ok(s')
    ensures Moves(cfg, s, s', [], DepositSlack(cfg, s, d))
  {
    var t := DepositOutcome(o, cfg, s, d, s');
    if t.Taken? {
      EnteredBacking(cfg, s.(outpoints := s'.outpoints), s', t.fee, [t.input], [], [CreditOf(cfg, d, t.fee)]);
      SumSingle(t.input, Amount);
      SumSingle(CreditOf(cfg, d, t.fee), CoinAmount);
      ScaleTimes(cfg.unitsPerSat, d.output.value);
    }
  }

  // ----- withdrawals -----

  lemma WithdrawalBacking(o: Oracle, cfg: Config, s: State, script: Bytes, amount: nat, s': State)
    requires GoodConfig(cfg) && Shape(s.queue) && AddWithdrawal(o, cfg, s, script, amount) == Ok(s')
    ensures var fee := WithdrawalFee(cfg, s.queue, script);
            Backing(cfg, s') == Backing(cfg, s) - amount + Rounding(cfg, amount, fee) + Wrap(fee)
    ensures WithdrawalFee(cfg, s.queue, script) <= amount
  {
    var fee := WithdrawalEffect(o, cfg, s, script, amount, s');
    var out := Paid(cfg, amount, fee, script);
    EnteredBacking(cfg, s, s', fee, [], [out], []);
    SumSingle(out, Value);
    ScaleTimes(cfg.unitsPerSat, out.value);
  }

  lemma BurntOne(msgs: seq<Msg>, amount: nat)
    ensures Sum(msgs + [Burn(amount)], Burnt) == Sum(msgs, Burnt) + amount
    ensures Sum(msgs + [Burn(amount)], Minted) == Sum(msgs, Minted)
  {
    SumSnoc(msgs, Burn(amount), Burnt);
    SumSnoc(msgs, Burn(amount), Minted);
  }

  /** A withdrawal burns the coins it takes and mints nothing. */
  lemma {:induction false} WithdrawBacking(o: Oracle, cfg: Config, s: State, script: Bytes, funds: seq<Coin>)
    requires GoodConfig(cfg) && QueueInv(o, cfg.checkpoint, s.queue) && Withdraw(o, cfg, s, script, funds).Ok?
    ensures var done := Withdraw(o, cfg, s, script, funds).value;
            Moves(cfg, s, done.0, done.1, WithdrawSlack(o, cfg, s, script, funds)) && Sum(done.1, Minted) == 0
    decreases |funds|
  {
    if funds != [] {
      var n := |funds| - 1;
      WithdrawBacking(o, cfg, s, script, funds[..n]);
      if funds[n].denom == cfg.denom {
        WithdrawKeepsQueue(o, cfg, s, script, funds[..n]);
        var before := Withdraw(o, cfg, s, script, funds[..n]).value;
        var s2 := AddWithdrawal(o, cfg, before.0, script, funds[n].amount).value;
        WithdrawalBacking(o, cfg, before.0, script, funds[n].amount, s2);
        BurntOne(before.1, funds[n].amount);
      }
    }
  }

  // ----- steps -----

  /** Freezing pays exactly its fee out of the net value. */
  lemma FitsNet(o: Oracle, q: Queue, r: Queue, p: StepParts)
    requires Fits(o, q, p.advanced, p.next, p.fees) && Follows(q, r, p.popped, p.advanced.cp, p.next)
    ensures Net(r) == Net(q) - p.fees && Charged(q, r) == p.fees
  {
  }

  /** A step moves units from the net value to the miners, and out of the fee pool. */
  lemma StepBacking(o: Oracle, cfg: Config, q: Queue, pool: int, b: Block, dep: bool, r: Stepped, out: Outcome)
    requires Describes(o, cfg, q, pool, b, dep, r, out)
    ensures Scale(cfg.unitsPerSat, Net(r.queue)) - r.feePool
         == Scale(cfg.unitsPerSat, Net(q)) - pool - Wrap(Times(Charged(q, r.queue), cfg.unitsPerSat))
  {
    match out {
      case Idle => assert Times(0, cfg.unitsPerSat) == 0;
      case First(sigset) => FirstNet(q, r.queue, cfg.unitsPerSat);
      case Pushed(p) => PushBacking(o, cfg.unitsPerSat, q, pool, r, p);
    }
  }

  lemma FirstNet(q: Queue, r: Queue, units: nat)
    requires q.cps == [] && |r.cps| == 1 && Tx(r.cps[0]) == EMPTY_TX
    ensures Net(r) == Net(q) && Charged(q, r) == 0 && Times(0, units) == 0
  {
  }

  lemma PushBacking(o: Oracle, units: nat, q: Queue, pool: int, r: Stepped, p: StepParts)
    requires Pushes(o, units, q, pool, r, p)
    ensures Scale(units, Net(r.queue)) - r.feePool
         == Scale(units, Net(q)) - pool - Wrap(Times(Charged(q, r.queue), units))
  {
    FitsNet(o, q, r.queue, p);
    ScaleSum(units, Net(q), 0 - p.fees);
    ScaleTimes(units, p.fees);
  }

  lemma ClearedNet(q: Queue, q': Queue, r: Queue)
    requires AllCleared(q, q')
    ensures Net(q') == Net(q) && Charged(q', r) == Charged(q, r)
    ensures q.cps != [] ==> InSum(Last(q')) == InSum(Last(q))
  {
    if q.cps != [] {
      assert Cleared(q.cps[|q.cps| - 1], q'.cps[|q.cps| - 1]);
    }
  }

  lemma {:induction false} PayoutBurnsNothing(env: PayoutEnv, ts: seq<Transfer>)
    requires PayoutMsgs(env, ts).Ok?
    ensures Sum(PayoutMsgs(env, ts).value, Burnt) == 0
  {
    if ts != [] {
      var n := |ts| - 1;
      PayoutBurnsNothing(env, ts[..n]);
      var front, last := PayoutMsgs(env, ts[..n]).value, TransferMsgs(env, ts[n]).value;
      SumToZero(last, |last|, Burnt);
      SumConcat(front, last, Burnt);
    }
  }

  lemma BlockBacking(o: Oracle, cfg: Config, q: Queue, taken: Queue, ts: seq<Transfer>, pool: int, b: Block, dep: bool,
                     r: Stepped, out: Outcome)
    requires AllCleared(q, taken) && Describes(o, cfg, taken, pool, b, dep, r, out)
    requires PendingSum(taken, CoinAmount) + Sum(ts, CoinAmount) == PendingSum(q, CoinAmount)
    ensures Scale(cfg.unitsPerSat, Net(r.queue)) - r.feePool - PendingSum(r.queue, CoinAmount)
         == Scale(cfg.unitsPerSat, Net(q)) - pool - PendingSum(q, CoinAmount) + Sum(ts, CoinAmount)
            - Wrap(Times(Charged(q, r.queue), cfg.unitsPerSat))
  {
    StepPending(o, cfg, taken, pool, b, dep, r, out, CoinAmount);
    StepBacking(o, cfg, taken, pool, b, dep, r, out);
    ClearedNet(q, taken, r.queue);
  }

  lemma EndBlockBacking(o: Oracle, cfg: Config, s: State, b: Block, env: PayoutEnv, s': State, msgs: seq<Msg>)
    requires GoodConfig(cfg) && QueueInv(o, cfg.checkpoint, s.queue)
    requires ClockEndBlock(o, cfg, s, b, env) == Ok((s', msgs))
    ensures Moves(cfg, s, s', msgs, EndBlockSlack(o, cfg, s, b, env))
  {
    var t, out := EndBlockOutcome(o, cfg, s, b, env);
    if LastCompletedIndex(s.queue).Err? {
      NoneCompleted(s.queue);
    }
    TakeCompletedMoves(s.queue, (t.taken, t.transfers), CoinAmount);
    BlockBacking(o, cfg, s.queue, t.taken, t.transfers, s.feePool, b, t.dep, t.stepped, out);
    ChargedIsDue(o, cfg, s, b, t, out);
    PayoutMints(env, t.transfers);
    PayoutBurnsNothing(env, t.transfers);
  }

  // ----- events and runs -----

  /** The backing, less what is minted and plus what is burnt, moves by `slack`. */
  ghost predicate Moves(cfg: Config, s: State, s': State, msgs: seq<Msg>, slack: int) {
    Backing(cfg, s') - Sum(msgs, Minted) + Sum(msgs, Burnt) == Backing(cfg, s) + slack
  }

  lemma SameBacking(cfg: Config, s: State, s': State)
    requires Net(s'.queue) == Net(s.queue) && s'.feePool == s.feePool
    requires PendingSum(s'.queue, CoinAmount) == PendingSum(s.queue, CoinAmount)
    ensures Moves(cfg, s, s', [], 0)
  {
  }

  lemma EventBacking(o: Oracle, cfg: Config, s: State, e: Event, s': State, msgs: seq<Msg>)
    requires GoodConfig(cfg) && StateInv(o, cfg, s) && Execute(o, cfg, s, e) == Ok((s', msgs))
    ensures Moves(cfg, s, s', msgs, Slack(o, cfg, s, e))
  {
    match e {
      case RelayDepositEvent(d) =>
        DepositBacking(o, cfg, s, d, s');
      case WithdrawEvent(script, funds) =>
        WithdrawBacking(o, cfg, s, script, funds);
      case EndBlockEvent(b, env) =>
        EndBlockBacking(o, cfg, s, b, env, s', msgs);
      case _ =>
        QuietBacking(o, cfg, s, e, s', msgs);
    }
  }

  /** Confirmations and signatures move no value. */
  lemma QuietBacking(o: Oracle, cfg: Config, s: State, e: Event, s': State, msgs: seq<Msg>)
    requires GoodConfig(cfg) && StateInv(o, cfg, s) && Execute(o, cfg, s, e) == Ok((s', msgs))
    requires e.RelayCheckpointEvent? || e.SignEvent? || e.SignRecoveryEvent?
    ensures msgs == [] && Moves(cfg, s, s', [], 0)
  {
    match e {
      case SignEvent(xpub, sigs, i, h) =>
        SignBacking(o, cfg, s, xpub, sigs, i, h, s');
      case RelayCheckpointEvent(i, proven) =>
        ConfirmBacking(cfg, s, i, proven, s');
      case SignRecoveryEvent(xpub, sigs) =>
        SameBacking(cfg, s, s');
    }
  }

  lemma ConfirmBacking(cfg: Config, s: State, i: nat, proven: bool, s': State)
    requires RelayCheckpoint(s, i, proven) == Ok(s')
    ensures Moves(cfg, s, s', [], 0)
  {
    assert s'.queue.cps == s.queue.cps;
    SameBacking(cfg, s, s');
  }

  lemma SignBacking(o: Oracle, cfg: Config, s: State, xpub: Xpub, sigs: seq<Signature>, i: nat, h: nat, s': State)
    requires QueueInv(o, cfg.checkpoint, s.queue) && SignAt(o, s.queue, xpub, sigs, i, h) == Ok(s'.queue)
    requires s' == s.(queue := s'.queue)
    ensures Moves(cfg, s, s', [], 0)
  {
    SignPending(o, cfg.checkpoint, s.queue, xpub, sigs, i, h, CoinAmount);
    SignNet(o, s.queue, xpub, sigs, i, h, s'.queue);
    SameBacking(cfg, s, s');
  }

  /** The building checkpoint cannot be signed. */
  lemma SignNet(o: Oracle, q: Queue, xpub: Xpub, sigs: seq<Signature>, i: nat, h: nat, q': Queue)
    requires Ordered(q) && SignAt(o, q, xpub, sigs, i, h) == Ok(q')
    ensures Net(q') == Net(q)
  {
    var k, n := i - Start(q), |q.cps|;
    assert StatusFits(q.cps[k].status, k, n);
    assert q'.cps[n - 1] == q.cps[n - 1];
  }

  ghost function EventSlack(o: Oracle, cfg: Config, s: State, e: Event): int
    requires cfg.unitsPerSat > 0
  {
    match Execute(o, cfg, s, e)
    case Err(_) => 0
    case Ok(done) => Slack(o, cfg, s, e)
  }

  ghost function RunSlack(o: Oracle, cfg: Config, es: seq<Event>): int
    requires cfg.unitsPerSat > 0
  {
    if es == [] then 0 else
    RunSlack(o, cfg, es[..|es| - 1]) + EventSlack(o, cfg, Run(o, cfg, START, es[..|es| - 1]).st, es[|es| - 1])
  }

  lemma EventBalance(o: Oracle, cfg: Config, w: World, e: Event)
    requires GoodConfig(cfg) && StateInv(o, cfg, w.st)
    ensures Balance(cfg, Apply(o, cfg, w, e)) == Balance(cfg, w) + EventSlack(o, cfg, w.st, e)
  {
    match Execute(o, cfg, w.st, e) {
      case Err(_) =>
      case Ok(done) =>
        EventBacking(o, cfg, w.st, e, done.0, done.1);
        SumConcat(w.hist.messages, done.1, Minted);
        SumConcat(w.hist.messages, done.1, Burnt);
    }
  }

  lemma StartBalance(cfg: Config)
    ensures Balance(cfg, START) == 0
  {
  }

  /** The accounting identity: after every run the balance is exactly what the events left. */
  lemma {:induction false} RunBalance(o: Oracle, cfg: Config, es: seq<Event>)
    requires GoodConfig(cfg) && HonestRun(o, cfg, START, es)
    ensures Balance(cfg, Run(o, cfg, START, es)) == RunSlack(o, cfg, es)
    decreases |es|
  {
    if es == [] {
      StartBalance(cfg);
    } else {
      var before := es[..|es| - 1];
      RunBalance(o, cfg, before);
      RunKeepsInv(o, cfg, before);
      EventBalance(o, cfg, Run(o, cfg, START, before), es[|es| - 1]);
    }
  }

  // ----- the slack is never negative -----

  /** A withdrawal loses nothing exactly when it fits a word and is whole satoshis. */
  lemma RoundingExact(cfg: Config, amount: nat, fee: nat)
    requires cfg.unitsPerSat > 0 && fee <= amount
    ensures 0 <= Rounding(cfg, amount, fee)
    ensures Rounding(cfg, amount, fee) == 0 <==> amount - fee < U64 && (amount - fee) % cfg.unitsPerSat == 0
  {
    var left := amount - fee;
    var word := left % U64;
    WordOf(left);
    ScaleProduct(cfg.unitsPerSat, word / cfg.unitsPerSat);
    assert Scale(cfg.unitsPerSat, word / cfg.unitsPerSat) == word - word % cfg.unitsPerSat;
  }

  lemma WordOf(x: nat)
    ensures 0 <= x % U64 <= x
    ensures x % U64 == x <==> x < U64
  {
  }

  lemma {:induction false} WithdrawSlackNonNegative(o: Oracle, cfg: Config, s: State, script: Bytes, funds: seq<Coin>)
    requires GoodConfig(cfg) && QueueInv(o, cfg.checkpoint, s.queue) && Withdraw(o, cfg, s, script, funds).Ok?
    ensures WithdrawSlack(o, cfg, s, script, funds) >= 0
    decreases |funds|
  {
    if funds != [] {
      var n := |funds| - 1;
      WithdrawSlackNonNegative(o, cfg, s, script, funds[..n]);
      if funds[n].denom == cfg.denom {
        WithdrawKeepsQueue(o, cfg, s, script, funds[..n]);
        var before := Withdraw(o, cfg, s, script, funds[..n]).value.0;
        var s2 := AddWithdrawal(o, cfg, before, script, funds[n].amount).value;
        WithdrawalBacking(o, cfg, before, script, funds[n].amount, s2);
        var fee := WithdrawalFee(cfg, before.queue, script);
        RoundingExact(cfg, funds[n].amount, fee);
      }
    }
  }

  /** An end of block that will succeed has a fee due that fits a signed word. */
  predicate FeeFits(o: Oracle, cfg: Config, s: State, e: Event)
    requires cfg.unitsPerSat > 0
  {
    e.EndBlockEvent? && Execute(o, cfg, s, e).Ok? ==> Times(DueFee(o, cfg, s, e.block), cfg.unitsPerSat) < I64
  }

  /**
    An event lowers the balance exactly when it is a successful end of block, and what the
    cast of its due fee wraps exceeds what its payouts drop. A fee wraps exactly from 2^63
    units on, and then by 2^64.
   */
  lemma SlackNegative(o: Oracle, cfg: Config, s: State, e: Event)
    requires GoodConfig(cfg) && StateInv(o, cfg, s)
    ensures EventSlack(o, cfg, s, e) < 0 <==>
            && e.EndBlockEvent? && Execute(o, cfg, s, e).Ok?
            && Wrap(Times(DueFee(o, cfg, s, e.block), cfg.unitsPerSat)) > DroppedAll(e.env, TakenAt(s))
    ensures FeeFits(o, cfg, s, e) ==> EventSlack(o, cfg, s, e) >= 0
  {
    if Execute(o, cfg, s, e).Ok? {
      match e {
        case RelayDepositEvent(d) =>
          var t := DepositOutcome(o, cfg, s, d, RelayDeposit(o, cfg, s, d).value);
        case WithdrawEvent(script, funds) =>
          WithdrawSlackNonNegative(o, cfg, s, script, funds);
        case EndBlockEvent(b, env) =>
          var t := EndBlockStages(o, cfg, s, b, env);
          PayoutMints(env, t.transfers);
        case _ =>
      }
    }
  }

  lemma TimesMonotone(a: nat, b: int, units: nat)
    requires a <= b
    ensures Times(a, units) <= Scale(units, b)
  {
    ScaleProduct(units, b);
    assert a * units <= b * units;
  }

  /** It is enough that the inputs of the building checkpoint fit a signed word. */
  lemma BuildingBoundsFee(o: Oracle, cfg: Config, s: State, e: Event)
    requires GoodConfig(cfg) && StateInv(o, cfg, s)
    requires s.queue.cps == [] || Scale(cfg.unitsPerSat, InSum(Last(s.queue))) < I64
    ensures FeeFits(o, cfg, s, e)
  {
    if e.EndBlockEvent? && Execute(o, cfg, s, e).Ok? {
      var t, out := EndBlockOutcome(o, cfg, s, e.block, e.env);
      ClearedNet(s.queue, t.taken, t.stepped.queue);
      ChargedIsDue(o, cfg, s, e.block, t, out);
      BoundedFee(o, cfg, t.taken, s.feePool, e.block, t.dep, t.stepped, out);
    }
  }

  lemma BoundedFee(o: Oracle, cfg: Config, q: Queue, pool: int, b: Block, dep: bool, r: Stepped, out: Outcome)
    requires Describes(o, cfg, q, pool, b, dep, r, out)
    requires q.cps == [] || Scale(cfg.unitsPerSat, InSum(Last(q))) < I64
    ensures Times(Charged(q, r.queue), cfg.unitsPerSat) < I64
  {
    match out {
      case Idle => assert Times(0, cfg.unitsPerSat) == 0;
      case First(sigset) => FirstNet(q, r.queue, cfg.unitsPerSat);
      case Pushed(p) =>
        FitsNet(o, q, r.queue, p);
        FeeWithinInputs(o, q, p);
        TimesMonotone(p.fees, InSum(Last(q)), cfg.unitsPerSat);
    }
  }

  lemma FeeWithinInputs(o: Oracle, q: Queue, p: StepParts)
    requires Fits(o, q, p.advanced, p.next, p.fees)
    ensures p.fees <= InSum(Last(q))
  {
    SumNonNegative(p.advanced.excessInputs, Amount);
    SumNonNegative(Tx(p.advanced.cp).output, Value);
  }

  predicate FeesFit(o: Oracle, cfg: Config, es: seq<Event>)
    requires cfg.unitsPerSat > 0
  {
    es == [] ||
    (FeesFit(o, cfg, es[..|es| - 1]) && FeeFits(o, cfg, Run(o, cfg, START, es[..|es| - 1]).st, es[|es| - 1]))
  }

  /** Solvency: the bridge always backs its fee pool, pending transfers and supply. */
  lemma {:induction false} RunSolvent(o: Oracle, cfg: Config, es: seq<Event>)
    requires GoodConfig(cfg) && HonestRun(o, cfg, START, es) && FeesFit(o, cfg, es)
    ensures Balance(cfg, Run(o, cfg, START, es)) >= 0
    decreases |es|
  {
    if es == [] {
      StartBalance(cfg);
    } else {
      var before := es[..|es| - 1];
      var w := Run(o, cfg, START, before);
      RunSolvent(o, cfg, before);
      RunKeepsInv(o, cfg, before);
      EventBalance(o, cfg, w, es[|es| - 1]);
      SlackNegative(o, cfg, w.st, es[|es| - 1]);
    }
  }
}
