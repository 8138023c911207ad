/**
  An insolvent run: with 10^14 units per satoshi, an end of block past the maximum interval
  charges a fee of 2^63 units or more, and the balance ends below zero.
 */
module SampleInsolvency {
  import opened Common
  import opened BitcoinTypes
  import opened CheckpointQueue
  import opened Bridge
  import opened BridgeRun
  import opened RunInvariants
  import opened Accounting
  import opened FeeWrap
  import opened Reachable
  import opened SampleBridge
  import opened SampleRun
  import opened SampleDeposits
  import opened SampleReach

  // ----- the balance before -----

  lemma SlackMore(o: Oracle, cfg: Config, es: seq<Event>, e: Event)
    requires cfg.unitsPerSat > 0
    ensures RunSlack(o, cfg, es + [e]) == RunSlack(o, cfg, es) + EventSlack(o, cfg, Run(o, cfg, START, es).st, e)
  {
    assert (es + [e])[..|es|] == es;
  }

  lemma WrapNonNegative(x: nat)
    ensures Wrap(x) >= 0
  {
  }

  lemma BlockSlack(o: Oracle, cfg: Config, s: State, b: Block)
    requires cfg.unitsPerSat > 0
    ensures EventSlack(o, cfg, s, EndBlockEvent(b, ENV)) <= 0
  {
    PaysAll(TakenAt(s));
    WrapNonNegative(Times(DueFee(o, cfg, s, b), cfg.unitsPerSat));
    assert EndBlockSlack(o, cfg, s, b, ENV) <= 0;
  }

  /** When nothing is dropped, an end of block never raises the balance. */
  lemma AfterBlock(o: Oracle, cfg: Config, es: seq<Event>, b: Block)
    requires cfg.unitsPerSat > 0
    ensures RunSlack(o, cfg, es + [EndBlockEvent(b, ENV)]) <= RunSlack(o, cfg, es)
  {
    SlackMore(o, cfg, es, EndBlockEvent(b, ENV));
    BlockSlack(o, cfg, Run(o, cfg, START, es).st, b);
  }

  lemma AfterQuiet(o: Oracle, cfg: Config, es: seq<Event>, e: Event)
    requires cfg.unitsPerSat > 0 && (e.SignEvent? || e.RelayCheckpointEvent?)
    ensures RunSlack(o, cfg, es + [e]) == RunSlack(o, cfg, es)
  {
    SlackMore(o, cfg, es, e);
  }

  /** The first deposit pays a fee that fits a signed word. */
  lemma DepositSlackless(units: nat, gap: nat, amount: nat)
    requires units > 0 && Times(USER_FEE, units) < I64
    ensures EventSlack(ORACLE, Settings(units, gap), Opened(gap), RelayDepositEvent(FirstDeposit(gap, amount))) <= 0
  {
    UserFeeIs(units, gap);
    assert DepositSlack(Settings(units, gap), Opened(gap), FirstDeposit(gap, amount)) == 0;
  }

  lemma OpeningSlack(units: nat, gap: nat, amount: nat)
    requires Affords(units, gap, amount, 0)
    ensures RunSlack(ORACLE, Settings(units, gap), Opening(gap, amount)) <= 0
  {
    var cfg, es := Settings(units, gap), [] + [FIRST_BLOCK];
    AfterBlock(ORACLE, cfg, [], BlockAt(0, MARK0));
    ReachesStart(ORACLE, cfg);
    FirstLeads(units, gap);
    ReachesRun(ORACLE, cfg, es, Opened(gap));
    SlackMore(ORACLE, cfg, es, RelayDepositEvent(FirstDeposit(gap, amount)));
    DepositSlackless(units, gap, amount);
  }

  /** Laying checkpoints never raises the balance above zero. */
  lemma {:induction false} LayingSlack(units: nat, gap: nat, amount: nat, n: nat)
    requires Affords(units, gap, amount, n)
    ensures RunSlack(ORACLE, Settings(units, gap), LayingRun(gap, amount, n)) <= 0
  {
    if n == 0 {
      OpeningSlack(units, gap, amount);
    } else {
      var cfg, es := Settings(units, gap), LayingRun(gap, amount, n - 1);
      AffordsLess(units, gap, amount, n);
      LayingSlack(units, gap, amount, n - 1);
      AfterBlock(ORACLE, cfg, es, BlockAt(Times(n, gap), Mark(n)));
      AfterQuiet(ORACLE, cfg, es + [LayBlock(gap, n - 1)], LaySignature(n - 1));
    }
  }

  // ----- the last block -----

  const UNITS: nat := 100_000_000_000_000
  const AMOUNT: nat := 180_000

  /** The data timestamped by the last block: 1777 bytes, so that its checkpoint costs 110,000
      satoshis at the default rate. */
  const LONG: Bytes := seq(1777, _ => 0)
  const LAST_BLOCK := BlockAt(Times(2, TWELVE_DAYS), LONG)

  lemma RowOf(n: nat)
    requires n == 1
    ensures Affords(UNITS, TWELVE_DAYS, AMOUNT, n) && PoolAt(UNITS, n) == 943_800_000_000_000_000
  {
  }

  lemma LastRipe(q: Queue, fees: nat)
    requires Stack(q, TWELVE_DAYS, AMOUNT, 1) && q.confirmed == Some(0)
    requires ShouldPush(ORACLE, Limits(TWELVE_DAYS), q, LAST_BLOCK) == Ok(true)
    requires CalcFee(ORACLE, Limits(TWELVE_DAYS), q, 1, LONG) == Ok(fees)
    ensures Ripe(ORACLE, Limits(TWELVE_DAYS), q, LAST_BLOCK, SetAt(TWELVE_DAYS, 2), fees)
  {
    NewSet(q, Times(2, TWELVE_DAYS), LONG, 2);
    NewShares(TWELVE_DAYS, 1);
  }

  lemma LastDue(q: Queue)
    requires Stack(q, TWELVE_DAYS, AMOUNT, 1) && q.confirmed == Some(0)
    ensures Ripe(ORACLE, Limits(TWELVE_DAYS), q, LAST_BLOCK, SetAt(TWELVE_DAYS, 2), 110_000)
  {
    StackDue(q, TWELVE_DAYS, AMOUNT, 1, Times(2, TWELVE_DAYS), LONG);
    CheckedFee(q, TWELVE_DAYS, AMOUNT, 1, LONG);
    LastRipe(q, 110_000);
  }

  lemma LastWraps(s: State)
    requires s.feePool == 943_800_000_000_000_000
    ensures Wraps(Settings(UNITS, TWELVE_DAYS), s.feePool, 110_000)
  {
  }

  lemma LastSlack(s: State)
    requires StateInv(ORACLE, Settings(UNITS, TWELVE_DAYS), s) && LONG !in s.hashes
    requires Stack(s.queue, TWELVE_DAYS, AMOUNT, 1) && s.queue.confirmed == Some(0) && s.feePool == 943_800_000_000_000_000
    ensures EventSlack(ORACLE, Settings(UNITS, TWELVE_DAYS), s, EndBlockEvent(LAST_BLOCK, ENV)) == 0 - U64
  {
    var cfg := Settings(UNITS, TWELVE_DAYS);
    var taken := TakesAll(cfg, s, 1);
    StackCleared(s.queue, taken.0, TWELVE_DAYS, AMOUNT, 1);
    PaysAll(taken.1);
    HasRoom(UNITS, taken.0, TWELVE_DAYS, AMOUNT, 1);
    LastDue(taken.0);
    LastWraps(s);
    var p := RipeReady(ORACLE, cfg, s, LAST_BLOCK, ENV, taken, true, SetAt(TWELVE_DAYS, 2), 110_000);
    ReadySlack(ORACLE, cfg, s, LAST_BLOCK, ENV, taken, true, p);
  }

  lemma {:induction false} LongIsNew(n: nat)
    ensures LONG !in Marks(n)
  {
    assert |Mark(n)| == 32;
    if n > 0 {
      LongIsNew(n - 1);
    }
  }

  const CONFIG := Settings(UNITS, TWELVE_DAYS)
  const PREFIX := LayingRun(TWELVE_DAYS, AMOUNT, 1) + [CONFIRMED]

  /** One checkpoint is laid and confirmed. */
  lemma PrefixReaches() returns (s: State)
    ensures Reaches(ORACLE, CONFIG, PREFIX, s) && LONG !in s.hashes
    ensures Stack(s.queue, TWELVE_DAYS, AMOUNT, 1) && s.queue.confirmed == Some(0) && s.feePool == 943_800_000_000_000_000
  {
    RowOf(1);
    LongIsNew(1);
    s := ReachesRolled(UNITS, TWELVE_DAYS, AMOUNT, 1);
    s := ConfirmsFirst(CONFIG, s, TWELVE_DAYS, AMOUNT, 1);
  }

  lemma PrefixSlack()
    ensures RunSlack(ORACLE, CONFIG, PREFIX) <= 0
  {
    RowOf(1);
    LayingSlack(UNITS, TWELVE_DAYS, AMOUNT, 1);
    AfterQuiet(ORACLE, CONFIG, LayingRun(TWELVE_DAYS, AMOUNT, 1), CONFIRMED);
  }

  lemma LastAppends(o: Oracle, cfg: Config, es: seq<Event>, s: State, b: Block)
    requires Reaches(o, cfg, es, s) && cfg.unitsPerSat > 0
    ensures HonestRun(o, cfg, START, es + [EndBlockEvent(b, ENV)])
    ensures RunSlack(o, cfg, es + [EndBlockEvent(b, ENV)])
         == RunSlack(o, cfg, es) + EventSlack(o, cfg, s, EndBlockEvent(b, ENV))
  {
    ReachesRun(o, cfg, es, s);
    SlackMore(o, cfg, es, EndBlockEvent(b, ENV));
    assert (es + [EndBlockEvent(b, ENV)])[..|es|] == es;
  }

  /** An honest run that ends with less backing than the bridge owes. */
  lemma InsolventRun() returns (o: Oracle, cfg: Config, es: seq<Event>)
    ensures GoodConfig(cfg) && HonestRun(o, cfg, START, es)
    ensures Balance(cfg, Run(o, cfg, START, es)) <= 0 - U64
  {
    o, cfg, es := ORACLE, CONFIG, PREFIX + [EndBlockEvent(LAST_BLOCK, ENV)];
    var s := PrefixReaches();
    ReachesInv(ORACLE, CONFIG, PREFIX, s);
    PrefixSlack();
    LastSlack(s);
    LastAppends(ORACLE, CONFIG, PREFIX, s, LAST_BLOCK);
    RunBalance(o, cfg, es);
  }
}
