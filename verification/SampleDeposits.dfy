/** Relayed deposits of the sample bridge, and the opening of its run: a first block and a deposit. */
module SampleDeposits {
  import opened Common
  import opened BitcoinTypes
  import opened Transactions
  import opened CheckpointQueue
  import opened QueueInvariants
  import opened Payouts
  import opened Bridge
  import opened BridgeInvariants
  import opened ReserveRelay
  import opened Reachable
  import opened SampleBridge
  import opened SampleRun

  const USER_FEE: nat := 23_463

  // ----- fees -----

  lemma ProductMonotone(a: int, b: int, u: nat)
    requires a <= b
    ensures a * u <= b * u
  {
  }

  lemma QuotientBounds(x: nat, u: nat)
    requires u > 0
    ensures (x / u) * u <= x < (x / u) * u + u
  {
  }

  lemma SameQuotient(a: int, q: int, u: nat)
    requires u > 0 && q * u <= a * u < q * u + u
    ensures a == q
  {
    if a > q {
      ProductMonotone(q + 1, a, u);
    } else if a < q {
      ProductMonotone(a + 1, q, u);
    }
  }

  lemma QuotientExact(a: nat, units: nat)
    requires units > 0
    ensures Times(a, units) / units == a
  {
    QuotientBounds(Times(a, units), units);
    SameQuotient(a, Times(a, units) / units, units);
  }

  lemma UserFeeIs(units: nat, gap: nat)
    requires Times(USER_FEE, units) < U64
    ensures UserFee(Settings(units, gap), 158, DEFAULT_FEE_RATE) == Ok(Times(USER_FEE, units))
  {
    assert Times(158, 55) == 8_690 && Times(8_690, 27_000) == 234_630_000;
  }

  // ----- crediting -----

  lemma CreditFrom(o: Oracle, cfg: Config, s: State, d: Deposit, cp: Checkpoint, input: Input, fee: nat)
    requires cfg.unitsPerSat > 0 && NewInput(o, d.outpoint, cp.sigset, o.commitment(d.dest), d.output.value) == Ok(input)
    requires Times(d.output.value, cfg.unitsPerSat) < U64 && fee <= Times(d.output.value, cfg.unitsPerSat)
    requires UserFee(cfg, input.estWitnessVsize + 40, cp.feeRate) == Ok(fee)
    ensures CreditDeposit(o, cfg, s, d, cp) == Enter(cfg, s, fee, [input], [], [CreditOf(cfg, d, fee)])
  {
  }

  /** The state after the fee and the input have entered. */
  function WithDeposit(s: State, fee: nat, collected: nat, input: Input, t: Transfer): State
    requires s.queue.cps != []
  {
    var n := |s.queue.cps|;
    var building := s.queue.cps[n - 1].(feesCollected := collected);
    s.(queue := s.queue.(cps := s.queue.cps[n - 1 := Extended(building, [input], [], [t])]), feePool := s.feePool + fee)
  }

  lemma EnterFrom(cfg: Config, s: State, fee: nat, collected: nat, input: Input, t: Transfer)
    requires cfg.unitsPerSat > 0 && 1 <= |s.queue.cps| <= s.queue.index + 1
    requires fee < I64 && -I64 <= s.feePool + fee < I64
    requires collected == Last(s.queue).feesCollected + fee / cfg.unitsPerSat < U64
    ensures Enter(cfg, s, fee, [input], [], [t]) == Ok(WithDeposit(s, fee, collected, input, t))
  {
    var n, q := |s.queue.cps|, s.queue;
    var building := q.cps[n - 1].(feesCollected := collected);
    var s1 := s.(queue := q.(cps := q.cps[n - 1 := building]), feePool := s.feePool + fee);
    assert GiveMinerFee(cfg, s, fee) == Ok(s1);
    assert s1.queue.cps[n - 1 := Extended(building, [input], [], [t])]
        == q.cps[n - 1 := Extended(building, [input], [], [t])];
  }

  /** A deposit to an admitted checkpoint is credited. */
  lemma DepositGoes(s: State, units: nat, gap: nat, d: Deposit, cp: Checkpoint, k: nat) returns (input: Input, s': State)
    requires units > 0 && Admitted(Settings(units, gap), s, d, cp) && cp.sigset == SetAt(gap, k)
    requires cp.feeRate == DEFAULT_FEE_RATE
    requires d.output.script == ORACLE.p2wsh(ORACLE.redeemScript(cp.sigset, ORACLE.commitment(d.dest)))
    requires USER_FEE <= d.output.value && Times(d.output.value, units) < U64 && Times(USER_FEE, units) < I64
    requires 1 <= |s.queue.cps| <= s.queue.index + 1 && -I64 <= s.feePool + Times(USER_FEE, units) < I64
    requires Last(s.queue).feesCollected + USER_FEE < U64
    ensures RelayDeposit(ORACLE, Settings(units, gap), s, d) == Ok(s')
    ensures Plain(input, d.output.value) && input.prevout == d.outpoint
    ensures var t := CreditOf(Settings(units, gap), d, Times(USER_FEE, units));
            s' == WithDeposit(s.(outpoints := s.outpoints + {d.outpoint}), Times(USER_FEE, units),
                           Last(s.queue).feesCollected + USER_FEE, input, t)
  {
    var cfg, fee, dest := Settings(units, gap), Times(USER_FEE, units), ORACLE.commitment(d.dest);
    var s1 := s.(outpoints := s.outpoints + {d.outpoint});
    NewPlain(d.outpoint, gap, k, dest, d.output.value);
    input := NewInput(ORACLE, d.outpoint, cp.sigset, dest, d.output.value).value;
    UserFeeIs(units, gap);
    TimesLess(USER_FEE, d.output.value, units);
    QuotientExact(USER_FEE, units);
    AdmittedCredits(ORACLE, cfg, s, d, cp);
    CreditFrom(ORACLE, cfg, s1, d, cp, input, fee);
    EnterFrom(cfg, s1, fee, Last(s.queue).feesCollected + USER_FEE, input, CreditOf(cfg, d, fee));
    s' := WithDeposit(s1, fee, Last(s.queue).feesCollected + USER_FEE, input, CreditOf(cfg, d, fee));
  }

  lemma TimesLess(a: nat, b: nat, units: nat)
    requires a <= b
    ensures Times(a, units) <= Times(b, units)
  {
  }

  // ----- the opening -----

  const MARK0: Bytes := Padded([0])

  /** After the first block there is one empty checkpoint. */
  function Opened(gap: nat): State {
    State(Queue([NewCheckpoint(SetAt(gap, 0), true)], 0, None, 0), 0, {}, [], {MARK0})
  }

  lemma FirstStep(units: nat, gap: nat)
    ensures MaybeStep(ORACLE, Limits(gap), units, EMPTY_QUEUE, 0, BlockAt(0, MARK0), true)
         == Ok(Stepped(Opened(gap).queue, 0, true))
  {
    var b, first := BlockAt(0, MARK0), NewCheckpoint(SetAt(gap, 0), true);
    var ops := OpsFor(ORACLE, Limits(gap), b);
    assert Times(0, gap) == 0;
    NewSet(EMPTY_QUEUE, 0, MARK0, 0);
    assert ops.sigset(EMPTY_QUEUE) == Ok(SetAt(gap, 0));
    FirstDue(ORACLE, Limits(gap), b, SetAt(gap, 0));
    FirstRuns(ops, 1_814_400, units, SetAt(gap, 0));
  }

  lemma FirstDue(o: Oracle, cfg: Advance.CheckpointConfig, b: Block, sigset: SignatorySet)
    requires NextSigset(o, EMPTY_QUEUE, b) == Ok(sigset) && Usable(sigset) && cfg.maxUnconfirmed > 0
    ensures OpsFor(o, cfg, b).should(EMPTY_QUEUE) == Ok(true)
  {
    assert ShouldPush(o, cfg, EMPTY_QUEUE, b) == Ok(true);
  }

  lemma FirstRuns(ops: StepOps, maxAge: nat, units: nat, sigset: SignatorySet)
    requires ops.should(EMPTY_QUEUE) == Ok(true) && ops.sigset(EMPTY_QUEUE) == Ok(sigset) && Usable(sigset)
    ensures StepWith(ops, maxAge, units, EMPTY_QUEUE, 0, true)
         == Ok(Stepped(Queue([NewCheckpoint(sigset, true)], 0, None, 0), 0, true))
  {
    var first := NewCheckpoint(sigset, true);
    var q := Queue([first], 0, None, 0);
    assert [] + [first] == [first];
    assert MaybePush(EMPTY_QUEUE, Ok(sigset), true) == Ok((q, true));
    assert PruneCount(q.cps, 0, sigset.createTime, maxAge) == Ok(0);
    assert Suffix(q.cps, 0) == q.cps;
    assert Prune(maxAge, q) == Ok(q);
  }

  /** The first block opens the queue. */
  lemma FirstBlock(units: nat, gap: nat)
    ensures ClockEndBlock(ORACLE, Settings(units, gap), INITIAL, BlockAt(0, MARK0), ENV) == Ok((Opened(gap), []))
  {
    FirstStep(units, gap);
    assert TakePendingCompleted(EMPTY_QUEUE) == Ok((EMPTY_QUEUE, []));
    assert PayoutMsgs(ENV, []) == Ok([]);
    assert BelowCapacity(Settings(units, gap), EMPTY_QUEUE) == Ok(true);
    var r := Stepped(Opened(gap).queue, 0, true);
    assert Accept(r) == Ok(r);
    assert BeginBlockStep(ORACLE, Settings(units, gap), EMPTY_QUEUE, 0, BlockAt(0, MARK0)) == Ok(r);
    assert INITIAL.hashes + {MARK0} == {MARK0};
  }

  const USER := Address("user")

  function FirstDeposit(gap: nat, amount: nat): Deposit {
    Deposit(0, true, DEPOSITED,
            TxOut(amount, ORACLE.p2wsh(ORACLE.redeemScript(SetAt(gap, 0), ORACLE.commitment(USER)))), 0, USER)
  }

  /** The deposit that pays for everything. */
  lemma DepositOpens(units: nat, gap: nat, amount: nat) returns (s: State)
    requires units > 0 && USER_FEE <= amount < 2_100_000_000 && Times(amount, units) < U64 && Times(USER_FEE, units) < I64
    ensures Leads(ORACLE, Settings(units, gap), Opened(gap), RelayDepositEvent(FirstDeposit(gap, amount)), s)
    ensures Stack(s.queue, gap, amount, 0) && s.queue.confirmed.None? && s.queue.cps[0].feesCollected == USER_FEE
    ensures s.feePool == Times(USER_FEE, units) && s.outpoints == {DEPOSITED} && s.hashes == {MARK0}
  {
    var cp, d := NewCheckpoint(SetAt(gap, 0), true), FirstDeposit(gap, amount);
    var input;
    input, s := DepositGoes(Opened(gap), units, gap, d, cp, 0);
    DepositLeads(ORACLE, Settings(units, gap), Opened(gap), d, s);
    assert Tx(s.queue.cps[0]).input == [input];
    assert {} + {DEPOSITED} == {DEPOSITED};
  }
}
