/** What an accepted deposit did: it was credited, or moved to a recovery transaction. */
module DepositOutcomes {
  import opened Common
  import opened BitcoinTypes
  import opened Transactions
  import opened CheckpointQueue
  import opened QueueInvariants
  import opened StepInvariants
  import opened Recovery
  import opened Bridge
  import opened BridgeInvariants
  import opened BridgeRun
  import Signing

  datatype DepositTrace =
    | Recovered(tx: RecoveryTx, charged: nat)
    | Taken(input: Input, fee: nat)

  /** Nothing but a recovery transaction was added: it moves the deposit from the expired set to the
      set of the building checkpoint. */
  ghost predicate OnlyRecovered(o: Oracle, s: State, s': State, d: Deposit, expired: SignatorySet, tx: RecoveryTx,
                                charged: nat)
  {
    && s' == s.(outpoints := s'.outpoints, recovery := s.recovery + [tx]) && s.queue.cps != []
    && Moves(o, tx, d.outpoint, d.output.value, expired, Last(s.queue).sigset, d.dest, charged)
    && charged == Last(s.queue).feeRate
                  * MoveSize(o, d.outpoint, d.output.value, expired, Last(s.queue).sigset, d.dest)
    && Signing.TxValid(tx.tx) && expired.signatories != [] && Last(s.queue).sigset.signatories != []
  }

  /** The deposit became an input for the set it was sent to and a pending transfer. */
  ghost predicate Joins(o: Oracle, cfg: Config, s: State, s': State, d: Deposit, sigset: SignatorySet, input: Input,
                        fee: nat)
  {
    && Entered(cfg, s, s', fee, [input], [], [CreditOf(cfg, d, fee)])
    && fee <= Times(d.output.value, cfg.unitsPerSat) < U64
    && NewInput(o, d.outpoint, sigset, o.commitment(d.dest), d.output.value) == Ok(input) && Pristine([input])
  }

  /** The checks every relayed deposit has passed: its output is locked by the script of this
      checkpoint's set and the destination. */
  ghost predicate Proper(o: Oracle, s: State, d: Deposit, cp: Checkpoint) {
    && d.proven && d.outpoint !in s.outpoints && Get(s.queue, d.sigsetIndex) == Ok(cp) && cp.depositsEnabled
    && cp.sigset.signatories != [] && d.output.script == o.p2wsh(o.redeemScript(cp.sigset, o.commitment(d.dest)))
  }

  ghost predicate Relayed(o: Oracle, cfg: Config, s: State, d: Deposit, s': State, t: DepositTrace) {
    && Get(s.queue, d.sigsetIndex).Ok? && s'.outpoints == s.outpoints + {d.outpoint}
    && var cp := Get(s.queue, d.sigsetIndex).value;
       && Proper(o, s, d, cp)
       && match t
          case Recovered(tx, charged) =>
            && d.now > cp.sigset.createTime + cfg.maxDepositAge
            && OnlyRecovered(o, s, s', d, cp.sigset, tx, charged) && DepositFee(cfg, s, d) == None
          case Taken(input, fee) =>
            && d.now <= cp.sigset.createTime + cfg.maxDepositAge
            && Joins(o, cfg, s.(outpoints := s'.outpoints), s', d, cp.sigset, input, fee)
            && DepositFee(cfg, s, d) == Some(fee)
  }

  lemma CreditOutcome(o: Oracle, cfg: Config, s: State, d: Deposit, cp: Checkpoint, s': State)
    returns (input: Input, fee: nat)
    requires cfg.unitsPerSat > 0 && Shape(s.queue) && CreditDeposit(o, cfg, s, d, cp) == Ok(s')
    ensures Joins(o, cfg, s, s', d, cp.sigset, input, fee)
    ensures UserFee(cfg, EstWitnessVsize(cp.sigset) + 40, cp.feeRate) == Ok(fee)
  {
    input, fee := CreditParts(o, cfg, s, d, cp, s');
    EnterEffect(cfg, s, fee, [input], [], [CreditOf(cfg, d, fee)], s');
    NewInputPristine(o, d.outpoint, cp.sigset, o.commitment(d.dest), d.output.value);
  }

  lemma RecoverOutcome(o: Oracle, s: State, d: Deposit, expired: SignatorySet, s': State)
    returns (tx: RecoveryTx, charged: nat)
    requires |s.queue.cps| <= s.queue.index + 1 && RecoverDeposit(o, s, d, expired) == Ok(s')
    ensures OnlyRecovered(o, s, s', d, expired, tx, charged) && s'.outpoints == s.outpoints
  {
    var building := Get(s.queue, s.queue.index).value;
    tx := Create(o, d.outpoint, d.output.value, expired, building.sigset, d.dest, building.feeRate).value;
    charged := CreateValid(o, d.outpoint, d.output.value, expired, building.sigset, d.dest, building.feeRate);
  }

  predicate Expired(cfg: Config, d: Deposit, cp: Checkpoint) {
    d.now > cp.sigset.createTime + cfg.maxDepositAge
  }

  lemma RelayCases(o: Oracle, cfg: Config, s: State, d: Deposit, s': State) returns (cp: Checkpoint, s1: State)
    requires cfg.unitsPerSat > 0 && RelayDeposit(o, cfg, s, d) == Ok(s')
    ensures Get(s.queue, d.sigsetIndex) == Ok(cp) && Proper(o, s, d, cp)
    ensures s1 == s.(outpoints := s.outpoints + {d.outpoint})
    ensures if Expired(cfg, d, cp) then RecoverDeposit(o, s1, d, cp.sigset) == Ok(s')
            else CreditDeposit(o, cfg, s1, d, cp) == Ok(s')
  {
    cp := Get(s.queue, d.sigsetIndex).value;
    s1 := s.(outpoints := s.outpoints + {d.outpoint});
  }

  lemma DepositOutcome(o: Oracle, cfg: Config, s: State, d: Deposit, s': State) returns (t: DepositTrace)
    requires cfg.unitsPerSat > 0 && Shape(s.queue) && RelayDeposit(o, cfg, s, d) == Ok(s')
    ensures Relayed(o, cfg, s, d, s', t)
  {
    var cp, s1 := RelayCases(o, cfg, s, d, s');
    if Expired(cfg, d, cp) {
      var tx, charged := RecoverOutcome(o, s1, d, cp.sigset, s');
      t := Recovered(tx, charged);
      RecoveryRelays(o, cfg, s, s1, d, cp, s', t);
    } else {
      var input, fee := CreditOutcome(o, cfg, s1, d, cp, s');
      t := Taken(input, fee);
      CreditFee(cfg, s, d, cp, fee);
      JoinsRelays(o, cfg, s, s1, d, cp, s', t);
    }
  }

  lemma CreditFee(cfg: Config, s: State, d: Deposit, cp: Checkpoint, fee: nat)
    requires Get(s.queue, d.sigsetIndex) == Ok(cp) && !Expired(cfg, d, cp)
    requires UserFee(cfg, EstWitnessVsize(cp.sigset) + 40, cp.feeRate) == Ok(fee)
    ensures DepositFee(cfg, s, d) == Some(fee)
  {
  }

  lemma RecoveryRelays(o: Oracle, cfg: Config, s: State, s1: State, d: Deposit, cp: Checkpoint, s': State, t: DepositTrace)
    requires t.Recovered? && s1 == s.(outpoints := s.outpoints + {d.outpoint})
    requires Get(s.queue, d.sigsetIndex) == Ok(cp) && Proper(o, s, d, cp) && Expired(cfg, d, cp)
    requires OnlyRecovered(o, s1, s', d, cp.sigset, t.tx, t.charged) && s'.outpoints == s1.outpoints
    ensures Relayed(o, cfg, s, d, s', t)
  {
  }

  lemma JoinsRelays(o: Oracle, cfg: Config, s: State, s1: State, d: Deposit, cp: Checkpoint, s': State, t: DepositTrace)
    requires t.Taken? && s1 == s.(outpoints := s.outpoints + {d.outpoint})
    requires Get(s.queue, d.sigsetIndex) == Ok(cp) && Proper(o, s, d, cp) && !Expired(cfg, d, cp)
    requires Joins(o, cfg, s1, s', d, cp.sigset, t.input, t.fee) && DepositFee(cfg, s, d) == Some(t.fee)
    ensures Relayed(o, cfg, s, d, s', t)
  {
    assert s1 == s.(outpoints := s'.outpoints);
  }
}
