/** Invariants of single bridge events: queue, credited outpoints and recovery transactions. */
module BridgeInvariants {
  import opened Common
  import opened BitcoinTypes
  import opened Transactions
  import opened Advance
  import opened CheckpointQueue
  import opened QueueInvariants
  import opened StepInvariants
  import opened Bridge

  // ----- deposits and withdrawals write the building checkpoint -----

  /** The building checkpoint after a write: nothing but fees, inputs, outputs and pending
      transfers were added. */
  ghost predicate Grown(a: Checkpoint, b: Checkpoint, ins: seq<Input>, outs: seq<TxOut>, ts: seq<Transfer>) {
    && b == a.(batches := b.batches, pending := b.pending, feesCollected := b.feesCollected)
    && SingleTx(a) && SingleTx(b) && b.batches[0].signedTxs == a.batches[0].signedTxs
    && Tx(b) == Tx(a).(input := Tx(a).input + ins, output := Tx(a).output + outs)
    && b.pending == a.pending + ts
  }

  lemma GrownReplaces(o: Oracle, a: Checkpoint, b: Checkpoint, ins: seq<Input>, outs: seq<TxOut>, ts: seq<Transfer>)
    requires CpValid(a) && a.status.Building? && Grown(a, b, ins, outs, ts) && Pristine(ins)
    ensures Replaces(o, a, b)
  {
    BuildingUntouched(a);
    PristineConcat(Tx(a).input, ins);
    UntouchedValid(b);
  }

  lemma LastBuilding(q: Queue)
    requires Shape(q) && q.cps != []
    ensures CpValid(Last(q)) && Last(q).status.Building?
  {
    assert StatusFits(q.cps[|q.cps| - 1].status, |q.cps| - 1, |q.cps|);
  }

  lemma GrownKeepsInv(o: Oracle, cfg: CheckpointConfig, q: Queue, q': Queue, ins: seq<Input>, outs: seq<TxOut>,
                      ts: seq<Transfer>)
    requires QueueInv(o, cfg, q) && LastReplaced(q, q')
    requires Grown(Last(q), Last(q'), ins, outs, ts) && Pristine(ins)
    ensures QueueInv(o, cfg, q')
  {
    GrownStands(o, q, q', ins, outs, ts);
    ReplaceLast(o, cfg, q, q');
  }

  lemma GrownStands(o: Oracle, q: Queue, q': Queue, ins: seq<Input>, outs: seq<TxOut>, ts: seq<Transfer>)
    requires Shape(q) && LastReplaced(q, q') && Grown(Last(q), Last(q'), ins, outs, ts) && Pristine(ins)
    ensures Replaces(o, Last(q), Last(q')) && Last(q').status == Last(q).status
  {
    LastBuilding(q);
    GrownReplaces(o, Last(q), Last(q'), ins, outs, ts);
  }

  lemma GiveEffect(cfg: Config, s: State, amount: nat)
    requires cfg.unitsPerSat > 0 && |s.queue.cps| <= s.queue.index + 1 && GiveMinerFee(cfg, s, amount).Ok?
    ensures var s' := GiveMinerFee(cfg, s, amount).value;
            && LastReplaced(s.queue, s'.queue)
            && Last(s'.queue) == Last(s.queue).(feesCollected := Last(s.queue).feesCollected + amount / cfg.unitsPerSat)
            && s' == s.(queue := s'.queue, feePool := s.feePool + AsI64(amount))
  {
  }

  lemma ExtendedGrown(a: Checkpoint, fees: nat, ins: seq<Input>, outs: seq<TxOut>, ts: seq<Transfer>)
    requires SingleTx(a)
    ensures Grown(a, Extended(a.(feesCollected := fees), ins, outs, ts), ins, outs, ts)
  {
  }

  lemma EnterEffect(cfg: Config, s: State, fee: nat, ins: seq<Input>, outs: seq<TxOut>, ts: seq<Transfer>, s': State)
    requires cfg.unitsPerSat > 0 && Shape(s.queue) && Enter(cfg, s, fee, ins, outs, ts) == Ok(s')
    ensures Entered(cfg, s, s', fee, ins, outs, ts)
  {
    GiveEffect(cfg, s, fee);
    var s1 := GiveMinerFee(cfg, s, fee).value;
    LastBuilding(s.queue);
    ExtendedGrown(Last(s.queue), Last(s1.queue).feesCollected, ins, outs, ts);
  }

  /** The fee went to the pool, in whole satoshis onto the building checkpoint, which grew; nothing
      else changed. */
  ghost predicate Entered(cfg: Config, s: State, s': State, fee: nat, ins: seq<Input>, outs: seq<TxOut>,
                          ts: seq<Transfer>)
  {
    && cfg.unitsPerSat > 0 && LastReplaced(s.queue, s'.queue)
    && Last(s'.queue).feesCollected == Last(s.queue).feesCollected + fee / cfg.unitsPerSat
    && Grown(Last(s.queue), Last(s'.queue), ins, outs, ts)
    && s' == s.(queue := s'.queue, feePool := s.feePool + AsI64(fee))
  }

  function CreditOf(cfg: Config, d: Deposit, fee: nat): (t: Transfer)
    ensures fee <= Times(d.output.value, cfg.unitsPerSat) ==>
              t == Transfer(d.dest, Coin(cfg.denom, Times(d.output.value, cfg.unitsPerSat) - fee))
  {
    Transfer(d.dest, Coin(cfg.denom, SatSub(Times(d.output.value, cfg.unitsPerSat), fee)))
  }

  /** The input and the fee that crediting a deposit computes. */
  lemma CreditParts(o: Oracle, cfg: Config, s: State, d: Deposit, cp: Checkpoint, s': State)
    returns (input: Input, fee: nat)
    requires cfg.unitsPerSat > 0 && CreditDeposit(o, cfg, s, d, cp) == Ok(s')
    ensures NewInput(o, d.outpoint, cp.sigset, o.commitment(d.dest), d.output.value) == Ok(input)
    ensures UserFee(cfg, EstWitnessVsize(cp.sigset) + 40, cp.feeRate) == Ok(fee)
    ensures fee <= Times(d.output.value, cfg.unitsPerSat) < U64
    ensures Enter(cfg, s, fee, [input], [], [CreditOf(cfg, d, fee)]) == Ok(s')
  {
    input := NewInput(o, d.outpoint, cp.sigset, o.commitment(d.dest), d.output.value).value;
    fee := UserFee(cfg, input.estWitnessVsize + 40, cp.feeRate).value;
  }

  function Paid(cfg: Config, amount: nat, fee: nat, script: Bytes): TxOut
    requires cfg.unitsPerSat > 0
  {
    TxOut(WithdrawalValue(cfg, SatSub(amount, fee)), script)
  }

  /** What one withdrawal does. */
  lemma WithdrawalEffect(o: Oracle, cfg: Config, s: State, script: Bytes, amount: nat, s': State) returns (fee: nat)
    requires cfg.unitsPerSat > 0 && Shape(s.queue) && AddWithdrawal(o, cfg, s, script, amount) == Ok(s')
    ensures fee <= amount && s.queue.cps != []
    ensures UserFee(cfg, 9 + |script|, Last(s.queue).feeRate) == Ok(fee)
    ensures Entered(cfg, s, s', fee, [], [Paid(cfg, amount, fee, script)], [])
  {
    fee := WithdrawalParts(o, cfg, s, script, amount, s');
    EnterEffect(cfg, s, fee, [], [Paid(cfg, amount, fee, script)], [], s');
  }

  lemma WithdrawalParts(o: Oracle, cfg: Config, s: State, script: Bytes, amount: nat, s': State) returns (fee: nat)
    requires cfg.unitsPerSat > 0 && |s.queue.cps| <= s.queue.index + 1
    requires AddWithdrawal(o, cfg, s, script, amount) == Ok(s')
    ensures fee <= amount && s.queue.cps != []
    ensures UserFee(cfg, 9 + |script|, Last(s.queue).feeRate) == Ok(fee)
    ensures Enter(cfg, s, fee, [], [Paid(cfg, amount, fee, script)], []) == Ok(s')
  {
    fee := UserFee(cfg, 9 + |script|, Last(s.queue).feeRate).value;
  }

  // ----- a whole withdrawal -----

  /** Outputs were added to the building checkpoint, or nothing happened. */
  ghost predicate OutputsAdded(q: Queue, q': Queue, outs: seq<TxOut>) {
    q' == q || (LastReplaced(q, q') && Grown(Last(q), Last(q'), [], outs, []))
  }

  lemma GrownTwice(a: Checkpoint, b: Checkpoint, c: Checkpoint, first: seq<TxOut>, second: seq<TxOut>)
    requires Grown(a, b, [], first, []) && Grown(b, c, [], second, [])
    ensures Grown(a, c, [], first + second, [])
  {
    assert Tx(b).input == Tx(a).input && b.pending == a.pending;
    assert Tx(a).output + first + second == Tx(a).output + (first + second);
  }

  lemma AddedTwice(q: Queue, q1: Queue, q2: Queue, first: seq<TxOut>, second: seq<TxOut>) returns (outs: seq<TxOut>)
    requires OutputsAdded(q, q1, first) && LastReplaced(q1, q2) && Grown(Last(q1), Last(q2), [], second, [])
    ensures OutputsAdded(q, q2, outs)
  {
    outs := if q1 == q then second else first + second;
    if q1 != q {
      GrownTwice(Last(q), Last(q1), Last(q2), first, second);
    }
  }

  lemma AddedKeepsShape(o: Oracle, q: Queue, q': Queue, outs: seq<TxOut>)
    requires Shape(q) && OutputsAdded(q, q', outs)
    ensures Shape(q')
  {
    if q' != q {
      GrownStands(o, q, q', [], outs, []);
      ReplaceLastShape(o, q, q');
    }
  }

  /** A withdrawal of any coins writes nothing but the building checkpoint, to which it adds
      outputs, and the fee pool. */
  lemma {:induction false} WithdrawGrows(o: Oracle, cfg: Config, s: State, script: Bytes, funds: seq<Coin>)
    returns (outs: seq<TxOut>)
    requires cfg.unitsPerSat > 0 && Shape(s.queue) && Withdraw(o, cfg, s, script, funds).Ok?
    ensures var s' := Withdraw(o, cfg, s, script, funds).value.0;
            s' == s.(queue := s'.queue, feePool := s'.feePool) && OutputsAdded(s.queue, s'.queue, outs)
    decreases |funds|
  {
    outs := [];
    if funds != [] {
      var n := |funds| - 1;
      var front := WithdrawGrows(o, cfg, s, script, funds[..n]);
      if funds[n].denom == cfg.denom {
        var s1 := Withdraw(o, cfg, s, script, funds[..n]).value.0;
        var s2 := AddWithdrawal(o, cfg, s1, script, funds[n].amount).value;
        AddedKeepsShape(o, s.queue, s1.queue, front);
        var fee := WithdrawalEffect(o, cfg, s1, script, funds[n].amount, s2);
        outs := AddedTwice(s.queue, s1.queue, s2.queue, front, [Paid(cfg, funds[n].amount, fee, script)]);
      } else {
        outs := front;
      }
    }
  }
}
