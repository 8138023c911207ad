/**
  The bridge contract with its stored state, changed in place by its entry points. Whenever
  the deque of checkpoints is aligned, each entry point does exactly what the corresponding
  event does to the state value, and a failing entry point is rolled back.
 */
module BridgeContract {
  import opened Common
  import opened BitcoinTypes
  import opened Transactions
  import opened FeeDeduction
  import opened Payouts
  import opened Recovery
  import opened Deques
  import opened QueueStore
  import CQ = CheckpointQueue
  import RS = RecoveryStore
  import B = Bridge
  import BR = BridgeRun
  import RI = RunInvariants

  class Contract {
    const store: Store
    const recoveryTxs: Deque<RecoveryTx>
    var outpoints: set<OutPoint>
    var hashes: set<Bytes>

    /** The recovery transactions are never popped, so writing them back is always aligned. */
    ghost predicate Valid()
      reads store.checkpoints, recoveryTxs
    {
      && store.Valid() && recoveryTxs.Valid() && recoveryTxs.head == 0
      && (recoveryTxs as object) != store.checkpoints
    }

    predicate Aligned()
      reads store.checkpoints
    {
      store.Aligned()
    }

    ghost function State(): B.State
      reads this`outpoints, this`hashes, store, store.checkpoints, recoveryTxs
      requires Valid()
    {
      B.State(store.Queue(), store.feePool, outpoints, recoveryTxs.Contents(), hashes)
    }

    /** The building checkpoint, as it is read. */
    ghost function Building(): Result<Checkpoint>
      reads this, store, store.checkpoints
      requires store.Valid()
    {
      CQ.Get(store.Queue(), store.index)
    }

    constructor (relative: bool)
      ensures Valid() && fresh(store) && fresh(store.checkpoints) && fresh(recoveryTxs)
      ensures Aligned() && store.checkpoints.relative == relative && State() == B.INITIAL
    {
      store := new Store(relative);
      recoveryTxs := new Deque(false);
      outpoints, hashes := {}, {};
    }

    // ----- the building checkpoint -----

    method GiveMinerFee(cfg: B.Config, amount: nat) returns (r: Result<()>)
      requires Valid() && cfg.unitsPerSat > 0
      modifies store`feePool, store.checkpoints`items
      ensures Valid()
      ensures Aligned() ==>
                B.GiveMinerFee(cfg, old(State()), amount) == if r.Err? then Err(r.error) else Ok(State())
      ensures !Aligned() ==> Building() == old(Building())
    {
      var pool := CheckedI64(store.feePool + AsI64(amount));
      if pool.Err? {
        return Err(pool.error);
      }
      store.feePool := pool.value;
      var building := store.Get(store.index);
      if building.Err? {
        return Err(building.error);
      }
      var collected := Checked(building.value.feesCollected + amount / cfg.unitsPerSat);
      if collected.Err? {
        return Err(collected.error);
      }
      r := store.Set(store.index, building.value.(feesCollected := collected.value));
    }

    method PushOnto(ins: seq<Input>, outs: seq<TxOut>, ts: seq<Transfer>) returns (r: Result<()>)
      requires Valid()
      modifies store.checkpoints`items
      ensures Valid()
      ensures Aligned() ==> B.PushOnto(old(State()), ins, outs, ts) == if r.Err? then Err(r.error) else Ok(State())
      ensures !Aligned() ==> Building() == old(Building())
    {
      var building := store.Get(store.index);
      if building.Err? {
        return Err(building.error);
      }
      var tx := Tx(building.value);
      tx := tx.(input := tx.input + ins, output := tx.output + outs);
      var cp := WithTx(building.value, tx);
      cp := cp.(pending := cp.pending + ts);
      r := store.Set(store.index, cp);
    }

    /** Takes the miner fee, then pushes onto the building checkpoint. */
    method Enter(cfg: B.Config, fee: nat, ins: seq<Input>, outs: seq<TxOut>, ts: seq<Transfer>) returns (r: Result<()>)
      requires Valid() && cfg.unitsPerSat > 0
      modifies store`feePool, store.checkpoints`items
      ensures Valid()
      ensures Aligned() ==>
                B.Enter(cfg, old(State()), fee, ins, outs, ts) == if r.Err? then Err(r.error) else Ok(State())
      ensures !Aligned() ==> Building() == old(Building())
    {
      r := GiveMinerFee(cfg, fee);
      if r.Ok? {
        r := PushOnto(ins, outs, ts);
      }
    }

    // ----- deposits -----

    method RelayDeposit(o: Oracle, cfg: B.Config, d: B.Deposit) returns (r: Result<()>)
      requires Valid() && cfg.unitsPerSat > 0 && d.output.value <= MAX_U64
      modifies this`outpoints, store`feePool, store.checkpoints`items, recoveryTxs
      ensures Valid()
      ensures Aligned() ==>
                B.RelayDeposit(o, cfg, old(State()), d) == if r.Err? then Err(r.error) else Ok(State())
      ensures !Aligned() ==> Building() == old(Building())
      ensures r.Ok? ==> d.outpoint !in old(outpoints) && outpoints == old(outpoints) + {d.outpoint}
    {
      if !d.proven {
        return Err(Rejected);
      }
      var cp := store.Get(d.sigsetIndex);
      if cp.Err? {
        return Err(cp.error);
      }
      var sigset := cp.value.sigset;
      var script := OutputScript(o, sigset, o.commitment(d.dest));
      if script.Err? {
        return Err(script.error);
      }
      if d.output.script != script.value || d.outpoint in outpoints {
        return Err(Rejected);
      }
      outpoints := outpoints + {d.outpoint};
      if !cp.value.depositsEnabled {
        return Err(Rejected);
      }
      if d.now > sigset.createTime + cfg.maxDepositAge {
        r := RecoverDeposit(o, d, sigset);
      } else {
        r := CreditDeposit(o, cfg, d, cp.value);
      }
    }

    method RecoverDeposit(o: Oracle, d: B.Deposit, expired: SignatorySet) returns (r: Result<()>)
      requires Valid() && d.output.value <= MAX_U64
      modifies recoveryTxs
      ensures Valid()
      ensures B.RecoverDeposit(o, old(State()), d, expired) == if r.Err? then Err(r.error) else Ok(State())
    {
      var building := store.Get(store.index);
      if building.Err? {
        return Err(building.error);
      }
      r := RS.CreateRecoveryTx(recoveryTxs, o, d.outpoint, d.output.value, expired, building.value.sigset, d.dest,
                               building.value.feeRate);
    }

    method CreditDeposit(o: Oracle, cfg: B.Config, d: B.Deposit, cp: Checkpoint) returns (r: Result<()>)
      requires Valid() && cfg.unitsPerSat > 0
      modifies store`feePool, store.checkpoints`items
      ensures Valid()
      ensures Aligned() ==>
                B.CreditDeposit(o, cfg, old(State()), d, cp) == if r.Err? then Err(r.error) else Ok(State())
      ensures !Aligned() ==> Building() == old(Building())
    {
      var input := NewInput(o, d.outpoint, cp.sigset, o.commitment(d.dest), d.output.value);
      if input.Err? {
        return Err(input.error);
      }
      var mint := Checked(Times(d.output.value, cfg.unitsPerSat));
      if mint.Err? {
        return Err(mint.error);
      }
      var fee := B.UserFee(cfg, input.value.estWitnessVsize + 40, cp.feeRate);
      if fee.Err? {
        return Err(fee.error);
      }
      if mint.value < fee.value {
        return Err(Rejected);
      }
      r := Enter(cfg, fee.value, [input.value], [], [Transfer(d.dest, Coin(cfg.denom, mint.value - fee.value))]);
    }

    // ----- withdrawals -----

    method AddWithdrawal(o: Oracle, cfg: B.Config, script: Bytes, amount: nat) returns (r: Result<()>)
      requires Valid() && cfg.unitsPerSat > 0
      modifies store`feePool, store.checkpoints`items
      ensures Valid()
      ensures Aligned() ==>
                B.AddWithdrawal(o, cfg, old(State()), script, amount) == if r.Err? then Err(r.error) else Ok(State())
      ensures !Aligned() ==> Building() == old(Building())
    {
      if |script| > cfg.maxScriptLength || store.checkpoints.Len() < cfg.minWithdrawalCheckpoints {
        return Err(Rejected);
      }
      var building := store.Get(store.index);
      if building.Err? {
        return Err(building.error);
      }
      var fee := B.UserFee(cfg, 9 + |script|, building.value.feeRate);
      if fee.Err? {
        return Err(fee.error);
      }
      if amount < fee.value {
        return Err(Rejected);
      }
      r := GiveMinerFee(cfg, fee.value);
      if r.Err? {
        return;
      }
      var value := B.WithdrawalValue(cfg, amount - fee.value);
      if value <= o.dust(script) {
        return Err(Rejected);
      }
      r := PushOnto([], [TxOut(value, script)], []);
    }

    /** `withdraw_to_bitcoin`: one withdrawal and one burn per matching coin. */
    method Withdraw(o: Oracle, cfg: B.Config, script: Bytes, funds: seq<Coin>) returns (r: Result<seq<Msg>>)
      requires Valid() && cfg.unitsPerSat > 0
      modifies store`feePool, store.checkpoints`items
      ensures Valid()
      ensures Aligned() ==>
                B.Withdraw(o, cfg, old(State()), script, funds) == if r.Err? then Err(r.error) else Ok((State(), r.value))
    {
      ghost var s := State();
      var msgs := [];
      for i := 0 to |funds|
        invariant Valid()
        invariant Aligned() ==> B.Withdraw(o, cfg, s, script, funds[..i]) == Ok((State(), msgs))
      {
        if Aligned() {
          WithdrawStep(o, cfg, s, script, funds, i);
        }
        if funds[i].denom == cfg.denom {
          var done := AddWithdrawal(o, cfg, script, funds[i].amount);
          if done.Err? {
            return Err(done.error);
          }
          msgs := msgs + [Burn(funds[i].amount)];
        }
      }
      assert funds[..|funds|] == funds;
      return Ok(msgs);
    }

    // ----- confirmations -----

    method RelayCheckpoint(cpIndex: nat, proven: bool) returns (r: Result<()>)
      requires Valid()
      modifies store`confirmed
      ensures Valid()
      ensures B.RelayCheckpoint(old(State()), cpIndex, proven) == if r.Err? then Err(r.error) else Ok(State())
    {
      if store.confirmed.Some? && cpIndex <= store.confirmed.value {
        return Err(Rejected);
      }
      if !proven {
        return Err(Rejected);
      }
      var cp := store.Get(cpIndex);
      if cp.Err? {
        return Err(cp.error);
      }
      store.confirmed := Some(cpIndex);
      return Ok(());
    }

    // ----- end of block -----

    method BeginBlockStep(o: Oracle, cfg: B.Config, b: CQ.Block) returns (r: Result<bool>)
      requires Valid()
      modifies store`index, store`feePool, store.checkpoints
      ensures Valid() && old(store.checkpoints.head) <= store.checkpoints.head
      ensures Aligned() ==>
                B.BeginBlockStep(o, cfg, old(store.Queue()), old(store.feePool), b)
                == if r.Err? then Err(r.error) else Ok(CQ.Stepped(store.Queue(), store.feePool, r.value))
    {
      var below := B.BelowCapacity(cfg, store.Queue());
      if below.Err? {
        return Err(below.error);
      }
      r := store.MaybeStep(o, cfg.checkpoint, cfg.unitsPerSat, b, below.value);
      if r.Err? || !r.value {
        return;
      }
      var building := store.Get(store.index);
      if building.Err? {
        return Err(building.error);
      }
      if |building.value.sigset.signatories| == 0 {
        return Err(NoValue);
      }
    }

    method ClockEndBlock(o: Oracle, cfg: B.Config, b: CQ.Block, env: PayoutEnv) returns (r: Result<seq<Msg>>)
      requires Valid()
      modifies this`hashes, store`index, store`firstUnhandled, store`feePool, store.checkpoints
      ensures Valid() && old(store.checkpoints.head) <= store.checkpoints.head
      ensures Aligned() ==>
                B.ClockEndBlock(o, cfg, old(State()), b, env) == if r.Err? then Err(r.error) else Ok((State(), r.value))
    {
      if b.commitment in hashes {
        return Err(Rejected);
      }
      var taken := store.TakePendingCompleted();
      if taken.Err? {
        return Err(taken.error);
      }
      r := PayOut(env, taken.value);
      if r.Err? {
        return;
      }
      var stepped := BeginBlockStep(o, cfg, b);
      if stepped.Err? {
        return Err(stepped.error);
      }
      hashes := hashes + {b.commitment};
    }

    // ----- entry points -----

    /** An entry point as the code runs it. */
    method Attempt(o: Oracle, cfg: B.Config, e: B.Event) returns (r: Result<seq<Msg>>)
      requires Valid() && cfg.unitsPerSat > 0 && WordSized(e)
      modifies this`outpoints, this`hashes, store, store.checkpoints, recoveryTxs
      ensures Valid() && old(store.checkpoints.head) <= store.checkpoints.head
      ensures Aligned() ==>
                B.Execute(o, cfg, old(State()), e) == if r.Err? then Err(r.error) else Ok((State(), r.value))
    {
      var done: Result<()> := Ok(());
      match e {
        case RelayDepositEvent(d) =>
          done := RelayDeposit(o, cfg, d);
        case WithdrawEvent(script, funds) =>
          r := Withdraw(o, cfg, script, funds);
          return;
        case RelayCheckpointEvent(i, proven) =>
          done := RelayCheckpoint(i, proven);
        case SignEvent(xpub, sigs, i, h) =>
          done := store.Sign(o, xpub, sigs, i, h);
        case SignRecoveryEvent(xpub, sigs) =>
          done := RS.SignRecoveryTxs(recoveryTxs, o, xpub, sigs);
        case EndBlockEvent(b, env) =>
          r := ClockEndBlock(o, cfg, b, env);
          return;
      }
      r := if done.Err? then Err(done.error) else Ok([]);
    }

    /** An entry point under the host, which restores the stored state when it fails. */
    method Execute(o: Oracle, cfg: B.Config, e: B.Event) returns (r: Result<seq<Msg>>)
      requires Valid() && cfg.unitsPerSat > 0 && WordSized(e)
      modifies this`outpoints, this`hashes, store, store.checkpoints, recoveryTxs
      ensures Valid() && old(store.checkpoints.head) <= store.checkpoints.head
      ensures r.Err? ==> State() == old(State())
      ensures store.checkpoints.relative || (r.Ok? && store.checkpoints.head == 0) ==>
                match B.Execute(o, cfg, old(State()), e)
                case Err(error) => r == Err(error) && State() == old(State())
                case Ok(done) => r == Ok(done.1) && State() == done.0
    {
      var cps, rs := store.checkpoints, recoveryTxs;
      var head, tail, items := cps.head, cps.tail, cps.items;
      var rtail, ritems := rs.tail, rs.items;
      var index, confirmed, first, pool := store.index, store.confirmed, store.firstUnhandled, store.feePool;
      var seen, hs := outpoints, hashes;
      r := Attempt(o, cfg, e);
      if r.Err? {
        cps.head, cps.tail, cps.items := head, tail, items;
        rs.tail, rs.items := rtail, ritems;
        store.index, store.confirmed, store.firstUnhandled, store.feePool := index, confirmed, first, pool;
        outpoints, hashes := seen, hs;
      }
    }
  }

  /** Satoshi amounts come from 64-bit fields. */
  predicate WordSized(e: B.Event) {
    e.RelayDepositEvent? ==> e.deposit.output.value <= MAX_U64
  }

  /** A contract that serves a whole sequence of events. */
  method Serve(c: Contract, o: Oracle, cfg: B.Config, es: seq<B.Event>)
    requires c.Valid() && cfg.unitsPerSat > 0 && c.store.checkpoints.relative
    requires c.State() == B.INITIAL && forall i :: 0 <= i < |es| ==> WordSized(es[i])
    modifies c`outpoints, c`hashes, c.store, c.store.checkpoints, c.recoveryTxs
    ensures c.Valid() && c.State() == BR.Run(o, cfg, BR.START, es).st
    ensures B.GoodConfig(cfg) && BR.HonestRun(o, cfg, BR.START, es) ==> RI.StateInv(o, cfg, c.State())
  {
    for i := 0 to |es|
      invariant c.Valid() && c.State() == BR.Run(o, cfg, BR.START, es[..i]).st
    {
      assert es[..i + 1][..i] == es[..i];
      var _ := c.Execute(o, cfg, es[i]);
    }
    assert es[..|es|] == es;
    if B.GoodConfig(cfg) && BR.HonestRun(o, cfg, BR.START, es) {
      RI.RunKeepsInv(o, cfg, es);
    }
  }

  /** The events among the first `n` that succeeded. */
  function Accepted(es: seq<B.Event>, oks: seq<bool>, n: nat): seq<B.Event>
    requires n <= |es| && n <= |oks|
  {
    if n == 0 then [] else Accepted(es, oks, n - 1) + (if oks[n - 1] then [es[n - 1]] else [])
  }

  lemma {:induction false} AcceptedPrefix(es: seq<B.Event>, oks: seq<bool>, more: seq<bool>, n: nat)
    requires n <= |es| && n <= |oks|
    ensures Accepted(es, oks + more, n) == Accepted(es, oks, n)
  {
    if n > 0 {
      AcceptedPrefix(es, oks, more, n - 1);
    }
  }

  lemma RunMore(o: Oracle, cfg: B.Config, es: seq<B.Event>, e: B.Event)
    requires cfg.unitsPerSat > 0
    ensures BR.Run(o, cfg, BR.START, es + [e]) == BR.Apply(o, cfg, BR.Run(o, cfg, BR.START, es), e)
  {
    assert (es + [e])[..|es|] == es;
  }

  /** One event; `before` are those that succeeded so far. */
  method ServeOne(c: Contract, o: Oracle, cfg: B.Config, e: B.Event, ghost before: seq<B.Event>) returns (ok: bool)
    requires c.Valid() && cfg.unitsPerSat > 0 && WordSized(e)
    requires c.store.checkpoints.head == 0 ==> c.State() == BR.Run(o, cfg, BR.START, before).st
    modifies c`outpoints, c`hashes, c.store, c.store.checkpoints, c.recoveryTxs
    ensures c.Valid()
    ensures c.store.checkpoints.head == 0 ==>
              c.State() == BR.Run(o, cfg, BR.START, before + (if ok then [e] else [])).st
  {
    var r := c.Execute(o, cfg, e);
    ok := r.Ok?;
    RunMore(o, cfg, before, e);
    assert before + [] == before;
  }

  /**
    A contract with the addressing as written that serves any sequence of events. As long as no
    checkpoint has been pruned at the end, it is in the state of the run of the events that
    succeeded, and so satisfies the run invariants.
   */
  method ServeAsWritten(c: Contract, o: Oracle, cfg: B.Config, es: seq<B.Event>) returns (oks: seq<bool>)
    requires c.Valid() && cfg.unitsPerSat > 0 && !c.store.checkpoints.relative
    requires c.State() == B.INITIAL && forall i :: 0 <= i < |es| ==> WordSized(es[i])
    modifies c`outpoints, c`hashes, c.store, c.store.checkpoints, c.recoveryTxs
    ensures c.Valid() && |oks| == |es|
    ensures var served := Accepted(es, oks, |es|);
            c.store.checkpoints.head == 0 ==>
              && c.State() == BR.Run(o, cfg, BR.START, served).st
              && (B.GoodConfig(cfg) && BR.HonestRun(o, cfg, BR.START, served) ==> RI.StateInv(o, cfg, c.State()))
  {
    oks := [];
    for i := 0 to |es|
      invariant c.Valid() && |oks| == i
      invariant c.store.checkpoints.head == 0 ==> c.State() == BR.Run(o, cfg, BR.START, Accepted(es, oks, i)).st
    {
      var ok := ServeOne(c, o, cfg, es[i], Accepted(es, oks, i));
      AcceptedPrefix(es, oks, [ok], i);
      oks := oks + [ok];
    }
    ghost var served := Accepted(es, oks, |es|);
    if c.store.checkpoints.head == 0 && B.GoodConfig(cfg) && BR.HonestRun(o, cfg, BR.START, served) {
      RI.RunKeepsInv(o, cfg, served);
    }
  }

  /** One more coin of a withdrawal; when it fails, so does the whole call. */
  lemma WithdrawStep(o: Oracle, cfg: B.Config, s: B.State, script: Bytes, funds: seq<Coin>, i: nat)
    requires cfg.unitsPerSat > 0 && i < |funds| && B.Withdraw(o, cfg, s, script, funds[..i]).Ok?
    ensures var done := B.Withdraw(o, cfg, s, script, funds[..i]).value;
            if funds[i].denom != cfg.denom then B.Withdraw(o, cfg, s, script, funds[..i + 1]) == Ok(done)
            else match B.AddWithdrawal(o, cfg, done.0, script, funds[i].amount)
              case Err(e) => B.Withdraw(o, cfg, s, script, funds) == Err(e)
              case Ok(next) =>
                B.Withdraw(o, cfg, s, script, funds[..i + 1]) == Ok((next, done.1 + [Burn(funds[i].amount)]))
  {
    assert funds[..i + 1][..i] == funds[..i];
    if B.Withdraw(o, cfg, s, script, funds[..i + 1]).Err? {
      WithdrawFails(o, cfg, s, script, funds, i + 1);
    }
  }

  lemma {:induction false} WithdrawFails(o: Oracle, cfg: B.Config, s: B.State, script: Bytes, funds: seq<Coin>, k: nat)
    requires cfg.unitsPerSat > 0 && k <= |funds| && B.Withdraw(o, cfg, s, script, funds[..k]).Err?
    ensures B.Withdraw(o, cfg, s, script, funds) == B.Withdraw(o, cfg, s, script, funds[..k])
    decreases |funds|
  {
    if k < |funds| {
      var front := funds[..|funds| - 1];
      assert front[..k] == funds[..k];
      WithdrawFails(o, cfg, s, script, front, k);
    } else {
      assert funds[..k] == funds;
    }
  }
}
