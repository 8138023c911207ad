/** Exactly when the entry points succeed, and what they then do. */
module EntryPoints {
  import opened Common
  import opened BitcoinTypes
  import opened Transactions
  import opened CheckpointQueue
  import opened QueueInvariants
  import opened Payouts
  import opened Recovery
  import opened Bridge
  import opened BridgeInvariants
  import opened BridgeRun
  import opened DepositOutcomes
  import opened RunInvariants
  import TS = ThresholdSigs
  import Signing

  // ----- the fee taken from users -----

  /** `vsize` virtual bytes at this rate, times the user factor in ten-thousandths, in whole
      satoshis, as units. */
  function FeeAt(cfg: Config, vsize: nat, rate: nat): nat {
    vsize * rate * cfg.checkpoint.userFeeFactor / 10_000 * cfg.unitsPerSat
  }

  /** No product on the way exceeds a machine word. */
  predicate FeeInWords(cfg: Config, vsize: nat, rate: nat) {
    && vsize * rate < U64 && vsize * rate * cfg.checkpoint.userFeeFactor < U64 && FeeAt(cfg, vsize, rate) < U64
  }

  lemma UserFeeMeans(cfg: Config, vsize: nat, rate: nat)
    ensures UserFee(cfg, vsize, rate).Ok? <==> FeeInWords(cfg, vsize, rate)
    ensures UserFee(cfg, vsize, rate).Ok? ==> UserFee(cfg, vsize, rate).value == FeeAt(cfg, vsize, rate)
  {
    assert Times(vsize, rate) == vsize * rate;
    assert Times(vsize * rate, cfg.checkpoint.userFeeFactor) == vsize * rate * cfg.checkpoint.userFeeFactor;
  }

  /** The pool and the collected fees can take the fee. */
  predicate FeeTaken(cfg: Config, s: State, fee: nat)
    requires cfg.unitsPerSat > 0 && s.queue.cps != []
  {
    -I64 <= s.feePool + AsI64(fee) < I64 && Last(s.queue).feesCollected + fee / cfg.unitsPerSat < U64
  }

  lemma EnterExactly(cfg: Config, s: State, fee: nat, ins: seq<Input>, outs: seq<TxOut>, ts: seq<Transfer>)
    requires cfg.unitsPerSat > 0 && Ordered(s.queue)
    ensures Enter(cfg, s, fee, ins, outs, ts).Ok? <==> s.queue.cps != [] && FeeTaken(cfg, s, fee)
  {
    if s.queue.cps != [] {
      assert Get(s.queue, s.queue.index) == Ok(Last(s.queue));
    }
  }

  // ----- withdraw_to_bitcoin -----

  /** What a withdrawal of an amount pays out: the rest after the fee, cut to a word, in whole
      satoshis. */
  function PaidFor(cfg: Config, amount: nat, fee: nat): nat
    requires cfg.unitsPerSat > 0
  {
    if fee <= amount then (amount - fee) % 0x1_0000_0000_0000_0000 / cfg.unitsPerSat else 0
  }

  /** The fee of a withdrawal to a script. */
  function WithdrawFee(cfg: Config, q: Queue, script: Bytes): nat
    requires q.cps != []
  {
    FeeAt(cfg, 9 + |script|, Last(q).feeRate)
  }

  ghost predicate CanWithdraw(o: Oracle, cfg: Config, s: State, script: Bytes, amount: nat)
    requires cfg.unitsPerSat > 0
  {
    && |script| <= cfg.maxScriptLength && |s.queue.cps| >= cfg.minWithdrawalCheckpoints && s.queue.cps != []
    && FeeInWords(cfg, 9 + |script|, Last(s.queue).feeRate)
    && var fee := WithdrawFee(cfg, s.queue, script);
       fee <= amount && FeeTaken(cfg, s, fee) && PaidFor(cfg, amount, fee) > o.dust(script)
  }

  /** One withdrawal succeeds exactly when the script is short enough, there are enough
      checkpoints, the fee is covered and more than dust is left; it adds one output, worth the
      rest. */
  lemma WithdrawalExactly(o: Oracle, cfg: Config, s: State, script: Bytes, amount: nat)
    requires GoodConfig(cfg) && Shape(s.queue)
    ensures var r := AddWithdrawal(o, cfg, s, script, amount);
            && (r.Ok? <==> CanWithdraw(o, cfg, s, script, amount))
            && (r.Ok? ==>
                  && s.queue.cps != []
                  && var fee := WithdrawFee(cfg, s.queue, script);
                     Entered(cfg, s, r.value, fee, [], [TxOut(PaidFor(cfg, amount, fee), script)], []))
  {
    if s.queue.cps != [] {
      assert Get(s.queue, s.queue.index) == Ok(Last(s.queue));
      UserFeeMeans(cfg, 9 + |script|, Last(s.queue).feeRate);
      var fee := WithdrawFee(cfg, s.queue, script);
      var out := TxOut(PaidFor(cfg, amount, fee), script);
      EnterExactly(cfg, s, fee, [], [out], []);
      WithdrawalEnters(o, cfg, s, script, amount, fee);
      if Enter(cfg, s, fee, [], [out], []).Ok? {
        EnterEffect(cfg, s, fee, [], [out], [], Enter(cfg, s, fee, [], [out], []).value);
      }
    }
  }

  lemma WithdrawalEnters(o: Oracle, cfg: Config, s: State, script: Bytes, amount: nat, fee: nat)
    requires cfg.unitsPerSat > 0 && Ordered(s.queue) && s.queue.cps != []
    requires UserFee(cfg, 9 + |script|, Last(s.queue).feeRate).Ok? ==>
               UserFee(cfg, 9 + |script|, Last(s.queue).feeRate).value == fee
    ensures var enter := Enter(cfg, s, fee, [], [TxOut(PaidFor(cfg, amount, fee), script)], []);
            AddWithdrawal(o, cfg, s, script, amount).Ok? <==>
              && |script| <= cfg.maxScriptLength && |s.queue.cps| >= cfg.minWithdrawalCheckpoints
              && UserFee(cfg, 9 + |script|, Last(s.queue).feeRate).Ok? && fee <= amount && enter.Ok?
              && PaidFor(cfg, amount, fee) > o.dust(script)
    ensures AddWithdrawal(o, cfg, s, script, amount).Ok? ==>
              AddWithdrawal(o, cfg, s, script, amount) ==
              Enter(cfg, s, fee, [], [TxOut(PaidFor(cfg, amount, fee), script)], [])
  {
    assert Get(s.queue, s.queue.index) == Ok(Last(s.queue));
    if fee <= amount {
      assert WithdrawalValue(cfg, amount - fee) == PaidFor(cfg, amount, fee);
    }
  }

  /** The coins of the bridge's own denomination. */
  function Matching(cfg: Config, funds: seq<Coin>): seq<Coin> {
    if funds == [] then [] else
    var front, coin := Matching(cfg, funds[..|funds| - 1]), funds[|funds| - 1];
    if coin.denom == cfg.denom then front + [coin] else front
  }

  function Burns(coins: seq<Coin>): (msgs: seq<Msg>)
    ensures |msgs| == |coins| && forall i :: 0 <= i < |coins| ==> msgs[i] == Burn(coins[i].amount)
  {
    seq(|coins|, i requires 0 <= i < |coins| => Burn(coins[i].amount))
  }

  function PaidOuts(cfg: Config, script: Bytes, fee: nat, coins: seq<Coin>): (outs: seq<TxOut>)
    requires cfg.unitsPerSat > 0
    ensures |outs| == |coins|
    ensures forall i :: 0 <= i < |coins| ==> outs[i] == TxOut(PaidFor(cfg, coins[i].amount, fee), script)
  {
    seq(|coins|, i requires 0 <= i < |coins| => TxOut(PaidFor(cfg, coins[i].amount, fee), script))
  }

  /** Exactly these outputs went onto the building checkpoint. */
  ghost predicate Appended(q: Queue, q': Queue, outs: seq<TxOut>) {
    if outs == [] then q' == q else LastReplaced(q, q') && Grown(Last(q), Last(q'), [], outs, [])
  }

  lemma AppendedTwice(q: Queue, q1: Queue, q2: Queue, first: seq<TxOut>, second: TxOut)
    requires Appended(q, q1, first) && LastReplaced(q1, q2) && Grown(Last(q1), Last(q2), [], [second], [])
    ensures Appended(q, q2, first + [second])
  {
    if first != [] {
      GrownTwice(Last(q), Last(q1), Last(q2), first, [second]);
    } else {
      assert first + [second] == [second];
    }
  }

  lemma AppendedKeeps(o: Oracle, q: Queue, q': Queue, outs: seq<TxOut>)
    requires Shape(q) && Appended(q, q', outs)
    ensures Shape(q') && (q.cps != [] ==> q'.cps != [] && Last(q').feeRate == Last(q).feeRate)
  {
    AddedKeepsShape(o, q, q', outs);
  }

  /** A withdrawal burns each coin of its own denomination and pays each out by one output, in
      order and at the same fee; it leaves other coins alone. */
  lemma {:induction false} WithdrawExactly(o: Oracle, cfg: Config, s: State, script: Bytes, funds: seq<Coin>)
    requires GoodConfig(cfg) && Shape(s.queue) && s.queue.cps != [] && Withdraw(o, cfg, s, script, funds).Ok?
    ensures var r, coins := Withdraw(o, cfg, s, script, funds).value, Matching(cfg, funds);
            && r.1 == Burns(coins)
            && Appended(s.queue, r.0.queue, PaidOuts(cfg, script, WithdrawFee(cfg, s.queue, script), coins))
    decreases |funds|
  {
    if funds != [] {
      var n := |funds| - 1;
      WithdrawExactly(o, cfg, s, script, funds[..n]);
      if funds[n].denom == cfg.denom {
        WithdrawNext(o, cfg, s, script, funds, n);
      }
    }
  }

  lemma WithdrawNext(o: Oracle, cfg: Config, s: State, script: Bytes, funds: seq<Coin>, n: nat)
    requires GoodConfig(cfg) && Shape(s.queue) && s.queue.cps != [] && Withdraw(o, cfg, s, script, funds).Ok?
    requires |funds| == n + 1 && funds[n].denom == cfg.denom
    requires var r, coins := Withdraw(o, cfg, s, script, funds[..n]).value, Matching(cfg, funds[..n]);
             && r.1 == Burns(coins)
             && Appended(s.queue, r.0.queue, PaidOuts(cfg, script, WithdrawFee(cfg, s.queue, script), coins))
    ensures var r, coins := Withdraw(o, cfg, s, script, funds).value, Matching(cfg, funds);
            && r.1 == Burns(coins)
            && Appended(s.queue, r.0.queue, PaidOuts(cfg, script, WithdrawFee(cfg, s.queue, script), coins))
  {
    var front, coins, fee := Withdraw(o, cfg, s, script, funds[..n]).value, Matching(cfg, funds[..n]),
                             WithdrawFee(cfg, s.queue, script);
    var outs, out := PaidOuts(cfg, script, fee, coins), TxOut(PaidFor(cfg, funds[n].amount, fee), script);
    AppendedKeeps(o, s.queue, front.0.queue, outs);
    WithdrawalExactly(o, cfg, front.0, script, funds[n].amount);
    var next := AddWithdrawal(o, cfg, front.0, script, funds[n].amount).value;
    AppendedTwice(s.queue, front.0.queue, next.queue, outs, out);
    assert PaidOuts(cfg, script, fee, coins + [funds[n]]) == outs + [out];
    assert Burns(coins + [funds[n]]) == Burns(coins) + [Burn(funds[n].amount)];
  }

  // ----- relay_checkpoint -----

  /** A confirmation succeeds exactly when it is proven, read from the queue and above the one
      confirmed before; it moves nothing but the confirmed index. */
  lemma ConfirmExactly(s: State, i: nat, proven: bool)
    requires Ordered(s.queue)
    ensures var r := RelayCheckpoint(s, i, proven);
            && (r.Ok? <==>
                  && proven && s.queue.index + 1 - |s.queue.cps| <= i <= s.queue.index
                  && (s.queue.confirmed.Some? ==> i > s.queue.confirmed.value))
            && (r.Ok? ==> r.value == s.(queue := s.queue.(confirmed := Some(i))))
  {
  }

  // ----- sign -----

  lemma SignUnfolds(o: Oracle, q: Queue, xpub: Xpub, sigs: seq<Signature>, i: nat, h: nat)
    ensures SignAt(o, q, xpub, sigs, i, h).Ok? <==>
              && InRange(q, i) && !q.cps[i - Start(q)].status.Building?
              && Signing.SignCheckpoint(o, q.cps[i - Start(q)], xpub, sigs, h).Ok?
  {
  }

  /** A signature on a checkpoint succeeds exactly when the checkpoint is in the queue, no longer
      building, and the signatures answer what the key is asked for, one for one. */
  lemma SignExactly(o: Oracle, q: Queue, xpub: Xpub, sigs: seq<Signature>, i: nat, h: nat)
    requires Shape(q)
    ensures SignAt(o, q, xpub, sigs, i, h).Ok? <==>
              && q.index + 1 - |q.cps| <= i <= q.index
              && var cp := q.cps[i - (q.index + 1 - |q.cps|)];
                 var tasks := Signing.ToSign(Signing.TxLister(o, xpub), cp.batches);
                 && !cp.status.Building? && tasks.Ok? && |sigs| == |tasks.value|
                 && Signing.Answers(o, xpub, tasks.value, sigs)
  {
    SignUnfolds(o, q, xpub, sigs, i, h);
    if InRange(q, i) {
      SignAnswers(o, q.cps[i - Start(q)], xpub, sigs, h);
    }
  }

  lemma SignAnswers(o: Oracle, cp: Checkpoint, xpub: Xpub, sigs: seq<Signature>, h: nat)
    requires CpValid(cp)
    ensures var tasks := Signing.ToSign(Signing.TxLister(o, xpub), cp.batches);
            Signing.SignCheckpoint(o, cp, xpub, sigs, h).Ok? <==>
              tasks.Ok? && |sigs| == |tasks.value| && Signing.Answers(o, xpub, tasks.value, sigs)
  {
    Signing.SignCheckpointCorrect(o, cp, xpub, sigs, h);
  }

  // ----- relay_deposit -----

  /** The input of a deposit can be built: the set has members and their powers fit a word. */
  predicate Spendable(sigset: SignatorySet) {
    sigset.signatories != [] && Sum(TS.EntriesOf(sigset.signatories), TS.Power) < U64
  }

  lemma NewInputExactly(o: Oracle, prevout: OutPoint, sigset: SignatorySet, dest: Bytes, amount: nat)
    ensures NewInput(o, prevout, sigset, dest, amount).Ok? <==> Spendable(sigset)
  {
    TS.FreshValid(TS.EntriesOf(sigset.signatories));
  }

  /** A deposit can be credited: its value fits a word in units and covers the fee. */
  ghost predicate CanCredit(cfg: Config, s: State, d: Deposit, cp: Checkpoint)
    requires cfg.unitsPerSat > 0 && s.queue.cps != []
  {
    var vsize := |cp.sigset.signatories| * 79 + 39 + 40;
    && Spendable(cp.sigset) && d.output.value * cfg.unitsPerSat < U64 && FeeInWords(cfg, vsize, cp.feeRate)
    && FeeAt(cfg, vsize, cp.feeRate) <= d.output.value * cfg.unitsPerSat && FeeTaken(cfg, s, FeeAt(cfg, vsize, cp.feeRate))
  }

  lemma CreditExactly(o: Oracle, cfg: Config, s: State, d: Deposit, cp: Checkpoint)
    requires GoodConfig(cfg) && Ordered(s.queue) && s.queue.cps != []
    ensures CreditDeposit(o, cfg, s, d, cp).Ok? <==> CanCredit(cfg, s, d, cp)
  {
    var vsize, dest := |cp.sigset.signatories| * 79 + 39 + 40, o.commitment(d.dest);
    NewInputExactly(o, d.outpoint, cp.sigset, dest, d.output.value);
    UserFeeMeans(cfg, vsize, cp.feeRate);
    assert Times(d.output.value, cfg.unitsPerSat) == d.output.value * cfg.unitsPerSat;
    if Spendable(cp.sigset) && FeeInWords(cfg, vsize, cp.feeRate) {
      var input := NewInput(o, d.outpoint, cp.sigset, dest, d.output.value).value;
      EnterExactly(cfg, s, FeeAt(cfg, vsize, cp.feeRate), [input], [], [CreditOf(cfg, d, FeeAt(cfg, vsize, cp.feeRate))]);
    }
  }

  /** A deposit to an expired set can be moved: both sets have members and the fee fits a word. */
  ghost predicate CanRecover(o: Oracle, s: State, d: Deposit, expired: SignatorySet)
    requires s.queue.cps != []
  {
    var building := Last(s.queue);
    && Spendable(expired) && building.sigset.signatories != []
    && var size := MoveSize(o, d.outpoint, d.output.value, expired, building.sigset, d.dest);
       size < U64 && building.feeRate * size < U64
  }

  lemma RecoverExactly(o: Oracle, s: State, d: Deposit, expired: SignatorySet)
    requires Ordered(s.queue) && s.queue.cps != []
    ensures RecoverDeposit(o, s, d, expired).Ok? <==> CanRecover(o, s, d, expired)
  {
    assert Get(s.queue, s.queue.index) == Ok(Last(s.queue));
    NewInputExactly(o, d.outpoint, expired, o.commitment(d.dest), d.output.value);
  }

  lemma RelayUnfolds(o: Oracle, cfg: Config, s: State, d: Deposit, cp: Checkpoint)
    requires cfg.unitsPerSat > 0 && Get(s.queue, d.sigsetIndex) == Ok(cp)
    ensures var s1 := s.(outpoints := s.outpoints + {d.outpoint});
            RelayDeposit(o, cfg, s, d).Ok? <==>
              && Proper(o, s, d, cp)
              && if Expired(cfg, d, cp) then RecoverDeposit(o, s1, d, cp.sigset).Ok?
                 else CreditDeposit(o, cfg, s1, d, cp).Ok?
  {
  }

  lemma CanSame(o: Oracle, cfg: Config, s: State, s1: State, d: Deposit, cp: Checkpoint)
    requires cfg.unitsPerSat > 0 && s.queue.cps != [] && s1.queue == s.queue && s1.feePool == s.feePool
    ensures CanCredit(cfg, s1, d, cp) <==> CanCredit(cfg, s, d, cp)
    ensures CanRecover(o, s1, d, cp.sigset) <==> CanRecover(o, s, d, cp.sigset)
  {
  }

  /** A relayed deposit is accepted exactly when it has passed every check and can be credited, or,
      to a set older than the maximum deposit age, moved to a recovery transaction. */
  lemma RelayExactly(o: Oracle, cfg: Config, s: State, d: Deposit)
    requires GoodConfig(cfg) && Ordered(s.queue)
    ensures RelayDeposit(o, cfg, s, d).Ok? <==>
              && s.queue.index + 1 - |s.queue.cps| <= d.sigsetIndex <= s.queue.index
              && var cp := s.queue.cps[d.sigsetIndex - (s.queue.index + 1 - |s.queue.cps|)];
                 && Proper(o, s, d, cp)
                 && if d.now > cp.sigset.createTime + cfg.maxDepositAge then CanRecover(o, s, d, cp.sigset)
                    else CanCredit(cfg, s, d, cp)
  {
    if Get(s.queue, d.sigsetIndex).Ok? {
      var cp, s1 := Get(s.queue, d.sigsetIndex).value, s.(outpoints := s.outpoints + {d.outpoint});
      RelayUnfolds(o, cfg, s, d, cp);
      CreditExactly(o, cfg, s1, d, cp);
      RecoverExactly(o, s1, d, cp.sigset);
      CanSame(o, cfg, s, s1, d, cp);
    }
  }

  // ----- clock_end_block -----

  /** The blocks processed so far have different hashes, and these are the ones remembered. */
  ghost predicate Remembered(w: World) {
    && (forall i, j :: 0 <= i < j < |w.hist.blocks| ==> w.hist.blocks[i].commitment != w.hist.blocks[j].commitment)
    && (forall i :: 0 <= i < |w.hist.blocks| ==> w.hist.blocks[i].commitment in w.st.hashes)
  }

  lemma SameHashes(o: Oracle, cfg: Config, s: State, e: Event)
    requires GoodConfig(cfg) && Shape(s.queue) && Execute(o, cfg, s, e).Ok? && !e.EndBlockEvent?
    ensures Execute(o, cfg, s, e).value.0.hashes == s.hashes
  {
    match e {
      case RelayDepositEvent(d) =>
        var t := DepositOutcome(o, cfg, s, d, RelayDeposit(o, cfg, s, d).value);
      case WithdrawEvent(script, funds) =>
        var outs := WithdrawGrows(o, cfg, s, script, funds);
      case _ =>
    }
  }

  lemma BlockRemembered(o: Oracle, cfg: Config, s: State, b: Block, env: PayoutEnv)
    requires ClockEndBlock(o, cfg, s, b, env).Ok?
    ensures b.commitment !in s.hashes
    ensures ClockEndBlock(o, cfg, s, b, env).value.0.hashes == s.hashes + {b.commitment}
  {
  }

  lemma RecordBlocks(o: Oracle, cfg: Config, s: State, e: Event, s': State, msgs: seq<Msg>, hist: History)
    ensures Record(o, cfg, s, e, s', msgs, hist).blocks == hist.blocks + (if e.EndBlockEvent? then [e.block] else [])
  {
  }

  lemma EventRemembers(o: Oracle, cfg: Config, w: World, e: Event, w': World)
    requires GoodConfig(cfg) && StateInv(o, cfg, w.st) && Remembered(w) && Execute(o, cfg, w.st, e).Ok?
    requires w'.st == Execute(o, cfg, w.st, e).value.0
    requires w'.hist.blocks == w.hist.blocks + (if e.EndBlockEvent? then [e.block] else [])
    ensures Remembered(w')
  {
    if e.EndBlockEvent? {
      BlockRemembered(o, cfg, w.st, e.block, e.env);
    } else {
      SameHashes(o, cfg, w.st, e);
    }
  }

  /** Over every run no block is processed twice. */
  lemma {:induction false} RunRemembers(o: Oracle, cfg: Config, es: seq<Event>)
    requires GoodConfig(cfg) && HonestRun(o, cfg, START, es)
    ensures Remembered(Run(o, cfg, START, es))
    decreases |es|
  {
    if es != [] {
      var before, e := es[..|es| - 1], es[|es| - 1];
      RunRemembers(o, cfg, before);
      RunKeepsInv(o, cfg, before);
      var w := Run(o, cfg, START, before);
      var done := Execute(o, cfg, w.st, e);
      if done.Ok? {
        RecordBlocks(o, cfg, w.st, e, done.value.0, done.value.1, w.hist);
        EventRemembers(o, cfg, w, e, Run(o, cfg, START, es));
      }
    }
  }
}
