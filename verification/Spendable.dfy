/**
  Complete checkpoints can be spent. In every reachable queue each input carries shares of a
  signatory set its redeem script was compiled for, stored signatures verify for the sighash
  of the frozen transaction, and a Complete checkpoint has every input over its threshold.
 */
module Spendable {
  import opened Common
  import opened BitcoinTypes
  import opened Transactions
  import opened SignatorySets
  import opened Ordering
  import opened Advance
  import opened CheckpointQueue
  import opened QueueInvariants
  import opened StepInvariants
  import opened StepOutcomes
  import opened Payouts
  import opened Bridge
  import opened BridgeInvariants
  import opened BridgeRun
  import opened DepositOutcomes
  import opened RunInvariants
  import opened Eras
  import opened Witnesses
  import ScriptNums
  import Scripts
  import RedeemScripts
  import Signing
  import TS = ThresholdSigs

  // ----- inputs -----

  /** The shares are those of a signatory set, and the redeem script was compiled for it. */
  ghost predicate Origin(o: Oracle, i: Input, sigset: SignatorySet, dest: Bytes) {
    && SignatorySets.WellFormed(sigset) && sigset.signatories != [] && i.sigsetIndex == sigset.index && i.dest == dest
    && Matches(i.signatures, sigset) && i.redeemScript == o.redeemScript(sigset, dest)
    && i.scriptPubkey == o.p2wsh(i.redeemScript)
  }

  /** The input was made for the set of its number. */
  ghost predicate Placed(o: Oracle, sets: seq<SignatorySet>, i: Input) {
    i.sigsetIndex < |sets| && Origin(o, i, sets[i.sigsetIndex], i.dest)
  }

  /** Every stored signature verifies for the message and its own key. */
  ghost predicate SigsVerified(o: Oracle, ts: ThresholdSig) {
    forall k :: 0 <= k < |ts.sigs| && ts.sigs[k].share.sig.Some? ==>
      o.verify(ts.message, ts.sigs[k].key, ts.sigs[k].share.sig.value)
  }

  /** A well-formed set of the run. */
  ghost predicate Known(sets: seq<SignatorySet>, sigset: SignatorySet) {
    SignatorySets.WellFormed(sigset) && sigset.index < |sets| && sets[sigset.index] == sigset
  }

  ghost predicate Sound(o: Oracle, sets: seq<SignatorySet>, i: Input) {
    SigsVerified(o, i.signatures) && Placed(o, sets, i)
  }

  ghost predicate SameShares(a: ThresholdSig, b: ThresholdSig) {
    |a.sigs| == |b.sigs| && forall k :: 0 <= k < |a.sigs| ==> Rank(a.sigs[k]) == Rank(b.sigs[k])
  }

  lemma SoundKept(o: Oracle, sets: seq<SignatorySet>, a: Input, b: Input)
    requires Sound(o, sets, a) && b == a.(signatures := b.signatures) && SameShares(a.signatures, b.signatures)
    requires SigsVerified(o, b.signatures)
    ensures Sound(o, sets, b)
  {
  }

  lemma NewInputSound(o: Oracle, sets: seq<SignatorySet>, prevout: OutPoint, sigset: SignatorySet, dest: Bytes,
                      amount: nat, i: Input)
    requires Known(sets, sigset) && NewInput(o, prevout, sigset, dest, amount) == Ok(i)
    ensures Sound(o, sets, i) && i.sigsetIndex == sigset.index && i.dest == dest
  {
    FreshMatches(sigset);
  }

  ghost predicate AllSound(o: Oracle, sets: seq<SignatorySet>, ins: seq<Input>) {
    forall k :: 0 <= k < |ins| ==> Sound(o, sets, ins[k])
  }

  // ----- signing -----

  lemma SignOneSound(o: Oracle, sets: seq<SignatorySet>, xpub: Xpub, i: Input, sigs: seq<Signature>)
    requires Sound(o, sets, i) && Signing.SignInput(o, xpub, i, sigs).Ok?
    ensures |Signing.SignInput(o, xpub, i, sigs).value.items| == 1
    ensures Sound(o, sets, Signing.SignInput(o, xpub, i, sigs).value.items[0])
  {
    var b := Signing.SignInput(o, xpub, i, sigs).value.items[0];
    SoundKept(o, sets, i, b);
  }

  lemma {:induction false} SignInputsSound(o: Oracle, sets: seq<SignatorySet>, xpub: Xpub, ins: seq<Input>,
                                        sigs: seq<Signature>)
    requires AllSound(o, sets, ins) && Signing.PassAll(Signing.InputSigner(o, xpub), ins, sigs).Ok?
    ensures AllSound(o, sets, Signing.PassAll(Signing.InputSigner(o, xpub), ins, sigs).value.items)
  {
    if ins != [] {
      var n := |ins| - 1;
      SignInputsSound(o, sets, xpub, ins[..n], sigs);
      var front := Signing.PassAll(Signing.InputSigner(o, xpub), ins[..n], sigs).value;
      SignOneSound(o, sets, xpub, ins[n], front.rest);
    }
  }

  /** For a checkpoint of one transaction, signing is one pass over its inputs. */
  lemma SignedInputs(o: Oracle, cp: Checkpoint, xpub: Xpub, sigs: seq<Signature>, h: nat, signed: Checkpoint)
    requires SingleTx(cp) && Signing.SignCheckpoint(o, cp, xpub, sigs, h) == Ok(signed)
    ensures var p := Signing.PassAll(Signing.InputSigner(o, xpub), Tx(cp).input, sigs);
            && p.Ok? && SingleTx(signed) && Tx(signed).input == p.value.items
            && Tx(signed).lockTime == Tx(cp).lockTime && Tx(signed).output == Tx(cp).output
            && signed.sigset == cp.sigset
  {
    var f := Signing.TxSigner(o, xpub);
    OneTx(f, Tx(cp), sigs);
    assert cp.batches[0].txs == [Tx(cp)] && cp.batches[1..] == [];
    assert Signing.SignBatches(f, [], Signing.PassAll(f, [Tx(cp)], sigs).value.rest).Ok?;
  }

  lemma OneTx(f: Signing.Signer<BitcoinTx>, tx: BitcoinTx, sigs: seq<Signature>)
    ensures Signing.PassAll(f, [tx], sigs).Ok? <==> f(tx, sigs).Ok?
    ensures f(tx, sigs).Ok? ==>
              && Signing.PassAll(f, [tx], sigs).value.items == f(tx, sigs).value.items
              && Signing.PassAll(f, [tx], sigs).value.rest == f(tx, sigs).value.rest
  {
    assert [tx][..0] == [];
    assert Signing.PassAll(f, [], sigs) == Ok(Signing.Pass([], sigs, 0));
  }

  // ----- checkpoints -----

  /** Every input is to be signed for the sighash of this transaction. */
  ghost predicate Messages(o: Oracle, tx: BitcoinTx) {
    forall j :: 0 <= j < |tx.input| ==>
      tx.input[j].signatures.message == o.sighash(Body(tx), j, tx.input[j].redeemScript, tx.input[j].amount)
  }

  ghost predicate CpSound(o: Oracle, sets: seq<SignatorySet>, cp: Checkpoint) {
    && Known(sets, cp.sigset) && AllSound(o, sets, Tx(cp).input) && FromReserve(cp)
    && (!cp.status.Building? ==> Messages(o, Tx(cp)) && PaysItself(o, cp))
  }

  /** Except in checkpoint 0, input 0 was made for the set before, with the commitment [0]. */
  predicate FromReserve(cp: Checkpoint) {
    cp.sigset.index > 0 ==>
      Tx(cp).input != [] && Tx(cp).input[0].sigsetIndex == cp.sigset.index - 1 && Tx(cp).input[0].dest == [0]
  }

  /** The reserve output pays the checkpoint's own set, with the commitment [0]. */
  ghost predicate PaysItself(o: Oracle, cp: Checkpoint) {
    && cp.sigset.signatories != [] && Tx(cp).output != []
    && Tx(cp).output[0].script == o.p2wsh(o.redeemScript(cp.sigset, [0]))
  }

  ghost predicate QueueSound(o: Oracle, sets: seq<SignatorySet>, q: Queue) {
    forall k :: 0 <= k < |q.cps| ==> CpSound(o, sets, q.cps[k])
  }

  lemma SignKeepsSound(o: Oracle, sets: seq<SignatorySet>, cp: Checkpoint, xpub: Xpub, sigs: seq<Signature>,
                       h: nat, signed: Checkpoint)
    requires CpValid(cp) && CpSound(o, sets, cp) && !cp.status.Building?
    requires Signing.SignCheckpoint(o, cp, xpub, sigs, h) == Ok(signed)
    ensures SingleTx(signed) && CpSound(o, sets, signed) && Messages(o, Tx(signed)) && PaysItself(o, signed)
  {
    SignedInputs(o, cp, xpub, sigs, h, signed);
    SignInputsSound(o, sets, xpub, Tx(cp).input, sigs);
    assert Signing.TxValid(cp.batches[0].txs[0]) by {
      assert Signing.BatchValid(cp.batches[0]);
    }
    Signing.SignInputsKept(o, xpub, Tx(cp).input, sigs);
    MessagesKept(o, Tx(cp), Tx(signed));
  }

  lemma MessagesKept(o: Oracle, a: BitcoinTx, b: BitcoinTx)
    requires Messages(o, a) && |a.input| == |b.input| && a.lockTime == b.lockTime && a.output == b.output
    requires forall j :: 0 <= j < |a.input| ==> Signing.InputExtends(a.input[j], b.input[j])
    ensures Messages(o, b)
  {
    assert Prevouts(b.input) == Prevouts(a.input) by {
      forall j | 0 <= j < |a.input| ensures b.input[j].prevout == a.input[j].prevout {
        assert Signing.InputExtends(a.input[j], b.input[j]);
      }
    }
    forall j | 0 <= j < |b.input|
      ensures b.input[j].signatures.message == o.sighash(Body(b), j, b.input[j].redeemScript, b.input[j].amount)
    {
      assert Signing.InputExtends(a.input[j], b.input[j]);
    }
  }

  // ----- freezing and handing over -----

  lemma UnsignedVerified(o: Oracle, ts: ThresholdSig)
    requires TS.Unsigned(ts.sigs)
    ensures SigsVerified(o, ts)
  {
  }

  lemma MessageSound(o: Oracle, sets: seq<SignatorySet>, body: TxBody, i: nat, input: Input)
    requires Sound(o, sets, input) && TS.Unsigned(input.signatures.sigs)
    ensures Sound(o, sets, WithMessage(o, body, i, input))
  {
    var b := WithMessage(o, body, i, input);
    UnsignedVerified(o, b.signatures);
    SoundKept(o, sets, input, b);
  }

  lemma MessagesSound(o: Oracle, sets: seq<SignatorySet>, body: TxBody, ins: seq<Input>)
    requires AllSound(o, sets, ins) && Pristine(ins)
    ensures AllSound(o, sets, WithMessages(o, body, ins))
  {
    var r := WithMessages(o, body, ins);
    forall k | 0 <= k < |r| ensures Sound(o, sets, r[k]) {
      assert TS.Unsigned(ins[k].signatures.sigs);
      MessageSound(o, sets, body, k, ins[k]);
    }
  }

  lemma FrozenSound(o: Oracle, sets: seq<SignatorySet>, cfg: CheckpointConfig, cp: Checkpoint, commitment: Bytes,
                    fees: nat, a: Advanced)
    requires CpSound(o, sets, cp) && Untouched(cp) && Freeze(o, cfg, cp, commitment, fees) == Ok(a) && ValidConfig(cfg)
    ensures CpSound(o, sets, a.cp) && AllSound(o, sets, a.excessInputs)
  {
    var ins := Take(Tx(cp).input, cfg.maxInputs);
    var body := TxBody(Tx(cp).lockTime, Prevouts(ins), Tx(a.cp).output);
    assert Tx(a.cp).input == WithMessages(o, body, ins);
    PristineParts(Tx(cp).input, cfg.maxInputs);
    PartsSound(o, sets, Tx(cp).input, cfg.maxInputs);
    MessagesSound(o, sets, body, ins);
    MessagesKeepAmounts(o, body, ins);
    FrozenMessages(o, body, ins, Tx(a.cp));
    FrozenPays(o, cfg, cp, commitment, fees, a);
    assert Tx(cp).input != [] ==> ins[0] == Tx(cp).input[0];
  }

  lemma FrozenPays(o: Oracle, cfg: CheckpointConfig, cp: Checkpoint, commitment: Bytes, fees: nat, a: Advanced)
    requires SingleTx(cp) && Freeze(o, cfg, cp, commitment, fees) == Ok(a) && cfg.maxOutputs >= 2
    ensures PaysItself(o, a.cp)
  {
    var outs := AdditionalOutputs(o, cp.sigset, commitment).value;
    assert Take(outs + Tx(cp).output, cfg.maxOutputs)[0] == outs[0];
  }

  lemma FrozenMessages(o: Oracle, body: TxBody, ins: seq<Input>, tx: BitcoinTx)
    requires tx.input == WithMessages(o, body, ins) && Body(tx) == body
    ensures Messages(o, tx)
  {
  }

  lemma PartsSound(o: Oracle, sets: seq<SignatorySet>, ins: seq<Input>, n: nat)
    requires AllSound(o, sets, ins)
    ensures AllSound(o, sets, Take(ins, n)) && AllSound(o, sets, Reverse(Drop(ins, n)))
  {
  }

  lemma {:induction false} RefreshSound(o: Oracle, sets: seq<SignatorySet>, ins: seq<Input>, n: nat)
    requires AllSound(o, sets, ins) && Pristine(ins) && n <= |ins|
    ensures Refresh(ins, n).Ok? && AllSound(o, sets, Refresh(ins, n).value)
  {
    RefreshPristine(ins, n);
    if n > 0 {
      RefreshSound(o, sets, ins, n - 1);
      RefreshedSound(o, sets, ins[n - 1]);
      var refreshed := ins[n - 1].(signatures := TS.Fresh(ins[n - 1].signatures.sigs).value);
      SoundMore(o, sets, Refresh(ins, n - 1).value, refreshed);
      assert Refresh(ins, n) == Ok(Refresh(ins, n - 1).value + [refreshed]);
    }
  }

  lemma SoundMore(o: Oracle, sets: seq<SignatorySet>, ins: seq<Input>, i: Input)
    requires AllSound(o, sets, ins) && Sound(o, sets, i)
    ensures AllSound(o, sets, ins + [i])
  {
  }

  lemma RefreshedSound(o: Oracle, sets: seq<SignatorySet>, i: Input)
    requires Sound(o, sets, i) && TS.Fresh(i.signatures.sigs).Ok?
    ensures Sound(o, sets, i.(signatures := TS.Fresh(i.signatures.sigs).value))
  {
    var b := i.(signatures := TS.Fresh(i.signatures.sigs).value);
    UnsignedVerified(o, b.signatures);
    SoundKept(o, sets, i, b);
  }

  lemma NextSound(o: Oracle, sets: seq<SignatorySet>, a: Advanced, sigset: SignatorySet, dep: bool, rate: nat,
                  next: Checkpoint)
    requires Known(sets, sigset) && Known(sets, a.cp.sigset) && sigset.index == a.cp.sigset.index + 1
    requires AllSound(o, sets, a.excessInputs) && Pristine(a.excessInputs)
    requires Succeed(o, a, NewCheckpoint(sigset, dep), rate) == Ok(next)
    ensures CpSound(o, sets, next)
  {
    var reserve, excess := SucceedParts(o, a, sigset, dep, rate, next);
    NewInputSound(o, sets, a.reserveOutpoint, a.cp.sigset, [0], a.reserveValue, reserve);
    RefreshSound(o, sets, a.excessInputs, |a.excessInputs|);
  }

  lemma NewSetWellFormed(o: Oracle, q: Queue, b: Block, sigset: SignatorySet)
    requires NextSigset(o, q, b) == Ok(sigset)
    ensures SignatorySets.WellFormed(sigset) && sigset.index == NextIndex(q)
  {
    FromValidatorsWellFormed(o, b.ctx, b.now, NextIndex(q));
  }

  lemma PushSound(o: Oracle, sets: seq<SignatorySet>, cfg: CheckpointConfig, q: Queue, b: Block, dep: bool, p: StepParts)
    requires ValidConfig(cfg) && Shape(q) && QueueSound(o, sets, q) && Known(sets, p.sigset)
    requires Computed(o, cfg, q, b, dep, p) && Fits(o, q, p.advanced, p.next, p.fees)
    ensures CpSound(o, sets, p.advanced.cp) && CpSound(o, sets, p.next)
  {
    LastBuilding(q);
    BuildingUntouched(Last(q));
    assert CpSound(o, sets, Last(q));
    assert Last(q).sigset.index == q.index;
    FrozenSound(o, sets, cfg, Last(q), b.commitment, p.fees, p.advanced);
    NextSound(o, sets, p.advanced, p.sigset, dep, p.rate, p.next);
  }

  // ----- more sets -----

  lemma MoreSets(o: Oracle, sets: seq<SignatorySet>, more: seq<SignatorySet>, q: Queue)
    requires QueueSound(o, sets, q)
    ensures QueueSound(o, sets + more, q)
  {
    forall k | 0 <= k < |q.cps| ensures CpSound(o, sets + more, q.cps[k]) {
      assert CpSound(o, sets, q.cps[k]);
      MoreInputs(o, sets, more, Tx(q.cps[k]).input);
    }
  }

  lemma MoreInputs(o: Oracle, sets: seq<SignatorySet>, more: seq<SignatorySet>, ins: seq<Input>)
    requires AllSound(o, sets, ins)
    ensures AllSound(o, sets + more, ins)
  {
    forall k | 0 <= k < |ins| ensures Sound(o, sets + more, ins[k]) {
      assert (sets + more)[ins[k].sigsetIndex] == sets[ins[k].sigsetIndex];
    }
  }

  lemma NewKnown(o: Oracle, sets: seq<SignatorySet>, q: Queue, b: Block, sigset: SignatorySet)
    requires Held(sets, q) && NextSigset(o, q, b) == Ok(sigset) && (q.cps == [] ==> q.index == 0)
    ensures Known(sets + [sigset], sigset)
  {
    NewSetWellFormed(o, q, b, sigset);
  }

  lemma StepSound(o: Oracle, sets: seq<SignatorySet>, cfg: Config, q: Queue, pool: int, b: Block, dep: bool, r: Stepped,
                  out: Outcome)
    requires GoodConfig(cfg) && Shape(q) && QueueSound(o, sets, q) && Held(sets, q)
    requires Describes(o, cfg, q, pool, b, dep, r, out)
    ensures QueueSound(o, sets + NewSets(q, r.queue), r.queue)
  {
    match out {
      case Idle =>
        assert sets + NewSets(q, q) == sets;
      case First(sigset) =>
        FirstSets(q, r.queue, NewCheckpoint(sigset, dep), b);
        NewKnown(o, sets, q, b, sigset);
      case Pushed(p) =>
        PushedQueueSound(o, sets, cfg, q, b, dep, r, p);
    }
  }

  lemma PushedQueueSound(o: Oracle, sets: seq<SignatorySet>, cfg: Config, q: Queue, b: Block, dep: bool, r: Stepped,
                         p: StepParts)
    requires GoodConfig(cfg) && Shape(q) && QueueSound(o, sets, q) && Held(sets, q)
    requires Computed(o, cfg.checkpoint, q, b, dep, p) && Fits(o, q, p.advanced, p.next, p.fees)
    requires Follows(q, r.queue, p.popped, p.advanced.cp, p.next)
    ensures QueueSound(o, sets + NewSets(q, r.queue), r.queue)
  {
    NextSet(o, p.advanced, p.sigset, dep, p.rate, p.next);
    PushedSets(q, r.queue, p.popped, p.advanced.cp, p.next, b);
    NewKnown(o, sets, q, b, p.sigset);
    MoreSets(o, sets, [p.sigset], q);
    PushSound(o, sets + [p.sigset], cfg.checkpoint, q, b, dep, p);
    FollowsSound(o, sets + [p.sigset], q, r.queue, p.popped, p.advanced.cp, p.next);
  }

  lemma FollowsSound(o: Oracle, sets: seq<SignatorySet>, q: Queue, r: Queue, k: nat, frozen: Checkpoint, next: Checkpoint)
    requires QueueSound(o, sets, q) && CpSound(o, sets, frozen) && CpSound(o, sets, next) && Follows(q, r, k, frozen, next)
    ensures QueueSound(o, sets, r)
  {
  }

  lemma ClearedSound(o: Oracle, sets: seq<SignatorySet>, q: Queue, q': Queue)
    requires QueueSound(o, sets, q) && AllCleared(q, q')
    ensures QueueSound(o, sets, q')
  {
    forall k | 0 <= k < |q'.cps| ensures CpSound(o, sets, q'.cps[k]) {
      assert Cleared(q.cps[k], q'.cps[k]) && CpSound(o, sets, q.cps[k]);
    }
  }

  // ----- deposits and withdrawals -----

  lemma GrownSound(o: Oracle, sets: seq<SignatorySet>, q: Queue, q': Queue, ins: seq<Input>, outs: seq<TxOut>,
                   ts: seq<Transfer>)
    requires Shape(q) && QueueSound(o, sets, q) && LastReplaced(q, q')
    requires Grown(Last(q), Last(q'), ins, outs, ts) && AllSound(o, sets, ins)
    ensures QueueSound(o, sets, q')
  {
    LastBuilding(q);
    assert CpSound(o, sets, Last(q));
    LastSound(o, sets, Last(q), Last(q'), ins, outs, ts);
    ReplacedSound(o, sets, q, q');
  }

  lemma LastSound(o: Oracle, sets: seq<SignatorySet>, a: Checkpoint, b: Checkpoint, ins: seq<Input>,
                  outs: seq<TxOut>, ts: seq<Transfer>)
    requires CpSound(o, sets, a) && a.status.Building? && Grown(a, b, ins, outs, ts) && AllSound(o, sets, ins)
    ensures CpSound(o, sets, b)
  {
  }

  lemma ReplacedSound(o: Oracle, sets: seq<SignatorySet>, q: Queue, q': Queue)
    requires QueueSound(o, sets, q) && LastReplaced(q, q') && CpSound(o, sets, Last(q'))
    ensures QueueSound(o, sets, q')
  {
  }

  lemma DepositSound(o: Oracle, sets: seq<SignatorySet>, cfg: Config, s: State, d: Deposit, s': State)
    requires GoodConfig(cfg) && Shape(s.queue) && QueueSound(o, sets, s.queue) && RelayDeposit(o, cfg, s, d) == Ok(s')
    ensures QueueSound(o, sets, s'.queue)
  {
    var cp, s1 := RelayCases(o, cfg, s, d, s');
    if !Expired(cfg, d, cp) {
      assert CpSound(o, sets, s.queue.cps[d.sigsetIndex - Start(s.queue)]);
      CreditSound(o, sets, cfg, s1, d, cp, s');
    } else {
      var tx, charged := RecoverOutcome(o, s1, d, cp.sigset, s');
    }
  }

  lemma CreditSound(o: Oracle, sets: seq<SignatorySet>, cfg: Config, s: State, d: Deposit, cp: Checkpoint, s': State)
    requires GoodConfig(cfg) && Shape(s.queue) && QueueSound(o, sets, s.queue) && Known(sets, cp.sigset)
    requires CreditDeposit(o, cfg, s, d, cp) == Ok(s')
    ensures QueueSound(o, sets, s'.queue)
  {
    var input, fee := CreditParts(o, cfg, s, d, cp, s');
    EnterEffect(cfg, s, fee, [input], [], [CreditOf(cfg, d, fee)], s');
    NewInputSound(o, sets, d.outpoint, cp.sigset, o.commitment(d.dest), d.output.value, input);
    GrownSound(o, sets, s.queue, s'.queue, [input], [], [CreditOf(cfg, d, fee)]);
  }

  lemma WithdrawSound(o: Oracle, sets: seq<SignatorySet>, cfg: Config, s: State, script: Bytes, funds: seq<Coin>)
    requires GoodConfig(cfg) && Shape(s.queue) && QueueSound(o, sets, s.queue) && Withdraw(o, cfg, s, script, funds).Ok?
    ensures QueueSound(o, sets, Withdraw(o, cfg, s, script, funds).value.0.queue)
  {
    var outs := WithdrawGrows(o, cfg, s, script, funds);
    var q' := Withdraw(o, cfg, s, script, funds).value.0.queue;
    if q' != s.queue {
      GrownSound(o, sets, s.queue, q', [], outs, []);
    }
  }

  // ----- runs -----

  lemma SignAtSound(o: Oracle, sets: seq<SignatorySet>, q: Queue, xpub: Xpub, sigs: seq<Signature>, i: nat,
                    h: nat, q': Queue)
    requires Shape(q) && QueueSound(o, sets, q) && SignAt(o, q, xpub, sigs, i, h) == Ok(q')
    ensures QueueSound(o, sets, q')
  {
    var k, signed := SignAtParts(o, q, xpub, sigs, i, h, q');
    assert CpSound(o, sets, q.cps[k]) && CpValid(q.cps[k]);
    SignKeepsSound(o, sets, q.cps[k], xpub, sigs, h, signed);
    AdvancedSound(o, sets, signed, q'.cps[k]);
    UpdatedSound(o, sets, q, k, q'.cps[k]);
  }

  lemma SignAtParts(o: Oracle, q: Queue, xpub: Xpub, sigs: seq<Signature>, i: nat, h: nat, q': Queue)
    returns (k: nat, signed: Checkpoint)
    requires SignAt(o, q, xpub, sigs, i, h) == Ok(q')
    ensures k < |q.cps| == |q'.cps| && !q.cps[k].status.Building?
    ensures Signing.SignCheckpoint(o, q.cps[k], xpub, sigs, h) == Ok(signed)
    ensures q' == q.(cps := q.cps[k := q'.cps[k]]) && q'.cps[k] == signed.(status := q'.cps[k].status)
  {
    k := i - Start(q);
    signed := Signing.SignCheckpoint(o, q.cps[k], xpub, sigs, h).value;
  }

  lemma AdvancedSound(o: Oracle, sets: seq<SignatorySet>, signed: Checkpoint, b: Checkpoint)
    requires SingleTx(signed) && CpSound(o, sets, signed) && Messages(o, Tx(signed)) && PaysItself(o, signed)
    requires b == signed.(status := b.status)
    ensures CpSound(o, sets, b)
  {
  }

  lemma UpdatedSound(o: Oracle, sets: seq<SignatorySet>, q: Queue, k: nat, b: Checkpoint)
    requires QueueSound(o, sets, q) && k < |q.cps| && CpSound(o, sets, b)
    ensures QueueSound(o, sets, q.(cps := q.cps[k := b]))
  {
  }

  lemma EventSound(o: Oracle, sets: seq<SignatorySet>, cfg: Config, s: State, e: Event, s': State, msgs: seq<Msg>)
    requires GoodConfig(cfg) && StateInv(o, cfg, s) && QueueSound(o, sets, s.queue) && Held(sets, s.queue)
    requires Execute(o, cfg, s, e) == Ok((s', msgs))
    ensures QueueSound(o, sets + EventSets(s, e, s'), s'.queue)
  {
    if e.EndBlockEvent? {
      EndBlockSound(o, sets, cfg, s, e.block, e.env, s');
    } else {
      QuietSound(o, sets, cfg, s, e, s', msgs);
      assert sets + [] == sets;
    }
  }

  lemma QuietSound(o: Oracle, sets: seq<SignatorySet>, cfg: Config, s: State, e: Event, s': State, msgs: seq<Msg>)
    requires GoodConfig(cfg) && StateInv(o, cfg, s) && QueueSound(o, sets, s.queue) && Held(sets, s.queue)
    requires Execute(o, cfg, s, e) == Ok((s', msgs)) && !e.EndBlockEvent?
    ensures QueueSound(o, sets, s'.queue)
  {
    match e {
      case RelayDepositEvent(d) =>
        DepositSound(o, sets, cfg, s, d, s');
      case WithdrawEvent(script, funds) =>
        WithdrawSound(o, sets, cfg, s, script, funds);
      case SignEvent(xpub, sigs, i, h) =>
        SignAtSound(o, sets, s.queue, xpub, sigs, i, h, s'.queue);
      case RelayCheckpointEvent(i, proven) =>
      case SignRecoveryEvent(xpub, sigs) =>
    }
  }

  /** The sets an event adds. */
  function EventSets(s: State, e: Event, s': State): seq<SignatorySet> {
    if e.EndBlockEvent? then NewSets(s.queue, s'.queue) else []
  }

  lemma EndBlockSound(o: Oracle, sets: seq<SignatorySet>, cfg: Config, s: State, b: Block, env: PayoutEnv, s': State)
    requires GoodConfig(cfg) && StateInv(o, cfg, s) && QueueSound(o, sets, s.queue) && Held(sets, s.queue)
    requires ClockEndBlock(o, cfg, s, b, env).Ok? && s' == ClockEndBlock(o, cfg, s, b, env).value.0
    ensures QueueSound(o, sets + NewSets(s.queue, s'.queue), s'.queue)
  {
    var t, out := EndBlockOutcome(o, cfg, s, b, env);
    ClearedSound(o, sets, s.queue, t.taken);
    ClearedHeld(sets, s.queue, t.taken);
    StepSound(o, sets, cfg, t.taken, s.feePool, b, t.dep, t.stepped, out);
    NewSetsFrom(s.queue, t.taken, s'.queue, b);
  }

  lemma ClearedHeld(sets: seq<SignatorySet>, q: Queue, q': Queue)
    requires Held(sets, q) && AllCleared(q, q')
    ensures Held(sets, q')
  {
    forall k | 0 <= k < |q'.cps| ensures q'.cps[k].sigset == sets[q'.index + 1 - |q'.cps| + k] {
      assert Cleared(q.cps[k], q'.cps[k]);
    }
  }

  lemma RecordSets(o: Oracle, cfg: Config, s: State, e: Event, s': State, msgs: seq<Msg>, hist: History)
    ensures Record(o, cfg, s, e, s', msgs, hist).sets == hist.sets + EventSets(s, e, s')
  {
  }

  /** Over every run the queue is sound for the sets of the run. */
  lemma {:induction false} RunSound(o: Oracle, cfg: Config, es: seq<Event>)
    requires GoodConfig(cfg) && HonestRun(o, cfg, START, es)
    ensures QueueSound(o, Run(o, cfg, START, es).hist.sets, Run(o, cfg, START, es).st.queue)
    decreases |es|
  {
    if es != [] {
      var before, e := es[..|es| - 1], es[|es| - 1];
      RunSound(o, cfg, before);
      RunKeepsInv(o, cfg, before);
      RunEra(o, cfg, before);
      var w := Run(o, cfg, START, before);
      var done := Execute(o, cfg, w.st, e);
      if done.Ok? {
        EventSound(o, w.hist.sets, cfg, w.st, e, done.value.0, done.value.1);
        RecordSets(o, cfg, w.st, e, done.value.0, done.value.1, w.hist);
      }
    }
  }

  // ----- complete checkpoints -----

  /** All inputs of a Complete checkpoint are over their threshold. */
  lemma CompleteSigned(cp: Checkpoint, j: nat)
    requires CpValid(cp) && cp.status.Complete? && j < |Tx(cp).input|
    ensures TS.Valid(Tx(cp).input[j].signatures) && TS.Signed(Tx(cp).input[j].signatures)
  {
    var tx, batch := Tx(cp), cp.batches[0];
    assert Signing.BatchValid(batch);
    assert Signing.TxValid(batch.txs[0]);
    assert BatchSigned(batch);
    assert batch.txs == [tx];
    SumSingle(tx, Signing.CountTx);
    Signing.CountBounds(tx.input);
  }

  /** How the checker of the stack machine relates to the verification of signatures over a
      message. */
  ghost predicate Corresponds(o: Oracle, check: Scripts.Checker, der: Signature -> Bytes, message: Hash) {
    && (forall key :: !check([], key))
    && (forall key, sig :: o.verify(message, key, sig) ==> check(der(sig) + [1], key))
  }

  /** The redeem scripts of the bridge are the compiled ones. */
  ghost predicate Compiles(o: Oracle) {
    forall sigset: SignatorySet, dest: Bytes :: sigset.signatories != [] ==>
      RedeemScripts.Redeem(sigset, dest) == Ok(o.redeemScript(sigset, dest))
  }

  /** What the witness of an input does to the script of the set it was made for: it is accepted
      exactly when the truncated power of the signers exceeds the truncated threshold, always
      so below 2^23, and with compiled scripts that script is the input's own. */
  ghost predicate Unlocks(o: Oracle, check: Scripts.Checker, der: Signature -> Bytes, i: Input, sigset: SignatorySet,
                          dest: Bytes)
  {
    var code := RedeemScripts.RedeemCode(sigset, dest);
    var accepted := Scripts.Accepts(check, code, Witness(der, i.signatures));
    var t := ScriptNums.Truncation(sigset.presentVp);
    && Origin(o, i, sigset, dest)
    && (DistinctKeys(sigset.signatories) ==>
          && (accepted <==> Sum(i.signatures.sigs, SignedWeight(t)) > RedeemScripts.TruncatedThreshold(sigset))
          && (sigset.presentVp < ScriptNums.LIMIT ==> accepted))
    && (Compiles(o) ==>
          && i.redeemScript == Scripts.Assemble(code)
          && (Scripts.AllWellFormed(code) ==> Scripts.Disassemble(i.redeemScript) == Ok(code)))
  }

  lemma OwnScript(o: Oracle, i: Input, sigset: SignatorySet, dest: Bytes)
    requires Compiles(o) && Origin(o, i, sigset, dest)
    ensures var code := RedeemScripts.RedeemCode(sigset, dest);
            && i.redeemScript == Scripts.Assemble(code)
            && (Scripts.AllWellFormed(code) ==> Scripts.Disassemble(i.redeemScript) == Ok(code))
  {
    var code := RedeemScripts.RedeemCode(sigset, dest);
    assert RedeemScripts.Redeem(sigset, dest) == Ok(o.redeemScript(sigset, dest));
    if Scripts.AllWellFormed(code) {
      Scripts.AssemblyRoundTrip(code);
    }
  }

  lemma InputUnlocks(o: Oracle, sets: seq<SignatorySet>, check: Scripts.Checker, der: Signature -> Bytes, i: Input)
    requires Sound(o, sets, i) && TS.Valid(i.signatures) && TS.Signed(i.signatures)
    requires Corresponds(o, check, der, i.signatures.message)
    ensures i.sigsetIndex < |sets| && Unlocks(o, check, der, i, sets[i.sigsetIndex], i.dest)
  {
    var sigset := sets[i.sigsetIndex];
    if DistinctKeys(sigset.signatories) {
      assert Verified(check, der, i.signatures);
      WitnessMeans(check, der, i.signatures, sigset, i.dest);
    }
    if Compiles(o) {
      OwnScript(o, i, sigset, i.dest);
    }
  }

  /** More than two thirds of the power has signed. */
  predicate TwoThirdsSigned(ts: ThresholdSig) {
    3 * Sum(ts.sigs, TS.SignedPower) > 2 * Sum(ts.sigs, TS.Power)
  }

  lemma SignedMeans(ts: ThresholdSig)
    requires TS.Valid(ts)
    ensures TS.Signed(ts) <==> TwoThirdsSigned(ts)
  {
  }

  /** What an input of a Complete checkpoint is like. */
  ghost predicate Spends(o: Oracle, sets: seq<SignatorySet>, check: Scripts.Checker, der: Signature -> Bytes,
                         tx: BitcoinTx, j: nat)
    requires j < |tx.input|
  {
    var i := tx.input[j];
    && TwoThirdsSigned(i.signatures) && SigsVerified(o, i.signatures)
    && i.signatures.message == o.sighash(Body(tx), j, i.redeemScript, i.amount)
    && i.sigsetIndex < |sets| && Unlocks(o, check, der, i, sets[i.sigsetIndex], i.dest)
  }

  /**
    Over every run, every input of every Complete checkpoint has signatures of more than two
    thirds of the signatory set of its number, for which its redeem script was compiled, all of
    them verifying for the sighash of the frozen transaction; and with distinct keys its witness
    makes that script accept exactly when the truncated powers suffice, always so below 2^23.
   */
  lemma CompleteIsSpendable(o: Oracle, cfg: Config, es: seq<Event>, k: nat, j: nat, check: Scripts.Checker,
                            der: Signature -> Bytes)
    requires GoodConfig(cfg) && HonestRun(o, cfg, START, es)
    requires var q := Run(o, cfg, START, es).st.queue;
             k < |q.cps| && q.cps[k].status.Complete? && j < |Tx(q.cps[k]).input|
    requires var tx := Tx(Run(o, cfg, START, es).st.queue.cps[k]);
             Corresponds(o, check, der, o.sighash(Body(tx), j, tx.input[j].redeemScript, tx.input[j].amount))
    ensures var w := Run(o, cfg, START, es); Spends(o, w.hist.sets, check, der, Tx(w.st.queue.cps[k]), j)
  {
    var w := Run(o, cfg, START, es);
    RunKeepsInv(o, cfg, es);
    RunSound(o, cfg, es);
    SpendInput(o, w.hist.sets, w.st.queue.cps[k], j, check, der);
  }

  lemma SpendInput(o: Oracle, sets: seq<SignatorySet>, cp: Checkpoint, j: nat, check: Scripts.Checker,
                   der: Signature -> Bytes)
    requires CpValid(cp) && CpSound(o, sets, cp) && cp.status.Complete? && j < |Tx(cp).input|
    requires var i := Tx(cp).input[j];
             Corresponds(o, check, der, o.sighash(Body(Tx(cp)), j, i.redeemScript, i.amount))
    ensures Spends(o, sets, check, der, Tx(cp), j)
  {
    CompleteSigned(cp, j);
    SignedMeans(Tx(cp).input[j].signatures);
    InputUnlocks(o, sets, check, der, Tx(cp).input[j]);
  }

  // ----- the reserve is spent by its own script -----

  /** Input 0 of the checkpoint after a frozen one carries the script that locks the frozen
      reserve. */
  lemma ReserveScripts(o: Oracle, cfg: Config, es: seq<Event>, k: nat)
    requires GoodConfig(cfg) && HonestRun(o, cfg, START, es)
    requires k + 1 < |Run(o, cfg, START, es).st.queue.cps|
    ensures var q := Run(o, cfg, START, es).st.queue;
            && Linked(o, q.cps[k], q.cps[k + 1])
            && Tx(q.cps[k + 1]).input[0].scriptPubkey == Tx(q.cps[k]).output[0].script
  {
    RunKeepsInv(o, cfg, es);
    RunSound(o, cfg, es);
    ScriptsAgree(o, Run(o, cfg, START, es).hist.sets, Run(o, cfg, START, es).st.queue, k);
  }

  lemma ScriptsAgree(o: Oracle, sets: seq<SignatorySet>, q: Queue, k: nat)
    requires Shape(q) && Chain(o, q) && QueueSound(o, sets, q) && k + 1 < |q.cps|
    ensures Linked(o, q.cps[k], q.cps[k + 1])
    ensures Tx(q.cps[k + 1]).input[0].scriptPubkey == Tx(q.cps[k]).output[0].script
  {
    var a, b := q.cps[k], q.cps[k + 1];
    assert CpSound(o, sets, a) && CpSound(o, sets, b) && Linked(o, a, b);
    assert StatusFits(a.status, k, |q.cps|);
    assert a.sigset.index == Start(q) + k && b.sigset.index == Start(q) + (k + 1);
    assert Sound(o, sets, Tx(b).input[0]);
  }
}
