/**
  Recovery transactions over runs. Each moves one expired deposit, under the set it was sent to,
  to the same destination under the set that was active when it was relayed, and stored
  signatures verify for the sighash of that very transaction.
 */
module Recoveries {
  import opened Common
  import opened BitcoinTypes
  import opened Transactions
  import opened CheckpointQueue
  import opened QueueInvariants
  import opened Recovery
  import opened Payouts
  import opened Bridge
  import opened BridgeInvariants
  import opened BridgeRun
  import opened DepositOutcomes
  import opened RunInvariants
  import opened Spendable
  import Signing

  /** The only output is locked for the new set and the same destination and worth the deposit less
      the fee at some rate; there is none when that would be dust. */
  predicate Pays(o: Oracle, r: RecoveryTx, oldSigset: SignatorySet, newSigset: SignatorySet, rate: nat)
    requires |r.tx.input| == 1
  {
    var i, script := r.tx.input[0], o.p2wsh(o.redeemScript(newSigset, o.commitment(r.dest)));
    var fee := rate * MoveSize(o, i.prevout, i.amount, oldSigset, newSigset, r.dest);
    r.tx.output == if fee == 0 || i.amount > o.dust(script) + fee then [TxOut(i.amount - fee, script)] else []
  }

  /** The input is for the old set and this destination and is to be signed for this transaction,
      which pays the rest to the new set. */
  ghost predicate Recovers(o: Oracle, sets: seq<SignatorySet>, r: RecoveryTx) {
    && |r.tx.input| == 1 && Sound(o, sets, r.tx.input[0])
    && r.tx.input[0].sigsetIndex == r.oldSigsetIndex && r.tx.input[0].dest == o.commitment(r.dest)
    && Messages(o, r.tx) && r.oldSigsetIndex < |sets| && r.newSigsetIndex < |sets|
    && exists rate: nat :: Pays(o, r, sets[r.oldSigsetIndex], sets[r.newSigsetIndex], rate)
  }

  ghost predicate AllRecover(o: Oracle, sets: seq<SignatorySet>, rs: seq<RecoveryTx>) {
    forall k :: 0 <= k < |rs| ==> Recovers(o, sets, rs[k])
  }

  // ----- a new one -----

  lemma NewRecovers(o: Oracle, sets: seq<SignatorySet>, r: RecoveryTx, expired: OutPoint, value: nat,
                    oldSigset: SignatorySet, newSigset: SignatorySet, dest: Dest, rate: nat)
    requires Known(sets, oldSigset) && Known(sets, newSigset) && oldSigset.signatories != []
    requires Moves(o, r, expired, value, oldSigset, newSigset, dest,
                   rate * MoveSize(o, expired, value, oldSigset, newSigset, dest))
    requires Signing.TxValid(r.tx)
    ensures Recovers(o, sets, r)
  {
    var i := r.tx.input[0];
    assert Pays(o, r, oldSigset, newSigset, rate);
    UnsignedVerified(o, i.signatures);
  }

  lemma DepositRecovers(o: Oracle, sets: seq<SignatorySet>, cfg: Config, s: State, d: Deposit, s': State)
    requires GoodConfig(cfg) && Shape(s.queue) && QueueSound(o, sets, s.queue) && AllRecover(o, sets, s.recovery)
    requires RelayDeposit(o, cfg, s, d) == Ok(s')
    ensures AllRecover(o, sets, s'.recovery)
  {
    var t := DepositOutcome(o, cfg, s, d, s');
    if t.Recovered? {
      var cp := Get(s.queue, d.sigsetIndex).value;
      assert CpSound(o, sets, cp) && CpSound(o, sets, Last(s.queue));
      OneRecovers(o, sets, s, s', d, cp.sigset, t.tx, t.charged);
    }
  }

  lemma OneRecovers(o: Oracle, sets: seq<SignatorySet>, s: State, s': State, d: Deposit, expired: SignatorySet,
                    tx: RecoveryTx, charged: nat)
    requires OnlyRecovered(o, s, s', d, expired, tx, charged) && AllRecover(o, sets, s.recovery)
    requires Known(sets, expired) && Known(sets, Last(s.queue).sigset)
    ensures AllRecover(o, sets, s'.recovery)
  {
    var building := Last(s.queue);
    NewRecovers(o, sets, tx, d.outpoint, d.output.value, expired, building.sigset, d.dest, building.feeRate);
  }

  // ----- signing -----

  lemma SignedRecovers(o: Oracle, sets: seq<SignatorySet>, xpub: Xpub, r: RecoveryTx, sigs: seq<Signature>)
    requires Recovers(o, sets, r) && Signing.TxValid(r.tx) && SignOne(o, xpub, r, sigs).Ok?
    ensures |SignOne(o, xpub, r, sigs).value.items| == 1
    ensures Recovers(o, sets, SignOne(o, xpub, r, sigs).value.items[0])
  {
    var b := SignOne(o, xpub, r, sigs).value.items[0];
    SignOneKept(o, xpub, r, sigs);
    SignInputsSound(o, sets, xpub, r.tx.input, sigs);
    assert Signing.InputExtends(r.tx.input[0], b.tx.input[0]);
    MessagesKept(o, r.tx, b.tx);
    PaysStill(o, sets, r, b);
  }

  lemma PaysStill(o: Oracle, sets: seq<SignatorySet>, a: RecoveryTx, b: RecoveryTx)
    requires Recovers(o, sets, a) && |b.tx.input| == 1 && b.tx.output == a.tx.output && b == a.(tx := b.tx)
    requires b.tx.input[0].prevout == a.tx.input[0].prevout && b.tx.input[0].amount == a.tx.input[0].amount
    ensures exists rate: nat :: Pays(o, b, sets[b.oldSigsetIndex], sets[b.newSigsetIndex], rate)
  {
    var rate: nat :| Pays(o, a, sets[a.oldSigsetIndex], sets[a.newSigsetIndex], rate);
    assert Pays(o, b, sets[b.oldSigsetIndex], sets[b.newSigsetIndex], rate);
  }

  lemma {:induction false} PassRecovers(o: Oracle, sets: seq<SignatorySet>, xpub: Xpub, rs: seq<RecoveryTx>,
                                        sigs: seq<Signature>)
    requires AllRecover(o, sets, rs) && AllValid(rs) && Signing.PassAll(RecoverySigner(o, xpub), rs, sigs).Ok?
    ensures AllRecover(o, sets, Signing.PassAll(RecoverySigner(o, xpub), rs, sigs).value.items)
  {
    if rs != [] {
      var n := |rs| - 1;
      PassRecovers(o, sets, xpub, rs[..n], sigs);
      var front := Signing.PassAll(RecoverySigner(o, xpub), rs[..n], sigs).value;
      SignedRecovers(o, sets, xpub, rs[n], front.rest);
    }
  }

  lemma SignRecovers(o: Oracle, sets: seq<SignatorySet>, xpub: Xpub, rs: seq<RecoveryTx>, sigs: seq<Signature>,
                     r: seq<RecoveryTx>)
    requires AllRecover(o, sets, rs) && AllValid(rs) && SignAll(o, xpub, rs, sigs) == Ok(r)
    ensures AllRecover(o, sets, r)
  {
    PassRecovers(o, sets, xpub, rs, sigs);
  }

  // ----- runs -----

  lemma MoreRecover(o: Oracle, sets: seq<SignatorySet>, more: seq<SignatorySet>, rs: seq<RecoveryTx>)
    requires AllRecover(o, sets, rs)
    ensures AllRecover(o, sets + more, rs)
  {
    forall k | 0 <= k < |rs| ensures Recovers(o, sets + more, rs[k]) {
      MoreInputs(o, sets, more, rs[k].tx.input);
      assert (sets + more)[rs[k].newSigsetIndex] == sets[rs[k].newSigsetIndex];
      assert (sets + more)[rs[k].oldSigsetIndex] == sets[rs[k].oldSigsetIndex];
      assert Sound(o, sets + more, rs[k].tx.input[0]);
    }
  }

  lemma SameRecovery(o: Oracle, cfg: Config, s: State, e: Event)
    requires GoodConfig(cfg) && Shape(s.queue) && Execute(o, cfg, s, e).Ok? && !e.RelayDepositEvent? && !e.SignRecoveryEvent?
    ensures Execute(o, cfg, s, e).value.0.recovery == s.recovery
  {
    if e.WithdrawEvent? {
      var outs := WithdrawGrows(o, cfg, s, e.script, e.funds);
    }
  }

  lemma EventRecovers(o: Oracle, sets: seq<SignatorySet>, cfg: Config, s: State, e: Event, s': State, msgs: seq<Msg>)
    requires GoodConfig(cfg) && StateInv(o, cfg, s) && QueueSound(o, sets, s.queue) && AllRecover(o, sets, s.recovery)
    requires Execute(o, cfg, s, e) == Ok((s', msgs))
    ensures AllRecover(o, sets, s'.recovery)
  {
    match e {
      case RelayDepositEvent(d) =>
        DepositRecovers(o, sets, cfg, s, d, s');
      case SignRecoveryEvent(xpub, sigs) =>
        SignRecovers(o, sets, xpub, s.recovery, sigs, s'.recovery);
      case _ =>
        SameRecovery(o, cfg, s, e);
    }
  }

  /** Over every run, every recovery transaction moves its deposit to the new set. */
  lemma {:induction false} RunRecovers(o: Oracle, cfg: Config, es: seq<Event>)
    requires GoodConfig(cfg) && HonestRun(o, cfg, START, es)
    ensures AllRecover(o, Run(o, cfg, START, es).hist.sets, Run(o, cfg, START, es).st.recovery)
    decreases |es|
  {
    if es != [] {
      var before, e := es[..|es| - 1], es[|es| - 1];
      RunRecovers(o, cfg, before);
      RunKeepsInv(o, cfg, before);
      RunSound(o, cfg, before);
      var w := Run(o, cfg, START, before);
      var done := Execute(o, cfg, w.st, e);
      if done.Ok? {
        EventRecovers(o, w.hist.sets, cfg, w.st, e, done.value.0, done.value.1);
        RecordSets(o, cfg, w.st, e, done.value.0, done.value.1, w.hist);
        MoreRecover(o, w.hist.sets, EventSets(w.st, e, done.value.0), done.value.0.recovery);
      }
    }
  }
}
