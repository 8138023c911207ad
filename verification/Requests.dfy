/**
  Who is asked to sign. For every unsigned share of every frozen input, the validator it stands
  for, found by its submitted key, is asked for the sighash of the transaction.
 */
module Requests {
  import opened Common
  import opened BitcoinTypes
  import opened Transactions
  import opened CheckpointQueue
  import opened QueueInvariants
  import opened Bridge
  import opened BridgeRun
  import opened RunInvariants
  import opened Members
  import opened Eras
  import opened Witnesses
  import opened Spendable
  import opened Signing
  import TS = ThresholdSigs

  /** A listing contains what is listed for each item. */
  lemma {:induction false} TasksContain<T>(t: Lister<T>, items: seq<T>, j: nat, x: Task)
    requires j < |items| && Tasks(t, items).Ok? && t(items[j]).Ok? && x in t(items[j]).value
    ensures x in Tasks(t, items).value
  {
    if j < |items| - 1 {
      TasksContain(t, items[..|items| - 1], j, x);
    }
  }

  /** And nothing else. */
  lemma {:induction false} TasksFrom<T>(t: Lister<T>, items: seq<T>, x: Task) returns (j: nat)
    requires Tasks(t, items).Ok? && x in Tasks(t, items).value
    ensures j < |items| && t(items[j]).Ok? && x in t(items[j]).value
  {
    var n := |items| - 1;
    if x in Tasks(t, items[..n]).value {
      j := TasksFrom(t, items[..n], x);
    } else {
      j := n;
    }
  }

  /** What is listed for a checkpoint is what is listed for its inputs. */
  lemma ToSignInputs(o: Oracle, xpub: Xpub, cp: Checkpoint)
    requires SingleTx(cp)
    ensures ToSign(TxLister(o, xpub), cp.batches).Ok? <==> Tasks(InputLister(o, xpub), Tx(cp).input).Ok?
    ensures ToSign(TxLister(o, xpub), cp.batches).Ok? ==>
              ToSign(TxLister(o, xpub), cp.batches).value == Tasks(InputLister(o, xpub), Tx(cp).input).value
  {
    var t, tx := TxLister(o, xpub), Tx(cp);
    assert cp.batches[0].txs == [tx] && cp.batches[1..] == [] && [tx][..0] == [];
    assert Tasks(t, []) == Ok([]) && ToSign(t, []) == Ok([]);
    var inputs := Tasks(InputLister(o, xpub), tx.input);
    assert t(tx) == inputs;
    if inputs.Ok? {
      assert [] + inputs.value == inputs.value && inputs.value + [] == inputs.value;
      assert Tasks(t, [tx]) == inputs;
    }
  }

  lemma {:induction false} FirstOfKey(sigs: seq<Entry>, m: nat)
    requires m < |sigs| && forall k :: 0 <= k < m ==> sigs[k].key != sigs[m].key
    ensures TS.IndexOf(sigs, sigs[m].key) == Some(m)
  {
    if m > 0 {
      FirstOfKey(sigs[1..], m - 1);
    }
  }

  /** An unsigned share is listed for every xpub that derives its key. */
  lemma ShareListed(o: Oracle, xpub: Xpub, cp: Checkpoint, j: nat, m: nat)
    requires SingleTx(cp) && j < |Tx(cp).input|
    requires var i := Tx(cp).input[j]; var sigs := i.signatures.sigs;
             && m < |sigs| && sigs[m].share.sig.None? && o.derive(xpub, i.sigsetIndex) == Some(sigs[m].key)
             && forall k :: 0 <= k < m ==> sigs[k].key != sigs[m].key
    ensures var i := Tx(cp).input[j]; var tasks := ToSign(TxLister(o, xpub), cp.batches);
            tasks.Ok? ==> Task(i.signatures.message, i.sigsetIndex) in tasks.value
  {
    var i := Tx(cp).input[j];
    FirstOfKey(i.signatures.sigs, m);
    assert InputLister(o, xpub)(i) == Ok([Task(i.signatures.message, i.sigsetIndex)]);
    ToSignInputs(o, xpub, cp);
    if ToSign(TxLister(o, xpub), cp.batches).Ok? {
      TasksContain(InputLister(o, xpub), Tx(cp).input, j, Task(i.signatures.message, i.sigsetIndex));
    }
  }

  /** The validator that a share of an input made for set number `n` stands for. */
  ghost predicate StandsFor(o: Oracle, founders: seq<Block>, n: nat, e: Entry, v: nat) {
    && n < |founders| && v < |founders[n].ctx.validators|
    && var ctx := founders[n].ctx; var validator := ctx.validators[v];
       && validator.consensusKey in ctx.xpubs && validator.power == e.share.power
       && o.derive(ctx.xpubs[validator.consensusKey], n) == Some(e.key)
  }

  lemma ShareOfValidator(o: Oracle, hist: History, q: Queue, i: Input, m: nat) returns (v: nat)
    requires Era(o, hist, q) && Sound(o, hist.sets, i) && m < |i.signatures.sigs|
    ensures StandsFor(o, hist.founders, i.sigsetIndex, i.signatures.sigs[m], v)
  {
    var n := i.sigsetIndex;
    assert Founded(o, hist.founders[n], n, hist.sets[n]);
    var rest :| Chosen(o, hist.founders[n].ctx, n, hist.sets[n].signatories, rest);
    v := MemberIsValidator(o, hist.founders[n].ctx, n, hist.sets[n].signatories, rest, m);
    assert Rank(i.signatures.sigs[m]) == hist.sets[n].signatories[m];
  }

  /**
    Over every run, the first unsigned share of a key of an input that waits for signatures stands
    for a validator of the block in which the set of the input was founded, and what that
    validator is asked to sign contains the sighash of the input.
   */
  lemma MemberAsked(o: Oracle, cfg: Config, es: seq<Event>, k: nat, j: nat, m: nat) returns (v: nat)
    requires GoodConfig(cfg) && HonestRun(o, cfg, START, es)
    requires var q := Run(o, cfg, START, es).st.queue;
             k < |q.cps| && !q.cps[k].status.Building? && j < |Tx(q.cps[k]).input|
    requires var sigs := Tx(Run(o, cfg, START, es).st.queue.cps[k]).input[j].signatures.sigs;
             m < |sigs| && sigs[m].share.sig.None? && forall l :: 0 <= l < m ==> sigs[l].key != sigs[m].key
    ensures var w := Run(o, cfg, START, es);
            var cp := w.st.queue.cps[k];
            var i := Tx(cp).input[j];
            && StandsFor(o, w.hist.founders, i.sigsetIndex, i.signatures.sigs[m], v)
            && var ctx := w.hist.founders[i.sigsetIndex].ctx;
               var tasks := ToSign(TxLister(o, ctx.xpubs[ctx.validators[v].consensusKey]), cp.batches);
               tasks.Ok? ==> Task(o.sighash(Body(Tx(cp)), j, i.redeemScript, i.amount), i.sigsetIndex) in tasks.value
  {
    var w := Run(o, cfg, START, es);
    RunKeepsInv(o, cfg, es);
    RunSound(o, cfg, es);
    RunEra(o, cfg, es);
    v := QueueAsks(o, w.hist, w.st.queue, k, j, m);
  }

  lemma QueueAsks(o: Oracle, hist: History, q: Queue, k: nat, j: nat, m: nat) returns (v: nat)
    requires Shape(q) && QueueSound(o, hist.sets, q) && Era(o, hist, q)
    requires k < |q.cps| && !q.cps[k].status.Building? && j < |Tx(q.cps[k]).input|
    requires var sigs := Tx(q.cps[k]).input[j].signatures.sigs;
             m < |sigs| && sigs[m].share.sig.None? && forall l :: 0 <= l < m ==> sigs[l].key != sigs[m].key
    ensures var cp := q.cps[k];
            var i := Tx(cp).input[j];
            && StandsFor(o, hist.founders, i.sigsetIndex, i.signatures.sigs[m], v)
            && var ctx := hist.founders[i.sigsetIndex].ctx;
               var tasks := ToSign(TxLister(o, ctx.xpubs[ctx.validators[v].consensusKey]), cp.batches);
               tasks.Ok? ==> Task(o.sighash(Body(Tx(cp)), j, i.redeemScript, i.amount), i.sigsetIndex) in tasks.value
  {
    var cp := q.cps[k];
    assert CpSound(o, hist.sets, cp) && CpValid(cp);
    var i := Tx(cp).input[j];
    assert Sound(o, hist.sets, i);
    v := ShareOfValidator(o, hist, q, i, m);
    var ctx := hist.founders[i.sigsetIndex].ctx;
    ShareListed(o, ctx.xpubs[ctx.validators[v].consensusKey], cp, j, m);
  }

  /** Nobody is asked for anything but the message of an input with an unsigned share of theirs. */
  lemma AskedOnly(o: Oracle, xpub: Xpub, cp: Checkpoint, x: Task) returns (j: nat, m: nat)
    requires SingleTx(cp) && ToSign(TxLister(o, xpub), cp.batches).Ok? && x in ToSign(TxLister(o, xpub), cp.batches).value
    ensures j < |Tx(cp).input| && m < |Tx(cp).input[j].signatures.sigs|
    ensures var i := Tx(cp).input[j];
            && x == Task(i.signatures.message, i.sigsetIndex) && i.signatures.sigs[m].share.sig.None?
            && o.derive(xpub, i.sigsetIndex) == Some(i.signatures.sigs[m].key)
  {
    ToSignInputs(o, xpub, cp);
    j := TasksFrom(InputLister(o, xpub), Tx(cp).input, x);
    var i := Tx(cp).input[j];
    assert InputLister(o, xpub)(i) == InputTask(o, xpub, i);
    m := TS.IndexOf(i.signatures.sigs, o.derive(xpub, i.sigsetIndex).value).value;
  }

  // ----- several batches -----

  /** The first `n` batches are ready: those before the last of them are signed, and the next one
      has to wait for it. */
  predicate Ready(bs: seq<Batch>, n: nat) {
    && n <= |bs| && (bs != [] ==> n > 0)
    && (forall i :: 0 <= i < n - 1 ==> bs[i].signedTxs == |bs[i].txs|)
    && (n < |bs| ==> bs[n - 1].signedTxs != |bs[n - 1].txs|)
  }

  function BatchTasks(t: Lister<BitcoinTx>): Batch -> seq<Task> {
    (b: Batch) => if Tasks(t, b.txs).Ok? then Tasks(t, b.txs).value else []
  }

  lemma ReadyCons(bs: seq<Batch>, n: nat)
    requires bs != [] && bs[0].signedTxs == |bs[0].txs| && Ready(bs[1..], n)
    ensures Ready(bs, n + 1)
  {
    assert forall i :: 1 <= i < |bs| ==> bs[i] == bs[1..][i - 1];
  }

  /** Exactly the ready batches are listed, in order. */
  lemma {:induction false} ToSignReady(t: Lister<BitcoinTx>, bs: seq<Batch>) returns (n: nat)
    requires ToSign(t, bs).Ok?
    ensures Ready(bs, n) && ToSign(t, bs).value == Flatten(bs, n, BatchTasks(t))
  {
    n := 0;
    if bs != [] {
      if BatchSigned(bs[0]) {
        n := ToSignReady(t, bs[1..]);
        ReadyCons(bs, n);
        FlattenShift(bs, bs[1..], 1, n, BatchTasks(t));
        n := n + 1;
      } else {
        n := 1;
      }
      assert Flatten(bs, 0, BatchTasks(t)) == [];
    }
  }

  /** And exactly they are signed: whatever waits stays as it is. */
  lemma {:induction false} SignsReady(f: Signer<BitcoinTx>, bs: seq<Batch>, sigs: seq<Signature>) returns (n: nat)
    requires SignBatches(f, bs, sigs).Ok?
    ensures var r := SignBatches(f, bs, sigs).value.0;
            Ready(bs, n) && |r| == |bs| && forall i :: n <= i < |bs| ==> r[i] == bs[i]
  {
    n := 0;
    if bs != [] {
      var p := PassAll(f, bs[0].txs, sigs).value;
      if BatchSigned(bs[0]) {
        n := SignsReady(f, bs[1..], p.rest);
        ReadyCons(bs, n);
        n := n + 1;
      } else {
        n := 1;
      }
    }
  }
}
