/**
  `Checkpoint::sign` and `Checkpoint::to_sign`: a signatory hands over one signature
  for every input listed for it, in order, over all batches that are ready.
 */
module Signing {
  import opened Common
  import opened BitcoinTypes
  import opened Transactions
  import TS = ThresholdSigs

  /** What a pass over some items produces: the signed items, the unused signatures,
      and how many items became fully signed. */
  datatype Pass<T> = Pass(items: seq<T>, rest: seq<Signature>, newly: nat)

  type Signer<!T> = (T, seq<Signature>) -> Result<Pass<T>>

  /** Runs a signer over items in order, threading the unused signatures through. */
  function PassAll<T>(f: Signer<T>, items: seq<T>, sigs: seq<Signature>): Result<Pass<T>> {
    if items == [] then Ok(Pass([], sigs, 0)) else
    var front :- PassAll(f, items[..|items| - 1], sigs);
    var last :- f(items[|items| - 1], front.rest);
    Ok(Pass(front.items + last.items, last.rest, front.newly + last.newly))
  }

  function BecameSigned(before: bool, after: bool): nat {
    if !before && after then 1 else 0
  }

  function SignInput(o: Oracle, xpub: Xpub, i: Input, sigs: seq<Signature>): Result<Pass<Input>> {
    var key := o.derive(xpub, i.sigsetIndex);
    if key.None? then Err(Rejected)
    else if !TS.NeedsSig(i.signatures, key.value) then Ok(Pass([i], sigs, 0))
    else if sigs == [] then Err(SignaturesMissing)
    else
      var ts :- TS.Sign(o, i.signatures, key.value, sigs[0]);
      Ok(Pass([i.(signatures := ts)], sigs[1..], BecameSigned(TS.Signed(i.signatures), TS.Signed(ts))))
  }

  function InputSigner(o: Oracle, xpub: Xpub): Signer<Input> {
    (i, sigs) => SignInput(o, xpub, i, sigs)
  }

  function SignTx(o: Oracle, xpub: Xpub, tx: BitcoinTx, sigs: seq<Signature>): Result<Pass<BitcoinTx>> {
    var p :- PassAll(InputSigner(o, xpub), tx.input, sigs);
    var tx' := tx.(input := p.items, signedInputs := tx.signedInputs + p.newly);
    Ok(Pass([tx'], p.rest, BecameSigned(TxSigned(tx), TxSigned(tx'))))
  }

  function TxSigner(o: Oracle, xpub: Xpub): Signer<BitcoinTx> {
    (tx, sigs) => SignTx(o, xpub, tx, sigs)
  }

  /** Batches are signed in order; the pass stops after the first one not yet signed. */
  function SignBatches(f: Signer<BitcoinTx>, bs: seq<Batch>, sigs: seq<Signature>): Result<(seq<Batch>, seq<Signature>)> {
    if bs == [] then Ok(([], sigs)) else
    var p :- PassAll(f, bs[0].txs, sigs);
    var b := Batch(bs[0].signedTxs + p.newly, p.items);
    if !BatchSigned(bs[0]) then Ok(([b] + bs[1..], p.rest)) else
    var more :- SignBatches(f, bs[1..], p.rest);
    Ok(([b] + more.0, more.1))
  }

  function SignCheckpoint(o: Oracle, cp: Checkpoint, xpub: Xpub, sigs: seq<Signature>, btcHeight: nat)
    : Result<Checkpoint>
  {
    var p :- SignBatches(TxSigner(o, xpub), cp.batches, sigs);
    if p.1 != [] then Err(SignaturesExcess) else
    Ok(cp.(batches := p.0,
           signedAtBtcHeight := if CheckpointSigned(p.0) && !CheckpointSigned(cp.batches)
                                then Some(btcHeight) else cp.signedAtBtcHeight))
  }

  // ----- what a signatory is asked for -----

  /** A sighash to sign and the signatory set whose derived key signs it. */
  datatype Task = Task(message: Hash, sigsetIndex: nat)

  type Lister<!T> = T -> Result<seq<Task>>

  function Tasks<T>(t: Lister<T>, items: seq<T>): Result<seq<Task>> {
    if items == [] then Ok([]) else
    var front :- Tasks(t, items[..|items| - 1]);
    var last :- t(items[|items| - 1]);
    Ok(front + last)
  }

  function InputTask(o: Oracle, xpub: Xpub, i: Input): Result<seq<Task>> {
    var key := o.derive(xpub, i.sigsetIndex);
    if key.None? then Err(Rejected)
    else if TS.NeedsSig(i.signatures, key.value) then Ok([Task(i.signatures.message, i.sigsetIndex)])
    else Ok([])
  }

  function InputLister(o: Oracle, xpub: Xpub): Lister<Input> {
    i => InputTask(o, xpub, i)
  }

  function TxLister(o: Oracle, xpub: Xpub): Lister<BitcoinTx> {
    (tx: BitcoinTx) => Tasks(InputLister(o, xpub), tx.input)
  }

  function ToSign(t: Lister<BitcoinTx>, bs: seq<Batch>): Result<seq<Task>> {
    if bs == [] then Ok([]) else
    var one :- Tasks(t, bs[0].txs);
    if !BatchSigned(bs[0]) then Ok(one) else
    var more :- ToSign(t, bs[1..]);
    Ok(one + more)
  }

  predicate Satisfies(o: Oracle, xpub: Xpub, task: Task, sig: Signature) {
    var key := o.derive(xpub, task.sigsetIndex);
    key.Some? && o.verify(task.message, key.value, sig)
  }

  /** The leading signatures answer the tasks one for one. */
  predicate Answers(o: Oracle, xpub: Xpub, tasks: seq<Task>, sigs: seq<Signature>) {
    |tasks| <= |sigs| && forall j :: 0 <= j < |tasks| ==> Satisfies(o, xpub, tasks[j], sigs[j])
  }

  lemma AnswersConcat(o: Oracle, xpub: Xpub, a: seq<Task>, b: seq<Task>, sigs: seq<Signature>)
    ensures Answers(o, xpub, a + b, sigs) <==>
              Answers(o, xpub, a, sigs) && Answers(o, xpub, b, sigs[|a|..])
  {
    if Answers(o, xpub, a + b, sigs) {
      forall j | 0 <= j < |a| ensures Satisfies(o, xpub, a[j], sigs[j]) {
        assert (a + b)[j] == a[j];
      }
      forall j | 0 <= j < |b| ensures Satisfies(o, xpub, b[j], sigs[|a|..][j]) {
        assert (a + b)[|a| + j] == b[j];
      }
    }
  }

  // ----- success means answering the tasks -----

  /** An outcome succeeds exactly when the leading signatures answer the tasks, and then
      it leaves exactly the others. */
  ghost predicate Refines(o: Oracle, xpub: Xpub, tasks: Result<seq<Task>>, sigs: seq<Signature>,
                          ok: bool, rest: seq<Signature>)
  {
    && (ok <==> tasks.Ok? && Answers(o, xpub, tasks.value, sigs))
    && (ok ==> rest == sigs[|tasks.value|..])
  }

  ghost predicate PassRefines<T>(o: Oracle, xpub: Xpub, tasks: Result<seq<Task>>, sigs: seq<Signature>,
                                 r: Result<Pass<T>>)
  {
    Refines(o, xpub, tasks, sigs, r.Ok?, if r.Ok? then r.value.rest else [])
  }

  /** Two passes in a row answer the concatenated tasks. */
  lemma RefinesConcat(o: Oracle, xpub: Xpub, ta: Result<seq<Task>>, tb: Result<seq<Task>>,
                      sigs: seq<Signature>, okA: bool, restA: seq<Signature>, okB: bool, restB: seq<Signature>)
    requires Refines(o, xpub, ta, sigs, okA, restA)
    requires okA ==> Refines(o, xpub, tb, restA, okB, restB)
    ensures var both := if ta.Ok? && tb.Ok? then Ok(ta.value + tb.value) else Err(Rejected);
            Refines(o, xpub, both, sigs, okA && okB, restB)
  {
    if ta.Ok? && tb.Ok? {
      AnswersConcat(o, xpub, ta.value, tb.value, sigs);
    }
  }

  lemma {:induction false} AllRefine<T>(o: Oracle, xpub: Xpub, f: Signer<T>, t: Lister<T>, items: seq<T>,
                                        sigs: seq<Signature>)
    requires forall i, s :: 0 <= i < |items| ==> PassRefines(o, xpub, t(items[i]), s, f(items[i], s))
    ensures PassRefines(o, xpub, Tasks(t, items), sigs, PassAll(f, items, sigs))
  {
    if items != [] {
      var n := |items| - 1;
      AllRefine(o, xpub, f, t, items[..n], sigs);
      var front := PassAll(f, items[..n], sigs);
      if front.Ok? {
        var last := f(items[n], front.value.rest);
        assert PassRefines(o, xpub, t(items[n]), front.value.rest, last);
        RefinesConcat(o, xpub, Tasks(t, items[..n]), t(items[n]), sigs, true, front.value.rest,
                      last.Ok?, if last.Ok? then last.value.rest else []);
      } else {
        RefinesConcat(o, xpub, Tasks(t, items[..n]), t(items[n]), sigs, false, [], false, []);
      }
    }
  }

  lemma SignInputRefines(o: Oracle, xpub: Xpub, i: Input, sigs: seq<Signature>)
    requires TS.Valid(i.signatures)
    ensures PassRefines(o, xpub, InputTask(o, xpub, i), sigs, SignInput(o, xpub, i, sigs))
  {
    var key := o.derive(xpub, i.sigsetIndex);
    if key.Some? && TS.NeedsSig(i.signatures, key.value) && sigs != [] {
      TS.SignCorrect(o, i.signatures, key.value, sigs[0]);
    }
  }

  lemma SignTxRefines(o: Oracle, xpub: Xpub, tx: BitcoinTx, sigs: seq<Signature>)
    requires InputsValid(tx.input)
    ensures PassRefines(o, xpub, TxLister(o, xpub)(tx), sigs, SignTx(o, xpub, tx, sigs))
  {
    var f, t := InputSigner(o, xpub), InputLister(o, xpub);
    forall i, s | 0 <= i < |tx.input| ensures PassRefines(o, xpub, t(tx.input[i]), s, f(tx.input[i], s)) {
      SignInputRefines(o, xpub, tx.input[i], s);
    }
    AllRefine(o, xpub, f, t, tx.input, sigs);
  }

  lemma BatchRefines(o: Oracle, xpub: Xpub, b: Batch, sigs: seq<Signature>)
    requires BatchValid(b)
    ensures PassRefines(o, xpub, Tasks(TxLister(o, xpub), b.txs), sigs, PassAll(TxSigner(o, xpub), b.txs, sigs))
  {
    var f, t := TxSigner(o, xpub), TxLister(o, xpub);
    forall i, s | 0 <= i < |b.txs| ensures PassRefines(o, xpub, t(b.txs[i]), s, f(b.txs[i], s)) {
      SignTxRefines(o, xpub, b.txs[i], s);
    }
    AllRefine(o, xpub, f, t, b.txs, sigs);
  }

  lemma {:induction false} SignBatchesRefine(o: Oracle, xpub: Xpub, bs: seq<Batch>, sigs: seq<Signature>)
    requires BatchesValid(bs)
    ensures var r := SignBatches(TxSigner(o, xpub), bs, sigs);
            Refines(o, xpub, ToSign(TxLister(o, xpub), bs), sigs, r.Ok?, if r.Ok? then r.value.1 else [])
  {
    if bs != [] {
      var f, t := TxSigner(o, xpub), TxLister(o, xpub);
      var one := PassAll(f, bs[0].txs, sigs);
      BatchRefines(o, xpub, bs[0], sigs);
      if BatchSigned(bs[0]) {
        var rest := if one.Ok? then one.value.rest else [];
        SignBatchesRefine(o, xpub, bs[1..], rest);
        var more := SignBatches(f, bs[1..], rest);
        RefinesConcat(o, xpub, Tasks(t, bs[0].txs), ToSign(t, bs[1..]), sigs, one.Ok?, rest,
                      more.Ok?, if more.Ok? then more.value.1 else []);
      }
    }
  }

  // ----- invariants of the counters, and what signing keeps -----

  function CountInput(i: Input): int {
    if TS.Signed(i.signatures) then 1 else 0
  }

  /** Whether a transaction has inputs, all of them over their threshold. */
  function CountTx(tx: BitcoinTx): int {
    if tx.input != [] && TxSigned(tx) then 1 else 0
  }

  ghost predicate InputsValid(ins: seq<Input>) {
    forall i :: 0 <= i < |ins| ==> TS.Valid(ins[i].signatures)
  }

  ghost predicate TxValid(tx: BitcoinTx) {
    InputsValid(tx.input) && tx.signedInputs == Sum(tx.input, CountInput)
  }

  ghost predicate BatchValid(b: Batch) {
    && (forall i :: 0 <= i < |b.txs| ==> TxValid(b.txs[i]))
    && b.signedTxs == Sum(b.txs, CountTx)
  }

  ghost predicate BatchesValid(bs: seq<Batch>) {
    forall i :: 0 <= i < |bs| ==> BatchValid(bs[i])
  }

  /** `b` is `a` with signatures added: the outpoint, key, message and amount are the
      same, and an input over its threshold stays over it. */
  ghost predicate InputExtends(a: Input, b: Input) {
    && b == a.(signatures := b.signatures)
    && b.signatures.message == a.signatures.message
    && b.signatures.threshold == a.signatures.threshold
    && (TS.Signed(a.signatures) ==> TS.Signed(b.signatures))
  }

  ghost predicate TxExtends(a: BitcoinTx, b: BitcoinTx) {
    && b == a.(input := b.input, signedInputs := b.signedInputs)
    && |a.input| == |b.input|
    && (forall i :: 0 <= i < |a.input| ==> InputExtends(a.input[i], b.input[i]))
    && (TxSigned(a) ==> TxSigned(b))
  }

  ghost predicate BatchExtends(a: Batch, b: Batch) {
    && |a.txs| == |b.txs|
    && (forall i :: 0 <= i < |a.txs| ==> TxExtends(a.txs[i], b.txs[i]))
    && (BatchSigned(a) ==> BatchSigned(b))
  }

  ghost predicate BatchesExtend(a: seq<Batch>, b: seq<Batch>) {
    |a| == |b| && forall i :: 0 <= i < |a| ==> BatchExtends(a[i], b[i])
  }

  /** A signer turns one item into one kept item and counts it when it becomes signed. */
  ghost predicate ItemKept<T>(f: Signer<T>, keep: (T, T) -> bool, count: T -> int, x: T, s: seq<Signature>) {
    f(x, s).Ok? ==>
      var p := f(x, s).value;
      |p.items| == 1 && keep(x, p.items[0]) && p.newly == count(p.items[0]) - count(x)
  }

  lemma {:induction false} AllKept<T>(f: Signer<T>, keep: (T, T) -> bool, count: T -> int, items: seq<T>,
                                      sigs: seq<Signature>)
    requires forall i, s :: 0 <= i < |items| ==> ItemKept(f, keep, count, items[i], s)
    requires PassAll(f, items, sigs).Ok?
    ensures var p := PassAll(f, items, sigs).value;
            && |p.items| == |items| && (forall i :: 0 <= i < |items| ==> keep(items[i], p.items[i]))
            && p.newly == Sum(p.items, count) - Sum(items, count)
  {
    if items != [] {
      var n := |items| - 1;
      var front := PassAll(f, items[..n], sigs).value;
      AllKept(f, keep, count, items[..n], sigs);
      assert ItemKept(f, keep, count, items[n], front.rest);
      var y := f(items[n], front.rest).value.items[0];
      assert f(items[n], front.rest).value.items == [y];
      SumSnoc(front.items, y, count);
      SumSnoc(items[..n], items[n], count);
      assert items == items[..n] + [items[n]];
      forall i | 0 <= i < n ensures keep(items[i], (front.items + [y])[i]) {
        assert items[..n][i] == items[i];
      }
    }
  }

  ghost predicate InputKept(o: Oracle, xpub: Xpub, a: Input, b: Input) {
    InputExtends(a, b) && TS.Valid(b.signatures) && InputTask(o, xpub, b) == Ok([])
  }

  ghost predicate TxKept(o: Oracle, xpub: Xpub, a: BitcoinTx, b: BitcoinTx) {
    TxExtends(a, b) && TxValid(b) && TxLister(o, xpub)(b) == Ok([])
  }

  lemma SignInputKept(o: Oracle, xpub: Xpub, i: Input, sigs: seq<Signature>)
    requires TS.Valid(i.signatures) && SignInput(o, xpub, i, sigs).Ok?
    ensures var p := SignInput(o, xpub, i, sigs).value;
            && |p.items| == 1 && InputKept(o, xpub, i, p.items[0])
            && p.newly == CountInput(p.items[0]) - CountInput(i)
  {
    var key := o.derive(xpub, i.sigsetIndex);
    if TS.NeedsSig(i.signatures, key.value) {
      TS.SignCorrect(o, i.signatures, key.value, sigs[0]);
    }
  }

  lemma {:induction false} NoTasks<T>(t: Lister<T>, items: seq<T>)
    requires forall i :: 0 <= i < |items| ==> t(items[i]) == Ok([])
    ensures Tasks(t, items) == Ok([])
  {
    if items != [] {
      NoTasks(t, items[..|items| - 1]);
      var none: seq<Task> := [];
      assert none + none == none;
    }
  }

  lemma {:induction false} CountToBounds(ins: seq<Input>, n: nat)
    requires n <= |ins|
    ensures 0 <= SumTo(ins, n, CountInput) <= n
    ensures SumTo(ins, n, CountInput) == n <==> forall i :: 0 <= i < n ==> TS.Signed(ins[i].signatures)
  {
    if n > 0 {
      CountToBounds(ins, n - 1);
    }
  }

  /** The number of signed inputs reaches the number of inputs exactly when all are signed. */
  lemma CountBounds(ins: seq<Input>)
    ensures 0 <= Sum(ins, CountInput) <= |ins|
    ensures Sum(ins, CountInput) == |ins| <==> forall i :: 0 <= i < |ins| ==> TS.Signed(ins[i].signatures)
  {
    CountToBounds(ins, |ins|);
  }

  /** The inputs of a transaction after a pass. */
  ghost predicate InputsKept(a: seq<Input>, b: seq<Input>, newly: nat) {
    && |a| == |b| && (forall i :: 0 <= i < |a| ==> InputExtends(a[i], b[i]))
    && InputsValid(b) && newly == Sum(b, CountInput) - Sum(a, CountInput)
  }

  lemma SignInputsKept(o: Oracle, xpub: Xpub, ins: seq<Input>, sigs: seq<Signature>)
    requires InputsValid(ins) && PassAll(InputSigner(o, xpub), ins, sigs).Ok?
    ensures var p := PassAll(InputSigner(o, xpub), ins, sigs).value;
            InputsKept(ins, p.items, p.newly) && Tasks(InputLister(o, xpub), p.items) == Ok([])
  {
    var f := InputSigner(o, xpub);
    var keep := (a, b) => InputKept(o, xpub, a, b);
    forall i, s | 0 <= i < |ins| ensures ItemKept(f, keep, CountInput, ins[i], s) {
      if f(ins[i], s).Ok? {
        SignInputKept(o, xpub, ins[i], s);
      }
    }
    AllKept(f, keep, CountInput, ins, sigs);
    NoTasks(InputLister(o, xpub), PassAll(f, ins, sigs).value.items);
  }

  lemma TxAssembled(tx: BitcoinTx, ins: seq<Input>, newly: nat)
    requires TxValid(tx) && InputsKept(tx.input, ins, newly)
    ensures var tx' := tx.(input := ins, signedInputs := tx.signedInputs + newly);
            && TxExtends(tx, tx') && TxValid(tx')
            && BecameSigned(TxSigned(tx), TxSigned(tx')) == CountTx(tx') - CountTx(tx)
  {
    CountBounds(tx.input);
    CountBounds(ins);
  }

  lemma SignTxKept(o: Oracle, xpub: Xpub, tx: BitcoinTx, sigs: seq<Signature>)
    requires TxValid(tx) && SignTx(o, xpub, tx, sigs).Ok?
    ensures var p := SignTx(o, xpub, tx, sigs).value;
            && |p.items| == 1 && TxKept(o, xpub, tx, p.items[0])
            && p.newly == CountTx(p.items[0]) - CountTx(tx)
  {
    SignInputsKept(o, xpub, tx.input, sigs);
    var p := PassAll(InputSigner(o, xpub), tx.input, sigs).value;
    TxAssembled(tx, p.items, p.newly);
  }

  lemma {:induction false} CountTxBounds(txs: seq<BitcoinTx>, n: nat)
    requires n <= |txs|
    ensures 0 <= SumTo(txs, n, CountTx) <= n
  {
    if n > 0 {
      CountTxBounds(txs, n - 1);
    }
  }

  ghost predicate TxsKept(a: seq<BitcoinTx>, b: seq<BitcoinTx>, newly: nat) {
    && |a| == |b| && (forall i :: 0 <= i < |a| ==> TxExtends(a[i], b[i]) && TxValid(b[i]))
    && newly == Sum(b, CountTx) - Sum(a, CountTx)
  }

  lemma SignTxsKept(o: Oracle, xpub: Xpub, txs: seq<BitcoinTx>, sigs: seq<Signature>)
    requires forall i :: 0 <= i < |txs| ==> TxValid(txs[i])
    requires PassAll(TxSigner(o, xpub), txs, sigs).Ok?
    ensures var p := PassAll(TxSigner(o, xpub), txs, sigs).value;
            TxsKept(txs, p.items, p.newly) && Tasks(TxLister(o, xpub), p.items) == Ok([])
  {
    var f := TxSigner(o, xpub);
    var keep := (x, y) => TxKept(o, xpub, x, y);
    forall i, s | 0 <= i < |txs| ensures ItemKept(f, keep, CountTx, txs[i], s) {
      if f(txs[i], s).Ok? {
        SignTxKept(o, xpub, txs[i], s);
      }
    }
    AllKept(f, keep, CountTx, txs, sigs);
    NoTasks(TxLister(o, xpub), PassAll(f, txs, sigs).value.items);
  }

  lemma BatchAssembled(b: Batch, txs: seq<BitcoinTx>, newly: nat)
    requires BatchValid(b) && TxsKept(b.txs, txs, newly)
    ensures var b' := Batch(b.signedTxs + newly, txs);
            BatchValid(b') && BatchExtends(b, b')
  {
    CountTxBounds(txs, |txs|);
  }

  /** Signing a batch keeps its counters exact and leaves the signatory no task in it. */
  lemma BatchKept(o: Oracle, xpub: Xpub, b: Batch, sigs: seq<Signature>)
    requires BatchValid(b) && PassAll(TxSigner(o, xpub), b.txs, sigs).Ok?
    ensures var p := PassAll(TxSigner(o, xpub), b.txs, sigs).value;
            var b' := Batch(b.signedTxs + p.newly, p.items);
            && BatchValid(b') && BatchExtends(b, b')
            && Tasks(TxLister(o, xpub), b'.txs) == Ok([])
  {
    SignTxsKept(o, xpub, b.txs, sigs);
    var p := PassAll(TxSigner(o, xpub), b.txs, sigs).value;
    BatchAssembled(b, p.items, p.newly);
  }

  type BatchRelation = (Batch, Batch) -> bool

  ghost predicate BatchKeptBy(f: Signer<BitcoinTx>, keep: BatchRelation, b: Batch, s: seq<Signature>) {
    var p := PassAll(f, b.txs, s);
    p.Ok? ==> keep(b, Batch(b.signedTxs + p.value.newly, p.value.items))
  }

  /** Whatever a pass over one batch keeps, the pass over all batches keeps. */
  lemma {:induction false} AllBatchesKept(f: Signer<BitcoinTx>, keep: BatchRelation, bs: seq<Batch>, sigs: seq<Signature>)
    requires forall b, s :: BatchKeptBy(f, keep, b, s)
    requires forall b :: keep(b, b)
    requires SignBatches(f, bs, sigs).Ok?
    ensures var p := SignBatches(f, bs, sigs).value;
            |p.0| == |bs| && forall i :: 0 <= i < |bs| ==> keep(bs[i], p.0[i])
  {
    if bs != [] {
      var one := PassAll(f, bs[0].txs, sigs).value;
      assert BatchKeptBy(f, keep, bs[0], sigs);
      if BatchSigned(bs[0]) {
        AllBatchesKept(f, keep, bs[1..], one.rest);
      }
    }
  }

  ghost predicate BatchImproves(a: Batch, b: Batch) {
    BatchValid(a) ==> BatchValid(b) && BatchExtends(a, b)
  }

  lemma BatchImprovesSelf(b: Batch)
    ensures BatchImproves(b, b)
  {
  }

  lemma SignBatchesKept(o: Oracle, xpub: Xpub, bs: seq<Batch>, sigs: seq<Signature>)
    requires BatchesValid(bs) && SignBatches(TxSigner(o, xpub), bs, sigs).Ok?
    ensures var p := SignBatches(TxSigner(o, xpub), bs, sigs).value;
            BatchesValid(p.0) && BatchesExtend(bs, p.0)
  {
    var f := TxSigner(o, xpub);
    var keep: BatchRelation := (a, b) => BatchImproves(a, b);
    forall b, s ensures BatchKeptBy(f, keep, b, s) {
      if BatchValid(b) && PassAll(f, b.txs, s).Ok? {
        BatchKept(o, xpub, b, s);
      }
    }
    forall b ensures keep(b, b) {
      BatchImprovesSelf(b);
    }
    AllBatchesKept(f, keep, bs, sigs);
    var p := SignBatches(f, bs, sigs).value;
    assert forall i :: 0 <= i < |bs| ==> BatchImproves(bs[i], p.0[i]);
  }

  lemma {:induction false} SignedBatchesMonotone(a: seq<Batch>, b: seq<Batch>)
    requires BatchesExtend(a, b)
    ensures SignedBatches(a) <= SignedBatches(b) <= |b|
  {
    if a != [] {
      SignedBatchesMonotone(a[1..], b[1..]);
    }
  }

  /**
    `sign` refines `to_sign`: it succeeds exactly when as many signatures are supplied as
    tasks are listed and each verifies for its task's message under the derived key. Then
    every counter stays equal to what it counts, signedness never regresses, and the
    signing height is recorded exactly on the call that completes the checkpoint.
   */
  lemma SignCheckpointCorrect(o: Oracle, cp: Checkpoint, xpub: Xpub, sigs: seq<Signature>, h: nat)
    requires BatchesValid(cp.batches)
    ensures var tasks := ToSign(TxLister(o, xpub), cp.batches); var r := SignCheckpoint(o, cp, xpub, sigs, h);
            && (r.Ok? <==> tasks.Ok? && |sigs| == |tasks.value| && Answers(o, xpub, tasks.value, sigs))
            && (r.Ok? ==>
                  var cp' := r.value;
                  && BatchesValid(cp'.batches)
                  && BatchesExtend(cp.batches, cp'.batches)
                  && cp' == cp.(batches := cp'.batches, signedAtBtcHeight := cp'.signedAtBtcHeight)
                  && (CheckpointSigned(cp.batches) ==>
                        CheckpointSigned(cp'.batches) && cp'.signedAtBtcHeight == cp.signedAtBtcHeight)
                  && (!CheckpointSigned(cp.batches) && CheckpointSigned(cp'.batches) ==>
                        cp'.signedAtBtcHeight == Some(h))
                  && (!CheckpointSigned(cp'.batches) ==> cp'.signedAtBtcHeight == cp.signedAtBtcHeight))
  {
    SignBatchesRefine(o, xpub, cp.batches, sigs);
    var r := SignBatches(TxSigner(o, xpub), cp.batches, sigs);
    if r.Ok? {
      SignBatchesKept(o, xpub, cp.batches, sigs);
      SignedBatchesMonotone(cp.batches, r.value.0);
    }
  }

  /** Signatures do not move the transaction id. */
  lemma TxidIgnoresSignatures(o: Oracle, a: BitcoinTx, b: BitcoinTx)
    requires TxExtends(a, b)
    ensures Txid(o, a) == Txid(o, b)
  {
    assert Prevouts(a.input) == Prevouts(b.input);
  }

  // ----- the loops of `sign` -----

  /** A failure among the leading items is the failure of the whole pass. */
  lemma {:induction false} PassFails<T>(f: Signer<T>, items: seq<T>, k: nat, sigs: seq<Signature>)
    requires k <= |items| && PassAll(f, items[..k], sigs).Err?
    ensures PassAll(f, items, sigs) == PassAll(f, items[..k], sigs)
  {
    if k < |items| {
      assert items[..|items| - 1][..k] == items[..k];
      PassFails(f, items[..|items| - 1], k, sigs);
    } else {
      assert items[..k] == items;
    }
  }

  /** One more turn of a loop over items. */
  lemma PassStep<T>(f: Signer<T>, items: seq<T>, k: nat, sigs: seq<Signature>, p: Pass<T>)
    requires k < |items| && PassAll(f, items[..k], sigs) == Ok(p)
    ensures match f(items[k], p.rest)
            case Err(e) => PassAll(f, items, sigs) == Err(e)
            case Ok(l) => PassAll(f, items[..k + 1], sigs) == Ok(Pass(p.items + l.items, l.rest, p.newly + l.newly))
  {
    assert items[..k + 1][..k] == items[..k];
    if f(items[k], p.rest).Err? {
      PassFails(f, items, k + 1, sigs);
    }
  }

  /** After a loop has been over the first `k` items: `p` is the pass over them, and the items
      now are its results followed by the others. */
  ghost predicate PassedTo<T>(f: Signer<T>, items: seq<T>, sigs: seq<Signature>, now: seq<T>, k: nat, p: Pass<T>) {
    && |now| == |items| && |p.items| == k <= |items| && PassAll(f, items[..k], sigs) == Ok(p)
    && (forall j :: 0 <= j < k ==> now[j] == p.items[j])
    && (forall j :: k <= j < |items| ==> now[j] == items[j])
  }

  function JoinPass<T>(p: Pass<T>, l: Pass<T>): Pass<T> {
    Pass(p.items + l.items, l.rest, p.newly + l.newly)
  }

  lemma PassedStep<T>(f: Signer<T>, items: seq<T>, sigs: seq<Signature>, now: seq<T>, k: nat, p: Pass<T>)
    requires PassedTo(f, items, sigs, now, k, p) && k < |items|
    ensures now[k] == items[k]
    ensures match f(items[k], p.rest)
            case Err(e) => PassAll(f, items, sigs) == Err(e)
            case Ok(l) => |l.items| == 1 ==> PassedTo(f, items, sigs, now[k := l.items[0]], k + 1, JoinPass(p, l))
  {
    PassStep(f, items, k, sigs, p);
  }

  lemma PassedAll<T>(f: Signer<T>, items: seq<T>, sigs: seq<Signature>, now: seq<T>, p: Pass<T>)
    requires PassedTo(f, items, sigs, now, |items|, p)
    ensures PassAll(f, items, sigs) == Ok(p) && now == p.items
  {
    assert items[..|items|] == items;
  }

  /** One input: skip it, or apply signature number `index`. */
  method SignInputAt(o: Oracle, xpub: Xpub, input: Input, sigs: seq<Signature>, index: nat)
    returns (r: Result<(Input, nat, bool)>)
    requires index <= |sigs|
    ensures r.Ok? ==> index <= r.value.1 <= |sigs|
    ensures InputSigner(o, xpub)(input, sigs[index..]) ==
            if r.Err? then Err(r.error)
            else Ok(Pass([r.value.0], sigs[r.value.1..], if r.value.2 then 1 else 0))
  {
    var key := o.derive(xpub, input.sigsetIndex);
    if key.None? {
      return Err(Rejected);
    }
    if !TS.NeedsSig(input.signatures, key.value) {
      return Ok((input, index, false));
    }
    if index >= |sigs| {
      return Err(SignaturesMissing);
    }
    var wasSigned := TS.Signed(input.signatures);
    var signed := TS.Sign(o, input.signatures, key.value, sigs[index]);
    if signed.Err? {
      return Err(signed.error);
    }
    return Ok((input.(signatures := signed.value), index + 1, !wasSigned && TS.Signed(signed.value)));
  }

  /** The inputs of one transaction, updated in place from signature number `first` on. */
  method SignTxLoop(o: Oracle, xpub: Xpub, tx: BitcoinTx, sigs: seq<Signature>, first: nat)
    returns (r: Result<(BitcoinTx, nat)>)
    requires first <= |sigs|
    ensures r.Ok? ==> first <= r.value.1 <= |sigs|
    ensures TxSigner(o, xpub)(tx, sigs[first..]) ==
            if r.Err? then Err(r.error)
            else Ok(Pass([r.value.0], sigs[r.value.1..], BecameSigned(TxSigned(tx), TxSigned(r.value.0))))
  {
    var input, sigIndex := tx.input, first;
    var newly: nat := 0;
    ghost var f, p := InputSigner(o, xpub), Pass([], sigs[first..], 0);
    for k := 0 to |tx.input|
      invariant PassedTo(f, tx.input, sigs[first..], input, k, p)
      invariant first <= sigIndex <= |sigs| && p.rest == sigs[sigIndex..] && p.newly == newly
    {
      PassedStep(f, tx.input, sigs[first..], input, k, p);
      ghost var l := f(tx.input[k], p.rest);
      var done := SignInputAt(o, xpub, input[k], sigs, sigIndex);
      if done.Err? {
        return Err(done.error);
      }
      p := JoinPass(p, l.value);
      input := input[k := done.value.0];
      sigIndex := done.value.1;
      if done.value.2 {
        newly := newly + 1;
      }
    }
    PassedAll(f, tx.input, sigs[first..], input, p);
    return Ok((tx.(input := input, signedInputs := tx.signedInputs + newly), sigIndex));
  }

  /** The transactions of one batch. */
  method SignBatchLoop(o: Oracle, xpub: Xpub, batch: Batch, sigs: seq<Signature>, first: nat)
    returns (r: Result<(Batch, nat)>)
    requires first <= |sigs|
    ensures r.Ok? ==> first <= r.value.1 <= |sigs|
    ensures match PassAll(TxSigner(o, xpub), batch.txs, sigs[first..])
            case Err(e) => r == Err(e)
            case Ok(p) =>
              r.Ok? && p.rest == sigs[r.value.1..] && r.value.0 == Batch(batch.signedTxs + p.newly, p.items)
  {
    var txs, sigIndex := batch.txs, first;
    var newly: nat := 0;
    ghost var f, p := TxSigner(o, xpub), Pass([], sigs[first..], 0);
    for k := 0 to |batch.txs|
      invariant PassedTo(f, batch.txs, sigs[first..], txs, k, p)
      invariant first <= sigIndex <= |sigs| && p.rest == sigs[sigIndex..] && p.newly == newly
    {
      PassedStep(f, batch.txs, sigs[first..], txs, k, p);
      ghost var l := f(batch.txs[k], p.rest);
      var done := SignTxLoop(o, xpub, txs[k], sigs, sigIndex);
      if done.Err? {
        return Err(done.error);
      }
      p := JoinPass(p, l.value);
      newly := newly + BecameSigned(TxSigned(txs[k]), TxSigned(done.value.0));
      txs := txs[k := done.value.0];
      sigIndex := done.value.1;
    }
    PassedAll(f, batch.txs, sigs[first..], txs, p);
    return Ok((Batch(batch.signedTxs + newly, txs), sigIndex));
  }

  /** Batches already done followed by the pass over the remaining ones. */
  ghost function Continue(done: seq<Batch>, r: Result<(seq<Batch>, seq<Signature>)>)
    : Result<(seq<Batch>, seq<Signature>)>
  {
    if r.Err? then r else Ok((done + r.value.0, r.value.1))
  }

  lemma BatchesStep(f: Signer<BitcoinTx>, bs: seq<Batch>, k: nat, sigs: seq<Signature>, done: seq<Batch>)
    requires k < |bs|
    ensures var p := PassAll(f, bs[k].txs, sigs);
            Continue(done, SignBatches(f, bs[k..], sigs)) ==
            if p.Err? then Err(p.error) else
            var b := Batch(bs[k].signedTxs + p.value.newly, p.value.items);
            if !BatchSigned(bs[k]) then Ok((done + [b] + bs[k + 1..], p.value.rest))
            else Continue(done + [b], SignBatches(f, bs[k + 1..], p.value.rest))
  {
    assert bs[k..][0] == bs[k] && bs[k..][1..] == bs[k + 1..];
    var p := PassAll(f, bs[k].txs, sigs);
    if p.Ok? {
      var b := Batch(bs[k].signedTxs + p.value.newly, p.value.items);
      assert done + ([b] + bs[k + 1..]) == done + [b] + bs[k + 1..];
      var more := SignBatches(f, bs[k + 1..], p.value.rest);
      if more.Ok? {
        assert done + ([b] + more.value.0) == done + [b] + more.value.0;
      }
    }
  }

  /** What is left of the specification after the batches `done`. */
  ghost predicate Remains(f: Signer<BitcoinTx>, bs: seq<Batch>, k: nat, sigs: seq<Signature>, done: seq<Batch>,
                          spec: Result<(seq<Batch>, seq<Signature>)>)
    requires k <= |bs|
  {
    spec == Continue(done, SignBatches(f, bs[k..], sigs))
  }

  /** One batch; the pass stops after it when it was not signed before. */
  method SignBatchAt(o: Oracle, xpub: Xpub, bs: seq<Batch>, k: nat, sigs: seq<Signature>, first: nat,
                     ghost done: seq<Batch>, ghost spec: Result<(seq<Batch>, seq<Signature>)>)
    returns (r: Result<(Batch, nat)>)
    requires k < |bs| && first <= |sigs| && Remains(TxSigner(o, xpub), bs, k, sigs[first..], done, spec)
    ensures r.Err? ==> spec == Err(r.error)
    ensures r.Ok? ==>
              && r.value.1 <= |sigs|
              && if BatchSigned(bs[k])
                 then Remains(TxSigner(o, xpub), bs, k + 1, sigs[r.value.1..], done + [r.value.0], spec)
                 else spec == Ok((done + [r.value.0] + bs[k + 1..], sigs[r.value.1..]))
  {
    BatchesStep(TxSigner(o, xpub), bs, k, sigs[first..], done);
    r := SignBatchLoop(o, xpub, bs[k], sigs, first);
  }

  /** All batches that are ready, stopping after the first one not yet signed. */
  method SignBatchesLoop(o: Oracle, xpub: Xpub, bs: seq<Batch>, sigs: seq<Signature>)
    returns (r: Result<(seq<Batch>, nat)>)
    ensures r.Ok? ==> r.value.1 <= |sigs|
    ensures SignBatches(TxSigner(o, xpub), bs, sigs) ==
            if r.Err? then Err(r.error) else Ok((r.value.0, sigs[r.value.1..]))
  {
    var done: seq<Batch>, sigIndex: nat := [], 0;
    ghost var spec := SignBatches(TxSigner(o, xpub), bs, sigs);
    assert sigs[0..] == sigs && bs[0..] == bs;
    assert spec.Ok? ==> [] + spec.value.0 == spec.value.0;
    for k := 0 to |bs|
      invariant 0 <= sigIndex <= |sigs| && Remains(TxSigner(o, xpub), bs, k, sigs[sigIndex..], done, spec)
    {
      var batch := SignBatchAt(o, xpub, bs, k, sigs, sigIndex, done, spec);
      if batch.Err? {
        return Err(batch.error);
      }
      done := done + [batch.value.0];
      sigIndex := batch.value.1;
      if !BatchSigned(bs[k]) {
        return Ok((done + bs[k + 1..], sigIndex));
      }
    }
    assert bs[|bs|..] == [] && done + [] == done;
    return Ok((done, sigIndex));
  }

  /** `Checkpoint::sign`. */
  method Sign(o: Oracle, cp: Checkpoint, xpub: Xpub, sigs: seq<Signature>, btcHeight: nat)
    returns (r: Result<Checkpoint>)
    ensures r == SignCheckpoint(o, cp, xpub, sigs, btcHeight)
  {
    var cpWasSigned := CheckpointSigned(cp.batches);
    var done := SignBatchesLoop(o, xpub, cp.batches, sigs);
    if done.Err? {
      return Err(done.error);
    }
    var (batches, sigIndex) := done.value;
    if sigIndex != |sigs| {
      return Err(SignaturesExcess);
    }
    var cp' := cp.(batches := batches);
    if CheckpointSigned(batches) && !cpWasSigned {
      cp' := cp'.(signedAtBtcHeight := Some(btcHeight));
    }
    return Ok(cp');
  }
}
