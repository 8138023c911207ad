/** What every reachable checkpoint queue satisfies, and what single writes preserve. */
module QueueInvariants {
  import opened Common
  import opened BitcoinTypes
  import opened Transactions
  import opened Advance
  import opened CheckpointQueue
  import TS = ThresholdSigs
  import Signing

  /** One transaction, exact signing counters, nothing signed while building, and complete
      exactly when fully signed. */
  ghost predicate CpValid(cp: Checkpoint) {
    && SingleTx(cp)
    && Signing.BatchesValid(cp.batches)
    && (cp.status.Building? ==> InputsUnsigned(Tx(cp).input))
    && (cp.status.Complete? <==> CheckpointSigned(cp.batches))
  }

  ghost predicate InputsUnsigned(ins: seq<Input>) {
    forall i :: 0 <= i < |ins| ==> TS.Unsigned(ins[i].signatures.sigs)
  }

  /** Complete* (Signing)? Building, as a condition on position `k` of `n`. */
  predicate StatusFits(status: Status, k: int, n: int) {
    (status.Building? <==> k == n - 1) && (status.Signing? ==> k == n - 2)
  }

  /** Complete* (Signing)? Building, numbered consecutively, confirmed at most up to the last
      completed one. */
  ghost predicate Ordered(q: Queue) {
    && |q.cps| <= q.index + 1
    && (q.cps == [] ==> q.index == 0 && q.confirmed.None?)
    && (q.index > 0 ==> |q.cps| >= 2)
    && (forall k :: 0 <= k < |q.cps| ==> q.cps[k].sigset.index == Start(q) + k)
    && (forall k :: 0 <= k < |q.cps| ==> StatusFits(q.cps[k].status, k, |q.cps|))
    && (q.confirmed.Some? ==> q.confirmed.value + 1 + SigningOffset(q) <= q.index)
  }

  ghost predicate Shape(q: Queue) {
    Ordered(q) && forall k :: 0 <= k < |q.cps| ==> CpValid(q.cps[k])
  }

  /** Checkpoint `b` spends output 0 of checkpoint `a`, for its full value. */
  predicate Linked(o: Oracle, a: Checkpoint, b: Checkpoint) {
    && Tx(a).output != [] && Tx(b).input != []
    && Tx(b).input[0].prevout == OutPoint(Txid(o, Tx(a)), 0)
    && Tx(b).input[0].amount == Tx(a).output[0].value
  }

  ghost predicate Chain(o: Oracle, q: Queue) {
    forall k :: 0 <= k < |q.cps| - 1 ==> Linked(o, q.cps[k], q.cps[k + 1])
  }

  /** Only the last two checkpoints can still hold pending transfers. */
  ghost predicate Handled(q: Queue) {
    forall k :: 0 <= k < |q.cps| - 2 ==> q.cps[k].pending == []
  }

  /** Completed but unconfirmed checkpoints, plus the one being signed. */
  function Backlog(q: Queue): int {
    if q.index < 1 + SigningOffset(q) then SigningOffset(q)
    else match q.confirmed
      case None => |q.cps| - 1
      case Some(c) => q.index - 1 - c
  }

  ghost predicate QueueInv(o: Oracle, cfg: CheckpointConfig, q: Queue) {
    Shape(q) && Chain(o, q) && Handled(q) && Backlog(q) <= cfg.maxUnconfirmed
  }

  /** Every checkpoint above the confirmed one is still in the queue. */
  predicate NotPrunedPast(q: Queue) {
    q.confirmed.Some? ==> Start(q) <= q.confirmed.value + 1
  }

  /** What pruning leaves: nothing above the confirmed index is gone, and a pruned queue keeps
      at least ten checkpoints. */
  predicate Retained(q: Queue) {
    NotPrunedPast(q) && (q.cps != [] && Start(q) > 0 ==> |q.cps| >= MIN_CHECKPOINTS)
  }

  lemma EmptyQueueInv(o: Oracle, cfg: CheckpointConfig)
    ensures QueueInv(o, cfg, EMPTY_QUEUE)
  {
  }

  /** The count the source computes is the backlog without the checkpoint being signed. */
  lemma NumUnconfirmedIsBacklog(q: Queue)
    requires Ordered(q)
    ensures q.cps != [] ==> NumUnconfirmed(q) == Ok(Backlog(q) - SigningOffset(q))
  {
  }

  // ----- replacing one checkpoint -----

  /** `b` may stand in for `a`: same set and same place in the chain. */
  ghost predicate Replaces(o: Oracle, a: Checkpoint, b: Checkpoint) {
    && CpValid(b) && b.sigset == a.sigset
    && (Tx(a).input != [] ==> Tx(b).input != [] && SameSource(Tx(a).input[0], Tx(b).input[0]))
  }

  predicate SameSource(x: Input, y: Input) {
    x.prevout == y.prevout && x.amount == y.amount
  }

  /** Same id and same reserve output. */
  predicate SameReserve(o: Oracle, a: Checkpoint, b: Checkpoint) {
    Txid(o, Tx(b)) == Txid(o, Tx(a)) && Tx(b).output == Tx(a).output
  }

  lemma ReplaceKeepsChain(o: Oracle, q: Queue, i: nat, b: Checkpoint)
    requires Chain(o, q) && i < |q.cps| && Replaces(o, q.cps[i], b)
    requires i < |q.cps| - 1 ==> SameReserve(o, q.cps[i], b)
    ensures Chain(o, q.(cps := q.cps[i := b]))
  {
    var q' := q.(cps := q.cps[i := b]);
    forall k | 0 <= k < |q'.cps| - 1 ensures Linked(o, q'.cps[k], q'.cps[k + 1]) {
      assert Linked(o, q.cps[k], q.cps[k + 1]);
    }
  }

  /** Replacing the checkpoint at `i` keeps the queue well shaped when the new status fits
      there and the count of signing checkpoints can only drop. */
  lemma ReplaceKeepsShape(o: Oracle, q: Queue, i: nat, b: Checkpoint)
    requires Shape(q) && i < |q.cps| && Replaces(o, q.cps[i], b)
    requires b.status == q.cps[i].status || (q.cps[i].status.Signing? && b.status.Complete?)
    ensures var q' := q.(cps := q.cps[i := b]);
            Shape(q') && Backlog(q') == Backlog(q) && SigningOffset(q') <= SigningOffset(q)
  {
    var q' := q.(cps := q.cps[i := b]);
    forall k | 0 <= k < |q'.cps|
      ensures CpValid(q'.cps[k]) && q'.cps[k].sigset.index == Start(q') + k
           && StatusFits(q'.cps[k].status, k, |q'.cps|)
    {
      assert CpValid(q.cps[k]) && StatusFits(q.cps[k].status, k, |q.cps|);
      assert q.cps[k].sigset.index == Start(q) + k;
    }
  }

  lemma ReplaceKeepsInv(o: Oracle, cfg: CheckpointConfig, q: Queue, i: nat, b: Checkpoint)
    requires QueueInv(o, cfg, q) && i < |q.cps| && Replaces(o, q.cps[i], b)
    requires b.status == q.cps[i].status || (q.cps[i].status.Signing? && b.status.Complete?)
    requires i < |q.cps| - 1 ==> SameReserve(o, q.cps[i], b)
    requires i < |q.cps| - 2 ==> b.pending == []
    ensures QueueInv(o, cfg, q.(cps := q.cps[i := b]))
  {
    ReplaceKeepsChain(o, q, i, b);
    ReplaceKeepsShape(o, q, i, b);
  }

  predicate LastReplaced(q: Queue, q': Queue) {
    && q.cps != [] && |q'.cps| == |q.cps|
    && q' == q.(cps := q.cps[|q.cps| - 1 := q'.cps[|q.cps| - 1]])
  }

  function Last(q: Queue): Checkpoint
    requires q.cps != []
  {
    q.cps[|q.cps| - 1]
  }

  /** Replacing the building checkpoint, part by part. */
  lemma ReplaceLast(o: Oracle, cfg: CheckpointConfig, q: Queue, q': Queue)
    requires QueueInv(o, cfg, q) && LastReplaced(q, q')
    requires Replaces(o, Last(q), Last(q')) && Last(q').status == Last(q).status
    ensures QueueInv(o, cfg, q')
  {
    ReplaceLastShape(o, q, q');
    ReplaceLastChain(o, q, q');
  }

  lemma ReplaceLastShape(o: Oracle, q: Queue, q': Queue)
    requires Shape(q) && LastReplaced(q, q')
    requires Replaces(o, Last(q), Last(q')) && Last(q').status == Last(q).status
    ensures Shape(q') && Backlog(q') == Backlog(q)
  {
    ReplaceKeepsShape(o, q, |q.cps| - 1, Last(q'));
  }

  lemma ReplaceLastChain(o: Oracle, q: Queue, q': Queue)
    requires Chain(o, q) && Handled(q) && LastReplaced(q, q') && Replaces(o, Last(q), Last(q'))
    ensures Chain(o, q') && Handled(q')
  {
    ReplaceKeepsChain(o, q, |q.cps| - 1, Last(q'));
  }

  // ----- sign -----

  /** What a successful `sign` writes back. */
  lemma SignedReplaces(o: Oracle, cp: Checkpoint, xpub: Xpub, sigs: seq<Signature>, h: nat)
    requires CpValid(cp) && !cp.status.Building?
    requires Signing.SignCheckpoint(o, cp, xpub, sigs, h).Ok?
    ensures var signed := Signing.SignCheckpoint(o, cp, xpub, sigs, h).value;
            var b := if cp.status.Signing? && CheckpointSigned(signed.batches)
                     then signed.(status := Complete) else signed;
            && Replaces(o, cp, b) && SameReserve(o, cp, b) && b.pending == cp.pending
            && (b.status == cp.status || (cp.status.Signing? && b.status.Complete?))
            && Prevouts(Tx(b).input) == Prevouts(Tx(cp).input)
            && b.sigset == cp.sigset
  {
    Signing.SignCheckpointCorrect(o, cp, xpub, sigs, h);
    var signed := Signing.SignCheckpoint(o, cp, xpub, sigs, h).value;
    assert Signing.BatchExtends(cp.batches[0], signed.batches[0]);
    assert Signing.TxExtends(Tx(cp), Tx(signed));
    Signing.TxidIgnoresSignatures(o, Tx(cp), Tx(signed));
    if Tx(cp).input != [] {
      assert Signing.InputExtends(Tx(cp).input[0], Tx(signed).input[0]);
    }
    assert Prevouts(Tx(signed).input) == Prevouts(Tx(cp).input);
  }

  /** Only the checkpoint at position `k` changed, and neither its transfers, its inputs nor
      its set did. */
  ghost predicate SignedOnly(q: Queue, q': Queue, k: nat) {
    && k < |q.cps| && |q'.cps| == |q.cps| && q' == q.(cps := q.cps[k := q'.cps[k]])
    && q'.cps[k].pending == q.cps[k].pending && q'.cps[k].sigset == q.cps[k].sigset
    && Prevouts(Tx(q'.cps[k]).input) == Prevouts(Tx(q.cps[k]).input)
  }

  lemma SignEffect(o: Oracle, q: Queue, xpub: Xpub, sigs: seq<Signature>, i: nat, h: nat, q': Queue) returns (k: nat)
    requires Shape(q) && SignAt(o, q, xpub, sigs, i, h) == Ok(q')
    ensures SignedOnly(q, q', k) && k < |q.cps| - 1
    ensures Replaces(o, q.cps[k], q'.cps[k]) && SameReserve(o, q.cps[k], q'.cps[k])
    ensures q'.cps[k].status == q.cps[k].status || (q.cps[k].status.Signing? && q'.cps[k].status.Complete?)
  {
    k := i - Start(q);
    assert CpValid(q.cps[k]) && StatusFits(q.cps[k].status, k, |q.cps|);
    SignedReplaces(o, q.cps[k], xpub, sigs, h);
  }

  lemma SignKeepsInv(o: Oracle, cfg: CheckpointConfig, q: Queue, xpub: Xpub, sigs: seq<Signature>, i: nat, h: nat, q': Queue)
    returns (k: nat)
    requires QueueInv(o, cfg, q) && SignAt(o, q, xpub, sigs, i, h) == Ok(q')
    ensures QueueInv(o, cfg, q') && SignedOnly(q, q', k)
  {
    k := SignEffect(o, q, xpub, sigs, i, h, q');
    ReplaceKeepsInv(o, cfg, q, k, q'.cps[k]);
  }

  // ----- pending transfers -----

  /** What a measure of transfers gives for all pending transfers of a checkpoint. */
  function PendingOf(g: Transfer -> int): Checkpoint -> int {
    (cp: Checkpoint) => Sum(cp.pending, g)
  }

  lemma {:induction false} PendingsMeasure(cps: seq<Checkpoint>, a: nat, b: nat, g: Transfer -> int)
    requires b <= |cps|
    ensures Sum(Pendings(cps, a, b), g) == SumBetween(cps, a, b, PendingOf(g))
  {
    if a < b {
      PendingsMeasure(cps, a, b - 1, g);
      SumConcat(Pendings(cps, a, b - 1), cps[b - 1].pending, g);
    }
  }

  /** Clearing a range of checkpoints moves exactly their transfers to the result. */
  lemma TakeRangeMoves(q: Queue, i: nat, end: nat, g: Transfer -> int)
    requires TakeRange(q, i, end).Ok?
    ensures var taken := TakeRange(q, i, end).value;
            Sum(taken.0.cps, PendingOf(g)) + Sum(taken.1, g) == Sum(q.cps, PendingOf(g))
  {
    if i < end {
      var a, b := i - Start(q), end - Start(q);
      PendingsMeasure(q.cps, a, b, g);
      SumCleared(q.cps, ClearRange(q.cps, a, b), a, b, |q.cps|, PendingOf(g));
    }
  }

  ghost predicate Cleared(a: Checkpoint, b: Checkpoint) {
    b == a.(pending := b.pending) && (b.pending == a.pending || b.pending == [])
  }

  lemma TakeRangeClears(q: Queue, i: nat, end: nat)
    requires TakeRange(q, i, end).Ok?
    ensures var q' := TakeRange(q, i, end).value.0;
            && AllCleared(q, q')
            && (forall k :: 0 <= k < |q.cps| && i <= Start(q) + k < end ==> q'.cps[k].pending == [])
  {
  }

  lemma TakeConfirmedClears(q: Queue)
    requires TakePendingConfirmed(q).Ok?
    ensures var q' := TakePendingConfirmed(q).value.0;
            && AllCleared(q, q')
            && HasSigning(q') == HasSigning(q)
  {
    if q.confirmed.Some? {
      var end := UnhandledEnd(q, q.firstUnhandled, q.confirmed.value);
      if end.Ok? {
        TakeRangeClears(q, q.firstUnhandled, end.value);
      }
    }
    var q' := TakePendingConfirmed(q).value.0;
    assert |q.cps| >= 2 ==> Cleared(q.cps[|q.cps| - 2], q'.cps[|q.cps| - 2]);
  }

  lemma TakeConfirmedMoves(q: Queue, first: (Queue, seq<Transfer>), g: Transfer -> int)
    requires TakePendingConfirmed(q) == Ok(first)
    ensures Moved(q, first, g)
  {
    if q.confirmed.Some? {
      var end := UnhandledEnd(q, q.firstUnhandled, q.confirmed.value);
      if end.Ok? {
        TakeRangeMoves(q, q.firstUnhandled, end.value, g);
      }
    }
  }

  /** A measure of what was taken and of what is left adds up to what there was. */
  ghost predicate Moved(q: Queue, taken: (Queue, seq<Transfer>), g: Transfer -> int) {
    Sum(taken.0.cps, PendingOf(g)) + Sum(taken.1, g) == Sum(q.cps, PendingOf(g))
  }

  lemma NoneCompleted(q: Queue)
    requires Ordered(q) && LastCompletedIndex(q).Err?
    ensures q.confirmed.None?
    ensures forall k :: 0 <= k < |q.cps| ==> !q.cps[k].status.Complete?
  {
    forall k | 0 <= k < |q.cps| ensures !q.cps[k].status.Complete? {
      assert StatusFits(q.cps[k].status, k, |q.cps|);
    }
  }

  /** No measure of transfers changes: what leaves the checkpoints is what is returned. */
  lemma TakeCompletedMoves(q: Queue, taken: (Queue, seq<Transfer>), g: Transfer -> int)
    requires LastCompletedIndex(q).Ok? || q.confirmed.None?
    requires TakePendingCompleted(q) == Ok(taken)
    ensures Moved(q, taken, g)
  {
    var first, more := TakeTwice(q, taken);
    TakeConfirmedMoves(q, first, g);
    TwoMoves(q, first, taken, more, LastCompletedIndex(q), FirstTaken(q), g);
  }

  lemma TwoMoves(q: Queue, first: (Queue, seq<Transfer>), taken: (Queue, seq<Transfer>), more: seq<Transfer>,
                 last: Result<nat>, i: nat, g: Transfer -> int)
    requires Moved(q, first, g)
    requires match last
             case Err(_) => taken == first
             case Ok(l) => TakeRange(first.0, i, l + 1) == Ok((taken.0, more)) && taken.1 == first.1 + more
    ensures Moved(q, taken, g)
  {
    if last.Ok? {
      TakeMore(q, first, taken, more, i, last.value + 1, g);
    }
  }

  lemma TakeMore(q: Queue, first: (Queue, seq<Transfer>), taken: (Queue, seq<Transfer>), more: seq<Transfer>, i: nat,
                 end: nat, g: Transfer -> int)
    requires Moved(q, first, g) && TakeRange(first.0, i, end) == Ok((taken.0, more)) && taken.1 == first.1 + more
    ensures Moved(q, taken, g)
  {
    TakeRangeMoves(first.0, i, end, g);
    SumConcat(first.1, more, g);
  }

  /** The two ranges that are taken, one after the other. */
  lemma TakeTwice(q: Queue, taken: (Queue, seq<Transfer>)) returns (first: (Queue, seq<Transfer>), more: seq<Transfer>)
    requires TakePendingCompleted(q) == Ok(taken)
    ensures TakePendingConfirmed(q) == Ok(first)
    ensures match LastCompletedIndex(q)
            case Err(_) => taken == (first.0, []) && (q.confirmed.None? ==> taken == first)
            case Ok(last) =>
              TakeRange(first.0, FirstTaken(q), last + 1) == Ok((taken.0, more)) && taken.1 == first.1 + more
  {
    TakeConfirmedClears(q);
    first := TakePendingConfirmed(q).value;
    more := if LastCompletedIndex(q).Err? then []
            else TakeRange(first.0, FirstTaken(q), LastCompletedIndex(q).value + 1).value.1;
  }

  ghost predicate AllCleared(a: Queue, b: Queue) {
    && b == a.(cps := b.cps, firstUnhandled := b.firstUnhandled) && |b.cps| == |a.cps|
    && forall k :: 0 <= k < |a.cps| ==> Cleared(a.cps[k], b.cps[k])
  }

  ghost predicate CompleteEmpty(a: Queue, b: Queue) {
    |b.cps| == |a.cps| && forall k :: 0 <= k < |a.cps| && a.cps[k].status.Complete? ==> b.cps[k].pending == []
  }

  lemma ClearedTwice(q: Queue, q1: Queue, q2: Queue, last: nat)
    requires Ordered(q) && Handled(q) && LastCompletedIndex(q) == Ok(last)
    requires AllCleared(q, q1) && AllCleared(q1, q2)
    requires forall k :: 0 <= k < |q1.cps| && FirstTaken(q) <= Start(q1) + k < last + 1 ==> q2.cps[k].pending == []
    ensures AllCleared(q, q2) && CompleteEmpty(q, q2)
  {
    forall k | 0 <= k < |q.cps|
      ensures Cleared(q.cps[k], q2.cps[k]) && (q.cps[k].status.Complete? ==> q2.cps[k].pending == [])
    {
      assert Cleared(q.cps[k], q1.cps[k]) && Cleared(q1.cps[k], q2.cps[k]);
      CompleteBeforeLast(q, k, last);
    }
  }

  /**
    Taking pending transfers changes nothing else about the checkpoints, and afterwards no
    complete checkpoint has any left.
   */
  lemma TakeCompletedClears(q: Queue, taken: (Queue, seq<Transfer>))
    requires Ordered(q) && Handled(q) && TakePendingCompleted(q) == Ok(taken)
    ensures AllCleared(q, taken.0) && CompleteEmpty(q, taken.0)
  {
    var first, more := TakeTwice(q, taken);
    TakeConfirmedClears(q);
    match LastCompletedIndex(q) {
      case Ok(last) =>
        TakeRangeClears(first.0, FirstTaken(q), last + 1);
        ClearedTwice(q, first.0, taken.0, last);
      case Err(_) =>
        NoneCompleted(q);
    }
  }

  /** A complete checkpoint is the last completed one, or its transfers are gone already. */
  lemma CompleteBeforeLast(q: Queue, k: nat, last: nat)
    requires Ordered(q) && Handled(q) && k < |q.cps| && LastCompletedIndex(q) == Ok(last)
    ensures q.cps[k].status.Complete? ==>
              Start(q) + k == last || q.cps[k].pending == []
    ensures q.confirmed.Some? ==> q.confirmed.value <= last
  {
    assert StatusFits(q.cps[k].status, k, |q.cps|);
  }
}
