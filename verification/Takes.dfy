/**
  What an end of block takes: the transfers of the last completed checkpoint, in their order, since
  every earlier one was emptied before; and every confirmed checkpoint is handled once.
 */
module Takes {
  import opened Common
  import opened BitcoinTypes
  import opened Transactions
  import opened CheckpointQueue
  import opened QueueInvariants
  import opened Payouts
  import opened Bridge
  import opened RunInvariants

  /** All checkpoints from `a` up to `b` are empty but perhaps the one at `p`. */
  predicate EmptyBut(cps: seq<Checkpoint>, a: nat, b: nat, p: int) {
    b <= |cps| && forall k :: a <= k < b && k != p ==> cps[k].pending == []
  }

  lemma {:induction false} OnlyOne(cps: seq<Checkpoint>, a: nat, b: nat, p: int)
    requires EmptyBut(cps, a, b, p)
    ensures Pendings(cps, a, b) == if a <= p < b then cps[p].pending else []
  {
    if a < b {
      OnlyOne(cps, a, b - 1, p);
    }
  }

  lemma PartTakes(cps: seq<Checkpoint>, a: nat, b: nat, p: nat)
    requires p < |cps| && a < b < |cps| && EmptyBut(cps, 0, |cps| - 1, p)
    ensures Pendings(cps, a, b) == if a <= p < b then cps[p].pending else []
    ensures ClearRange(cps, a, b)[p].pending == if a <= p < b then [] else cps[p].pending
  {
    OnlyOne(cps, a, b, p);
  }

  /** What a range that is taken consists of. */
  lemma RangeParts(q: Queue, i: nat, end: nat)
    requires i < end && TakeRange(q, i, end).Ok?
    ensures 0 <= i - Start(q) && end - Start(q) <= |q.cps|
    ensures TakeRange(q, i, end).value.1 == Pendings(q.cps, i - Start(q), end - Start(q))
    ensures TakeRange(q, i, end).value.0.cps == ClearRange(q.cps, i - Start(q), end - Start(q))
  {
  }

  /** What is taken from a range of a queue in which only the checkpoint at `p` has transfers, and
      what is left there. */
  lemma RangeTakes(q: Queue, i: nat, end: nat, p: nat)
    requires p < |q.cps| && TakeRange(q, i, end).Ok? && end <= q.index
    requires EmptyBut(q.cps, 0, |q.cps| - 1, p)
    ensures var r := TakeRange(q, i, end).value;
            && r.1 == (if i <= Start(q) + p < end then q.cps[p].pending else [])
            && |r.0.cps| == |q.cps|
            && r.0.cps[p].pending == (if i <= Start(q) + p < end then [] else q.cps[p].pending)
  {
    if i < end {
      RangeParts(q, i, end);
      PartTakes(q.cps, i - Start(q), end - Start(q), p);
    }
  }

  /** The last confirmed checkpoint that was not handled is followed by the next one to handle. */
  lemma {:induction false} UnhandledIs(q: Queue, i: nat, confirmed: nat)
    requires Ordered(q) && q.confirmed == Some(confirmed)
    ensures UnhandledEnd(q, i, confirmed)
         == if i > confirmed then Ok(i) else if i < Start(q) then Err(OutOfBounds) else Ok(confirmed + 1)
    decreases confirmed + 1 - i
  {
    if Start(q) <= i <= confirmed {
      assert StatusFits(q.cps[i - Start(q)].status, i - Start(q), |q.cps|);
      UnhandledIs(q, i + 1, confirmed);
    }
  }

  /** Whether the confirmed checkpoints from the first unhandled one on are handled now. */
  predicate Handles(q: Queue) {
    q.confirmed.Some? && Start(q) <= q.firstUnhandled <= q.confirmed.value
  }

  /** Handling moves on behind the confirmed index, and never comes back. */
  lemma HandlesNext(q: Queue, first: (Queue, seq<Transfer>))
    requires Ordered(q) && TakePendingConfirmed(q) == Ok(first)
    ensures first.0.firstUnhandled == if Handles(q) then q.confirmed.value + 1 else q.firstUnhandled
  {
    if q.confirmed.Some? {
      UnhandledIs(q, q.firstUnhandled, q.confirmed.value);
    }
  }

  lemma HandlesRange(q: Queue, first: (Queue, seq<Transfer>))
    requires Ordered(q) && TakePendingConfirmed(q) == Ok(first)
    ensures if Handles(q) then
              var r := TakeRange(q, q.firstUnhandled, q.confirmed.value + 1);
              r.Ok? && first.1 == r.value.1 && first.0.cps == r.value.0.cps
            else first.1 == [] && first.0.cps == q.cps
  {
    if q.confirmed.Some? {
      UnhandledIs(q, q.firstUnhandled, q.confirmed.value);
    }
  }

  /** The transfers that are due: those of the last completed checkpoint, if it is the last one before
      the building one. */
  function Due(q: Queue): seq<Transfer> {
    if |q.cps| >= 2 && q.cps[|q.cps| - 2].status.Complete? then q.cps[|q.cps| - 2].pending else []
  }

  lemma FirstKeeps(q: Queue, first: (Queue, seq<Transfer>))
    requires Handled(q) && TakePendingConfirmed(q) == Ok(first)
    ensures AllCleared(q, first.0) && Handled(first.0)
  {
    TakeConfirmedClears(q);
    forall k | 0 <= k < |q.cps| - 2 ensures first.0.cps[k].pending == [] {
      assert Cleared(q.cps[k], first.0.cps[k]);
    }
  }

  /** After the confirmed ones are handled, what is due is either taken or still there. */
  lemma FirstTakes(q: Queue, first: (Queue, seq<Transfer>), p: nat)
    requires Ordered(q) && Handled(q) && p == |q.cps| - 2 && TakePendingConfirmed(q) == Ok(first)
    ensures |first.0.cps| == |q.cps|
    ensures first.1 + (if q.cps[p].status.Complete? then first.0.cps[p].pending else []) == Due(q)
  {
    HandlesRange(q, first);
    assert StatusFits(q.cps[p].status, p, |q.cps|);
    if Handles(q) {
      RangeTakes(q, q.firstUnhandled, q.confirmed.value + 1, p);
    }
  }

  lemma LastAt(q: Queue, last: nat, p: nat)
    requires Ordered(q) && p == |q.cps| - 2 && LastCompletedIndex(q) == Ok(last)
    ensures FirstTaken(q) <= last == Start(q) + p - (if q.cps[p].status.Complete? then 0 else 1)
  {
    assert StatusFits(q.cps[p].status, p, |q.cps|);
  }

  lemma LastIsDue(q1: Queue, i: nat, last: nat, p: nat, complete: bool)
    requires Handled(q1) && p == |q1.cps| - 2 && TakeRange(q1, i, last + 1).Ok? && last < q1.index
    requires i <= last == Start(q1) + p - if complete then 0 else 1
    ensures TakeRange(q1, i, last + 1).value.1 == if complete then q1.cps[p].pending else []
  {
    assert EmptyBut(q1.cps, 0, |q1.cps| - 1, p);
    RangeTakes(q1, i, last + 1, p);
  }

  lemma DueTaken(q: Queue, first: (Queue, seq<Transfer>), taken: (Queue, seq<Transfer>), more: seq<Transfer>, last: nat)
    requires Ordered(q) && Handled(q) && TakePendingConfirmed(q) == Ok(first) && LastCompletedIndex(q) == Ok(last)
    requires TakeRange(first.0, FirstTaken(q), last + 1) == Ok((taken.0, more)) && taken.1 == first.1 + more
    ensures taken.1 == Due(q) && taken.0.firstUnhandled == first.0.firstUnhandled
  {
    FirstKeeps(q, first);
    FirstTakes(q, first, |q.cps| - 2);
    LastAt(q, last, |q.cps| - 2);
    LastIsDue(first.0, FirstTaken(q), last, |q.cps| - 2, q.cps[|q.cps| - 2].status.Complete?);
  }

  lemma NothingDue(q: Queue)
    requires Ordered(q) && LastCompletedIndex(q).Err?
    ensures Due(q) == [] && q.confirmed.None?
  {
    NoneCompleted(q);
  }

  /** An end of block takes exactly the transfers of the last completed checkpoint, in their order,
      and moves on behind the confirmed index. */
  lemma TakesDue(q: Queue, taken: (Queue, seq<Transfer>))
    requires Ordered(q) && Handled(q) && TakePendingCompleted(q) == Ok(taken)
    ensures taken.1 == Due(q)
    ensures taken.0.firstUnhandled == if Handles(q) then q.confirmed.value + 1 else q.firstUnhandled
  {
    var first, more := TakeTwice(q, taken);
    HandlesNext(q, first);
    if LastCompletedIndex(q).Ok? {
      DueTaken(q, first, taken, more, LastCompletedIndex(q).value);
    } else {
      NothingDue(q);
    }
  }

  /** So what an end of block emits are the payouts of these transfers, one after the other. */
  lemma EndBlockPaysDue(o: Oracle, cfg: Config, s: State, b: Block, env: PayoutEnv)
    requires QueueInv(o, cfg.checkpoint, s.queue) && ClockEndBlock(o, cfg, s, b, env).Ok?
    ensures PayoutMsgs(env, Due(s.queue)) == Ok(ClockEndBlock(o, cfg, s, b, env).value.1)
  {
    var t := EndBlockStages(o, cfg, s, b, env);
    TakesDue(s.queue, (t.taken, t.transfers));
  }
}
