/** The index views of the queue, `completed` and `unconfirmed`, equal filters over it. */
module IndexViews {
  import opened Common
  import opened BitcoinTypes
  import opened Transactions
  import opened CheckpointQueue
  import opened QueueInvariants
  import opened Bridge
  import opened BridgeRun
  import opened RunInvariants

  /** The elements among the first `n` that satisfy `p`, in order. */
  function Filter<T>(s: seq<T>, n: nat, p: T -> bool): seq<T>
    requires n <= |s|
  {
    if n == 0 then [] else Filter(s, n - 1, p) + (if p(s[n - 1]) then [s[n - 1]] else [])
  }

  function Min(a: nat, b: nat): nat {
    if a < b then a else b
  }

  /** If exactly the positions from `a` up to `b` satisfy `p`, they are the filter's result. */
  lemma {:induction false} FilterIsRange<T>(s: seq<T>, n: nat, p: T -> bool, a: nat, b: nat)
    requires a <= b && n <= |s|
    requires forall k :: 0 <= k < n ==> (p(s[k]) <==> a <= k < b)
    ensures Filter(s, n, p) == Range(s, Min(a, n), Min(b, n))
  {
    if n > 0 {
      FilterIsRange(s, n - 1, p, a, b);
    }
  }

  predicate IsComplete(cp: Checkpoint) {
    cp.status.Complete?
  }

  function CompleteOnes(q: Queue): seq<Checkpoint> {
    Filter(q.cps, |q.cps|, IsComplete)
  }

  /** The number of complete checkpoints of a well-shaped queue: all but the last one or two. */
  function CompleteCount(q: Queue): int {
    |q.cps| - 1 - SigningOffset(q)
  }

  lemma CompleteFront(q: Queue, k: nat)
    requires Ordered(q) && k < |q.cps|
    ensures q.cps[k].status.Complete? <==> k < CompleteCount(q)
  {
    assert StatusFits(q.cps[k].status, k, |q.cps|);
  }

  lemma CompleteOnesFront(q: Queue)
    requires Ordered(q) && q.cps != []
    ensures 0 <= CompleteCount(q) && CompleteOnes(q) == Range(q.cps, 0, CompleteCount(q))
  {
    forall k | 0 <= k < |q.cps| ensures IsComplete(q.cps[k]) <==> 0 <= k < CompleteCount(q) {
      CompleteFront(q, k);
    }
    FilterIsRange(q.cps, |q.cps|, IsComplete, 0, CompleteCount(q));
  }

  /** The last `n` elements, or all of them when there are fewer. */
  function LastOf<T>(s: seq<T>, n: nat): seq<T> {
    Range(s, |s| - Min(n, |s|), |s|)
  }

  /**
    `completed(limit)`: on every well-shaped queue the last `limit` complete checkpoints in
    order, all of them when there are fewer; no subtraction underflows.
   */
  method Completed(q: Queue, limit: nat) returns (r: Result<seq<Checkpoint>>)
    ensures Ordered(q) ==> r == Ok(LastOf(CompleteOnes(q), limit))
  {
    var out := [];
    if |q.cps| == 0 {
      return Ok(out);
    }
    var skip := if HasSigning(q) then 2 else 1;
    var end := SatSub(q.index, skip - 1);
    if |q.cps| < skip || end < Min(limit, |q.cps| - skip) {
      return Err(Overflow);
    }
    var start := end - Min(limit, |q.cps| - skip);
    var i := start;
    while i < end
      invariant start <= i <= end
      invariant Ordered(q) ==> 0 <= start - Start(q) && end - Start(q) == |q.cps| - skip
      invariant Ordered(q) ==> out == Range(q.cps, start - Start(q), i - Start(q))
    {
      var cp := Get(q, i);
      if cp.Err? {
        return Err(cp.error);
      }
      out := out + [cp.value];
      i := i + 1;
    }
    if Ordered(q) {
      CompleteOnesFront(q);
      assert out == LastOf(CompleteOnes(q), limit);
    }
    return Ok(out);
  }

  // ----- unconfirmed -----

  /** The loop of `unconfirmed`, which stops at the first checkpoint that is not complete. */
  method UnconfirmedLoop(q: Queue) returns (r: Result<seq<Checkpoint>>)
    ensures r == Unconfirmed(q)
  {
    var first := FirstUnconfirmed(q);
    if first.Err? {
      return Err(first.error);
    }
    if first.value.None? {
      return Ok([]);
    }
    var i := first.value.value;
    if !InRange(q, i) {
      FirstInRange(q);
      return Err(OutOfBounds);
    }
    var a, out := i - Start(q), [];
    while i <= q.index
      invariant Start(q) + a <= i <= q.index + 1 && InRange(q, Start(q) + a)
      invariant CompleteFrom(q.cps, a) == out + CompleteFrom(q.cps, i - Start(q))
    {
      var cp := q.cps[i - Start(q)];
      if !cp.status.Complete? {
        break;
      }
      out := out + [cp];
      i := i + 1;
    }
    assert CompleteFrom(q.cps, i - Start(q)) == [] && out + [] == out;
    return Ok(out);
  }

  /** The first unconfirmed index never lies above the queue. */
  lemma FirstInRange(q: Queue)
    requires FirstUnconfirmed(q).Ok? && FirstUnconfirmed(q).value.Some?
    ensures FirstUnconfirmed(q).value.value <= q.index
  {
  }

  predicate IsUnconfirmed(confirmed: Option<nat>, cp: Checkpoint) {
    cp.status.Complete? && (confirmed.Some? ==> cp.sigset.index > confirmed.value)
  }

  function UnconfirmedOnes(q: Queue): seq<Checkpoint> {
    Filter(q.cps, |q.cps|, cp => IsUnconfirmed(q.confirmed, cp))
  }

  lemma {:induction false} RunIsRange(cps: seq<Checkpoint>, a: nat, b: nat)
    requires a <= b < |cps| && (forall k :: a <= k < b ==> cps[k].status.Complete?) && !cps[b].status.Complete?
    ensures CompleteFrom(cps, a) == Range(cps, a, b)
    decreases b - a
  {
    if a < b {
      RunIsRange(cps, a + 1, b);
    }
  }

  /** The first position that is not confirmed. */
  function FirstPosition(q: Queue): int {
    if q.confirmed.Some? then q.confirmed.value + 1 - Start(q) else 0
  }

  lemma UnconfirmedPositions(q: Queue)
    requires Ordered(q) && q.cps != [] && NotPrunedPast(q)
    ensures 0 <= FirstPosition(q) <= CompleteCount(q)
    ensures Unconfirmed(q) == Ok(Range(q.cps, FirstPosition(q), CompleteCount(q)))
  {
    var a, b := FirstPosition(q), CompleteCount(q);
    NumUnconfirmedIsBacklog(q);
    forall k | 0 <= k < |q.cps| ensures q.cps[k].status.Complete? <==> k < b {
      CompleteFront(q, k);
    }
    RunIsRange(q.cps, a, b);
  }

  /**
    `unconfirmed` is exactly the complete checkpoints above the confirmed index, all of them
    when none is confirmed, with no underflow, exactly on the queues in which none of them has
    been pruned; every reachable queue is one.
   */
  lemma UnconfirmedIsFilter(q: Queue)
    requires Ordered(q) && q.cps != []
    ensures Unconfirmed(q).Ok? <==> NotPrunedPast(q)
    ensures NotPrunedPast(q) ==> Unconfirmed(q) == Ok(UnconfirmedOnes(q))
  {
    if NotPrunedPast(q) {
      UnconfirmedPositions(q);
      var a, b := FirstPosition(q), CompleteCount(q);
      forall k | 0 <= k < |q.cps| ensures IsUnconfirmed(q.confirmed, q.cps[k]) <==> a <= k < b {
        CompleteFront(q, k);
        assert q.cps[k].sigset.index == Start(q) + k;
      }
      FilterIsRange(q.cps, |q.cps|, cp => IsUnconfirmed(q.confirmed, cp), a, b);
    } else {
      NumUnconfirmedIsBacklog(q);
    }
  }

  /** On every reachable queue `unconfirmed` succeeds and is the filter. */
  lemma RunUnconfirmedIsFilter(o: Oracle, cfg: Config, es: seq<Event>)
    requires GoodConfig(cfg) && HonestRun(o, cfg, START, es)
    ensures var q := Run(o, cfg, START, es).st.queue;
            Unconfirmed(q) == Ok(UnconfirmedOnes(q))
  {
    var q := Run(o, cfg, START, es).st.queue;
    RunKeepsInv(o, cfg, es);
    if q.cps != [] {
      UnconfirmedIsFilter(q);
    }
  }
}
