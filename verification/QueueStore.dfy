/**
  The checkpoint queue as the contract stores it: a deque of checkpoints and the indices
  beside it, changed in place. While `Set` is aligned with `Get`, every method does exactly
  what its counterpart on queue values does.
 */
module QueueStore {
  import opened Common
  import opened BitcoinTypes
  import opened Transactions
  import opened SignatorySets
  import opened Advance
  import opened Deques
  import CQ = CheckpointQueue
  import SI = StepInvariants
  import TS = ThresholdSigs
  import Signing

  class Store {
    const checkpoints: Deque<Checkpoint>
    var index: nat
    var confirmed: Option<nat>
    var firstUnhandled: nat
    var feePool: int

    ghost predicate Valid()
      reads checkpoints
    {
      checkpoints.Valid()
    }

    predicate Aligned()
      reads checkpoints
    {
      checkpoints.Aligned()
    }

    function Queue(): CQ.Queue
      reads this`index, this`confirmed, this`firstUnhandled, checkpoints
      requires Valid()
    {
      CQ.Queue(checkpoints.Contents(), index, confirmed, firstUnhandled)
    }

    constructor (relative: bool)
      ensures Valid() && fresh(checkpoints) && Aligned() && checkpoints.relative == relative
      ensures Queue() == CQ.EMPTY_QUEUE && feePool == 0
    {
      checkpoints := new Deque(relative);
      index, confirmed, firstUnhandled, feePool := 0, None, 0, 0;
    }

    // ----- access by checkpoint index -----

    method Get(i: nat) returns (r: Result<Checkpoint>)
      requires Valid()
      ensures r == CQ.Get(Queue(), i)
    {
      var length: nat := checkpoints.Len();
      if index + 1 < length {
        return Err(OutOfBounds);
      }
      var start := index + 1 - length;
      if i > index || i < start {
        return Err(OutOfBounds);
      }
      var cp := checkpoints.Get(i - start);
      return Ok(cp.value);
    }

    method Set(i: nat, cp: Checkpoint) returns (r: Result<()>)
      requires Valid()
      modifies checkpoints`items
      ensures Valid()
      ensures PutLagging(old(Queue()), checkpoints.Lag(), i, cp) == if r.Err? then Err(r.error) else Ok(Queue())
      ensures Aligned() ==> CQ.Put(old(Queue()), i, cp) == if r.Err? then Err(r.error) else Ok(Queue())
      ensures !Aligned() ==> CQ.Get(Queue(), i) == CQ.Get(old(Queue()), i)
    {
      var length: nat := checkpoints.Len();
      if index + 1 < length {
        return Err(OutOfBounds);
      }
      var start := index + 1 - length;
      if i > index || i < start {
        return Err(OutOfBounds);
      }
      checkpoints.Set(i - start, cp);
      return Ok(());
    }

    // ----- prune and push -----

    method Prune(maxAge: nat) returns (r: Result<()>)
      requires Valid()
      modifies checkpoints
      ensures Valid() && old(checkpoints.head) <= checkpoints.head
      ensures CQ.Prune(maxAge, old(Queue())) == if r.Err? then Err(r.error) else Ok(Queue())
    {
      var building := Get(index);
      if building.Err? {
        return Err(building.error);
      }
      r := PopOld(building.value.sigset.createTime, maxAge);
    }

    /** Pops from the front while there are enough checkpoints and the oldest is too old. */
    method PopOld(latest: nat, maxAge: nat) returns (r: Result<()>)
      requires Valid()
      modifies checkpoints
      ensures Valid() && old(checkpoints.head) <= checkpoints.head
      ensures var cps := old(checkpoints.Contents()); var k := CQ.PruneCount(cps, 0, latest, maxAge);
              if r.Err? then k == Err(r.error) else k.Ok? && checkpoints.Contents() == Suffix(cps, k.value)
    {
      ghost var cps := checkpoints.Contents();
      ghost var k: nat := 0;
      var length: nat := checkpoints.Len();
      while length > 0
        invariant Valid() && k + length == |cps| && checkpoints.Contents() == Suffix(cps, k)
        invariant checkpoints.head >= old(checkpoints.head)
        invariant CQ.PruneCount(cps, 0, latest, maxAge) == CQ.PruneCount(cps, k, latest, maxAge)
      {
        if length <= CQ.MIN_CHECKPOINTS {
          assert CQ.PruneCount(cps, k, latest, maxAge) == Ok(k);
          return Ok(());
        }
        var oldest := checkpoints.Get(0);
        var age := Minus(latest, oldest.value.sigset.createTime);
        if age.Err? {
          return Err(age.error);
        }
        if age.value <= maxAge {
          assert CQ.PruneCount(cps, k, latest, maxAge) == Ok(k);
          return Ok(());
        }
        var _ := checkpoints.PopFront();
        SuffixStep(cps, k);
        length := length - 1;
        k := k + 1;
      }
      assert CQ.PruneCount(cps, k, latest, maxAge) == Ok(k);
      return Ok(());
    }

    method MaybePush(candidate: Result<SignatorySet>, depositsEnabled: bool) returns (r: Result<bool>)
      requires Valid()
      modifies this`index, checkpoints
      ensures Valid() && checkpoints.head == old(checkpoints.head)
      ensures PushLagging(old(Queue()), checkpoints.Lag(), candidate, depositsEnabled)
           == if r.Err? then Err(r.error) else Ok((Queue(), r.value))
      ensures Aligned() ==>
                CQ.MaybePush(old(Queue()), candidate, depositsEnabled)
                == if r.Err? then Err(r.error) else Ok((Queue(), r.value))
    {
      PushAligned(Queue(), candidate, depositsEnabled);
      var next := index;
      if checkpoints.Len() > 0 {
        next := next + 1;
      }
      if candidate.Err? {
        return Err(candidate.error);
      }
      index := next;
      var sigset := candidate.value;
      if sigset.possibleVp == 0 || !HasQuorum(sigset) {
        return Ok(false);
      }
      r := PushNew(sigset, depositsEnabled);
    }

    /** Appends the checkpoint, then reads it back to set whether it takes deposits. */
    method PushNew(sigset: SignatorySet, depositsEnabled: bool) returns (r: Result<bool>)
      requires Valid()
      modifies checkpoints
      ensures Valid() && checkpoints.head == old(checkpoints.head)
      ensures r == if |old(checkpoints.Contents())| > index then Err(OutOfBounds) else Ok(true)
      ensures r.Ok? ==>
                checkpoints.Contents() == NewLanded(old(checkpoints.Contents()), checkpoints.Lag(), sigset, depositsEnabled)
    {
      checkpoints.PushBack(NewCheckpoint(sigset, true));
      var building := Get(index);
      if building.Err? {
        return Err(building.error);
      }
      var written := Set(index, building.value.(depositsEnabled := depositsEnabled));
      return Ok(true);
    }

    // ----- maybe_step -----

    method Handover(o: Oracle, cfg: CheckpointConfig, units: nat, b: CQ.Block) returns (r: Result<()>)
      requires Valid() && index > 0
      modifies this`feePool, checkpoints`items
      ensures Valid()
      ensures Aligned() ==>
                HandedOn(o, cfg, b, units, old(Queue()), old(feePool))
                == if r.Err? then Err(r.error) else Ok((Queue(), feePool))
    {
      ghost var ops := CQ.OpsFor(o, cfg, b);
      var fees := CQ.CalcFee(o, cfg, Queue(), index - 1, b.commitment);
      if fees.Err? {
        return Err(fees.error);
      }
      var prev := Get(index - 1);
      if prev.Err? {
        return Err(prev.error);
      }
      var a := AdvanceBuilding(o, cfg, prev.value, b.commitment, fees.value);
      assert a == ops.freeze(prev.value, fees.value);
      if a.Err? {
        return Err(a.error);
      }
      HandoverPasses(o, cfg, b, units, Queue(), feePool, fees.value, prev.value, a.value);
      r := PassOn(o, cfg, units, b, fees.value, prev.value.feeRate, a.value);
    }

    /** Stores the frozen checkpoint, pays for it and starts the next one. */
    method PassOn(o: Oracle, cfg: CheckpointConfig, units: nat, b: CQ.Block, fees: nat, prevRate: nat, a: Advanced)
      returns (r: Result<()>)
      requires Valid() && index > 0
      modifies this`feePool, checkpoints`items
      ensures Valid()
      ensures Aligned() ==>
                Passed(o, cfg, b, units, old(Queue()), old(feePool), fees, prevRate, a)
                == if r.Err? then Err(r.error) else Ok((Queue(), feePool))
    {
      var written := Set(index - 1, a.cp);
      if written.Err? {
        return Err(written.error);
      }
      r := Charge(fees, units);
      if r.Err? {
        return;
      }
      r := StartNext(o, cfg, b, prevRate, a);
    }

    /** Takes a fee out of the pool, cast to a signed word. */
    method Charge(fees: nat, units: nat) returns (r: Result<()>)
      modifies this`feePool
      ensures var due := Checked(Times(fees, units));
              if due.Err? then r == Err(due.error)
              else var pool := CheckedI64(old(feePool) - AsI64(due.value));
                   if pool.Err? then r == Err(pool.error) else r.Ok? && feePool == pool.value
    {
      var due := Checked(Times(fees, units));
      if due.Err? {
        return Err(due.error);
      }
      var pool := CheckedI64(feePool - AsI64(due.value));
      if pool.Err? {
        return Err(pool.error);
      }
      feePool := pool.value;
      return Ok(());
    }

    /** Gives the building checkpoint its fee rate, the reserve input and the excess. */
    method StartNext(o: Oracle, cfg: CheckpointConfig, b: CQ.Block, prevRate: nat, a: Advanced) returns (r: Result<()>)
      requires Valid()
      modifies checkpoints`items
      ensures Valid()
      ensures Aligned() ==>
                Begin(o, cfg, b, old(Queue()), prevRate, a) == if r.Err? then Err(r.error) else Ok(Queue())
    {
      var rate := CQ.NextFeeRate(cfg, Queue(), prevRate, b.btcHeight);
      if rate.Err? {
        return Err(rate.error);
      }
      var building := Get(index);
      if building.Err? {
        return Err(building.error);
      }
      var next := PushReserveAndExcess(o, a, building.value, rate.value);
      if next.Err? {
        return Err(next.error);
      }
      r := Set(index, next.value);
    }

    method MaybeStep(o: Oracle, cfg: CheckpointConfig, units: nat, b: CQ.Block, dep: bool) returns (r: Result<bool>)
      requires Valid()
      modifies this`index, this`feePool, checkpoints
      ensures Valid() && old(checkpoints.head) <= checkpoints.head
      ensures Aligned() ==>
                CQ.MaybeStep(o, cfg, units, old(Queue()), old(feePool), b, dep)
                == if r.Err? then Err(r.error) else Ok(CQ.Stepped(Queue(), feePool, r.value))
    {
      ghost var ops := CQ.OpsFor(o, cfg, b);
      var should := CQ.ShouldPush(o, cfg, Queue(), b);
      assert should == ops.should(Queue());
      if should.Err? {
        return Err(should.error);
      }
      if !should.value {
        return Ok(false);
      }
      var candidate := CQ.NextSigset(o, Queue(), b);
      assert candidate == ops.sigset(Queue());
      r := PushAndHandOver(o, cfg, units, b, dep, candidate);
    }

    method PushAndHandOver(o: Oracle, cfg: CheckpointConfig, units: nat, b: CQ.Block, dep: bool,
                           candidate: Result<SignatorySet>) returns (r: Result<bool>)
      requires Valid()
      modifies this`index, this`feePool, checkpoints
      ensures Valid() && old(checkpoints.head) <= checkpoints.head
      ensures Aligned() ==>
                Pushed(o, cfg, b, units, old(Queue()), old(feePool), dep, candidate)
                == if r.Err? then Err(r.error) else Ok(CQ.Stepped(Queue(), feePool, r.value))
    {
      var pushed := PushAndPrune(candidate, dep, cfg.maxAge);
      if pushed.Err? || !pushed.value || index == 0 {
        return pushed;
      }
      var done := Handover(o, cfg, units, b);
      if done.Err? {
        return Err(done.error);
      }
      return Ok(true);
    }

    method PushAndPrune(candidate: Result<SignatorySet>, dep: bool, maxAge: nat) returns (r: Result<bool>)
      requires Valid()
      modifies this`index, checkpoints
      ensures Valid() && old(checkpoints.head) <= checkpoints.head
      ensures Aligned() ==>
                Extended(old(Queue()), candidate, dep, maxAge) == if r.Err? then Err(r.error) else Ok((Queue(), r.value))
    {
      r := MaybePush(candidate, dep);
      if r.Err? || !r.value {
        return;
      }
      var pruned := Prune(maxAge);
      if pruned.Err? {
        return Err(pruned.error);
      }
    }

    // ----- sign -----

    method Sign(o: Oracle, xpub: Xpub, sigs: seq<Signature>, i: nat, btcHeight: nat) returns (r: Result<()>)
      requires Valid()
      modifies checkpoints`items
      ensures Valid()
      ensures SignLagging(o, old(Queue()), checkpoints.Lag(), xpub, sigs, i, btcHeight)
           == if r.Err? then Err(r.error) else Ok(Queue())
      ensures Aligned() ==>
                CQ.SignAt(o, old(Queue()), xpub, sigs, i, btcHeight) == if r.Err? then Err(r.error) else Ok(Queue())
      ensures !Aligned() ==> CQ.Get(Queue(), i) == CQ.Get(old(Queue()), i)
    {
      var cp := Get(i);
      if cp.Err? {
        return Err(cp.error);
      }
      if cp.value.status.Building? {
        return Err(StillBuilding);
      }
      var signed := Signing.Sign(o, cp.value, xpub, sigs, btcHeight);
      if signed.Err? {
        return Err(signed.error);
      }
      var cp' := signed.value;
      if cp.value.status.Signing? && CheckpointSigned(cp'.batches) {
        cp' := cp'.(status := Complete);
      }
      r := Set(i, cp');
    }

    // ----- pending transfers -----

    /** Takes the pending transfers of one checkpoint. */
    method TakeOne(j: nat) returns (r: Result<seq<Transfer>>)
      requires Valid()
      modifies checkpoints`items
      ensures Valid()
      ensures LaggingTaker(checkpoints.Lag())(old(Queue()), j) == if r.Err? then Err(r.error) else Ok((Queue(), r.value))
    {
      var cp := Get(j);
      if cp.Err? {
        return Err(cp.error);
      }
      var written := Set(j, CQ.Emptied(cp.value));
      return Ok(cp.value.pending);
    }

    /** Takes the pending transfers of checkpoints `i` up to `end`, one after the other. */
    method TakeRange(i: nat, end: nat) returns (r: Result<seq<Transfer>>)
      requires Valid()
      modifies checkpoints`items
      ensures Valid()
      ensures TakeLagging(old(Queue()), checkpoints.Lag(), i, end)
           == if r.Err? then Err(r.error) else Ok((Queue(), r.value))
    {
      ghost var q, f := Queue(), LaggingTaker(checkpoints.Lag());
      r := Ok([]);
      var j := i;
      while j < end
        invariant Valid() && i <= j && (j == i || j <= end) && r.Ok?
        invariant TakeEach(f, q, i, j) == Ok((Queue(), r.value))
      {
        ghost var before := Queue();
        TakeNext(f, q, i, j, end, before, r.value);
        var taken := TakeOne(j);
        assert f(before, j) == if taken.Err? then Err(taken.error) else Ok((Queue(), taken.value));
        if taken.Err? {
          return taken;
        }
        r := Ok(r.value + taken.value);
        j := j + 1;
      }
    }

    /** The indices of confirmed checkpoints not handled yet end before this one. */
    method UnhandledEnd() returns (r: Result<nat>)
      requires Valid() && confirmed.Some?
      ensures r == CQ.UnhandledEnd(Queue(), firstUnhandled, confirmed.value)
    {
      var i := firstUnhandled;
      while i <= confirmed.value
        invariant CQ.UnhandledEnd(Queue(), firstUnhandled, confirmed.value)
               == CQ.UnhandledEnd(Queue(), i, confirmed.value)
      {
        var cp := Get(i);
        if cp.Err? {
          return Err(cp.error);
        }
        if !cp.value.status.Complete? {
          return Ok(i);
        }
        i := i + 1;
      }
      return Ok(i);
    }

    method TakePendingConfirmed() returns (r: Result<seq<Transfer>>)
      requires Valid()
      modifies this`firstUnhandled, checkpoints`items
      ensures Valid()
      ensures ConfirmedLagging(old(Queue()), checkpoints.Lag()) == if r.Err? then Err(r.error) else Ok((Queue(), r.value))
      ensures Aligned() ==>
                CQ.TakePendingConfirmed(old(Queue())) == if r.Err? then Err(r.error) else Ok((Queue(), r.value))
    {
      ConfirmedAligned(Queue());
      if confirmed.None? {
        return Ok([]);
      }
      var end := UnhandledEnd();
      if end.Err? {
        return Ok([]);
      }
      r := TakeRange(firstUnhandled, end.value);
      if r.Ok? && end.value > firstUnhandled {
        firstUnhandled := end.value;
      }
    }

    method TakePendingCompleted() returns (r: Result<seq<Transfer>>)
      requires Valid()
      modifies this`firstUnhandled, checkpoints`items
      ensures Valid()
      ensures CompletedLagging(old(Queue()), checkpoints.Lag()) == if r.Err? then Err(r.error) else Ok((Queue(), r.value))
      ensures Aligned() ==>
                CQ.TakePendingCompleted(old(Queue())) == if r.Err? then Err(r.error) else Ok((Queue(), r.value))
    {
      CompletedAligned(Queue());
      var confirmedDests := TakePendingConfirmed();
      if confirmedDests.Err? {
        return confirmedDests;
      }
      r := TakeToLast(confirmedDests.value);
    }

    /** The second loop, from the confirmed index to the last completed one. */
    method TakeToLast(confirmedDests: seq<Transfer>) returns (r: Result<seq<Transfer>>)
      requires Valid()
      modifies checkpoints`items
      ensures Valid()
      ensures ToLastLagging(old(Queue()), checkpoints.Lag(), confirmedDests)
           == if r.Err? then Err(r.error) else Ok((Queue(), r.value))
    {
      var last := CQ.LastCompletedIndex(Queue());
      if last.Err? {
        return Ok([]);
      }
      var first := if confirmed.Some? then confirmed.value else 0;
      r := TakeRange(first, last.value + 1);
      if r.Ok? {
        r := Ok(confirmedDests + r.value);
      }
    }
  }

  /** A write by index that lands `lag` positions too early. */
  function PutLagging(q: CQ.Queue, lag: nat, i: nat, cp: Checkpoint): Result<CQ.Queue> {
    if CQ.InRange(q, i) then Ok(q.(cps := Landed(q.cps, i - CQ.Start(q), lag, cp))) else Err(OutOfBounds)
  }

  /** With a lag, what is read at the written index is what was there before. */
  lemma LagLosesWrite(q: CQ.Queue, lag: nat, i: nat, cp: Checkpoint)
    requires lag > 0 && CQ.InRange(q, i)
    ensures PutLagging(q, lag, i, cp).Ok? && CQ.Get(PutLagging(q, lag, i, cp).value, i) == CQ.Get(q, i)
  {
  }

  // ----- the operations with a lag -----

  /** What `maybe_push` appends, and what reading it back and writing it does. */
  function NewLanded(cps: seq<Checkpoint>, lag: nat, sigset: SignatorySet, depositsEnabled: bool): seq<Checkpoint> {
    Landed(cps + [NewCheckpoint(sigset, true)], |cps|, lag, NewCheckpoint(sigset, depositsEnabled))
  }

  function PushLagging(q: CQ.Queue, lag: nat, candidate: Result<SignatorySet>, depositsEnabled: bool)
    : Result<(CQ.Queue, bool)>
  {
    var sigset :- candidate;
    var q' := q.(index := CQ.NextIndex(q));
    if !CQ.Usable(sigset) then Ok((q', false))
    else if |q.cps| > CQ.NextIndex(q) then Err(OutOfBounds)
    else Ok((q'.(cps := NewLanded(q.cps, lag, sigset, depositsEnabled)), true))
  }

  lemma PushAligned(q: CQ.Queue, candidate: Result<SignatorySet>, depositsEnabled: bool)
    ensures PushLagging(q, 0, candidate, depositsEnabled) == CQ.MaybePush(q, candidate, depositsEnabled)
  {
    if candidate.Ok? {
      var next, first := NewCheckpoint(candidate.value, depositsEnabled), NewCheckpoint(candidate.value, true);
      assert (q.cps + [first])[|q.cps| := next] == q.cps + [next];
    }
  }

  function SignLagging(o: Oracle, q: CQ.Queue, lag: nat, xpub: Xpub, sigs: seq<Signature>, i: nat, btcHeight: nat)
    : Result<CQ.Queue>
  {
    var cp :- CQ.Get(q, i);
    var signed :- CQ.SignAt(o, q, xpub, sigs, i, btcHeight);
    PutLagging(q, lag, i, signed.cps[i - CQ.Start(q)])
  }

  function OneTaken(q: CQ.Queue, lag: nat, j: nat): Result<(CQ.Queue, seq<Transfer>)> {
    var cp :- CQ.Get(q, j);
    var q' :- PutLagging(q, lag, j, CQ.Emptied(cp));
    Ok((q', cp.pending))
  }

  /** How the transfers of one checkpoint are taken. */
  type Taker = (CQ.Queue, nat) -> Result<(CQ.Queue, seq<Transfer>)>

  function LaggingTaker(lag: nat): Taker {
    (q: CQ.Queue, j: nat) => OneTaken(q, lag, j)
  }

  /** Taking checkpoints `i` up to `end`, one after the other. */
  function TakeEach(f: Taker, q: CQ.Queue, i: nat, end: nat): Result<(CQ.Queue, seq<Transfer>)>
    decreases end - i
  {
    if i >= end then Ok((q, [])) else TakeMore(f, TakeEach(f, q, i, end - 1), end - 1)
  }

  function TakeMore(f: Taker, front: Result<(CQ.Queue, seq<Transfer>)>, j: nat): Result<(CQ.Queue, seq<Transfer>)> {
    var taken :- front;
    var one :- f(taken.0, j);
    Ok((one.0, taken.1 + one.1))
  }

  function TakeLagging(q: CQ.Queue, lag: nat, i: nat, end: nat): Result<(CQ.Queue, seq<Transfer>)> {
    TakeEach(LaggingTaker(lag), q, i, end)
  }

  function ConfirmedLagging(q: CQ.Queue, lag: nat): Result<(CQ.Queue, seq<Transfer>)> {
    if q.confirmed.None? then Ok((q, [])) else
    match CQ.UnhandledEnd(q, q.firstUnhandled, q.confirmed.value)
    case Err(_) => Ok((q, []))
    case Ok(end) =>
      var taken :- TakeLagging(q, lag, q.firstUnhandled, end);
      Ok((if end > q.firstUnhandled then taken.0.(firstUnhandled := end) else taken.0, taken.1))
  }

  function CompletedLagging(q: CQ.Queue, lag: nat): Result<(CQ.Queue, seq<Transfer>)> {
    var confirmed :- ConfirmedLagging(q, lag);
    ToLastLagging(confirmed.0, lag, confirmed.1)
  }

  function ToLastLagging(q: CQ.Queue, lag: nat, dests: seq<Transfer>): Result<(CQ.Queue, seq<Transfer>)> {
    match CQ.LastCompletedIndex(q)
    case Err(_) => Ok((q, []))
    case Ok(last) =>
      var completed :- TakeLagging(q, lag, CQ.FirstTaken(q), last + 1);
      Ok((completed.0, dests + completed.1))
  }

  lemma {:induction false} TakeFails(f: Taker, q: CQ.Queue, i: nat, j: nat, end: nat)
    requires i < j <= end && TakeEach(f, q, i, j).Err?
    ensures TakeEach(f, q, i, end) == TakeEach(f, q, i, j)
  {
    if j < end {
      TakeFails(f, q, i, j, end - 1);
    }
  }

  /** One more checkpoint; when that fails, so does any longer range. */
  lemma TakeNext(f: Taker, q: CQ.Queue, i: nat, j: nat, end: nat, q1: CQ.Queue, ts: seq<Transfer>)
    requires i <= j < end && TakeEach(f, q, i, j) == Ok((q1, ts))
    ensures match f(q1, j)
            case Err(e) => TakeEach(f, q, i, end) == Err(e)
            case Ok(one) => TakeEach(f, q, i, j + 1) == Ok((one.0, ts + one.1))
  {
    if f(q1, j).Err? {
      TakeFails(f, q, i, j + 1, end);
    }
  }

  /** Whatever grows by one checkpoint at a time is taking one by one. */
  lemma {:induction false} EachIs(f: Taker, q: CQ.Queue, i: nat, end: nat, g: nat -> Result<(CQ.Queue, seq<Transfer>)>)
    requires i <= end && g(i) == Ok((q, [])) && forall j :: i <= j ==> g(j + 1) == TakeMore(f, g(j), j)
    ensures TakeEach(f, q, i, end) == g(end)
  {
    if i < end {
      EachIs(f, q, i, end - 1, g);
      assert g(end - 1 + 1) == TakeMore(f, g(end - 1), end - 1);
    }
  }

  /** Without a lag, taking one by one is taking the range. */
  lemma TakeAligned(q: CQ.Queue, i: nat, end: nat)
    ensures TakeLagging(q, 0, i, end) == CQ.TakeRange(q, i, end)
  {
    if i < end {
      var f, g := LaggingTaker(0), (e: nat) => CQ.TakeRange(q, i, e);
      forall j | i <= j ensures g(j + 1) == TakeMore(f, g(j), j) {
        RangeStep(f, q, i, j);
      }
      EachIs(f, q, i, end, g);
    }
  }

  lemma RangeStep(f: Taker, q: CQ.Queue, i: nat, j: nat)
    requires i <= j && f == LaggingTaker(0)
    ensures CQ.TakeRange(q, i, j + 1) == TakeMore(f, CQ.TakeRange(q, i, j), j)
  {
    if CQ.TakeRange(q, i, j).Ok? {
      TakeStep(q, i, j);
    }
  }

  lemma TakeStep(q: CQ.Queue, i: nat, j: nat)
    requires i <= j && CQ.TakeRange(q, i, j).Ok?
    ensures var t := CQ.TakeRange(q, i, j).value;
            match OneTaken(t.0, 0, j)
            case Err(e) => CQ.TakeRange(q, i, j + 1) == Err(e)
            case Ok(one) => CQ.TakeRange(q, i, j + 1) == Ok((one.0, t.1 + one.1))
  {
    if CQ.InRange(q, i) && CQ.InRange(q, j) {
      var a, b := i - CQ.Start(q), j - CQ.Start(q);
      assert CQ.ClearRange(q.cps, a, b + 1) == CQ.ClearRange(q.cps, a, b)[b := CQ.Emptied(q.cps[b])];
      assert CQ.Pendings(q.cps, a, b + 1) == CQ.Pendings(q.cps, a, b) + q.cps[b].pending;
      if a == b {
        assert CQ.ClearRange(q.cps, a, b) == q.cps;
      }
    }
  }

  lemma ConfirmedAligned(q: CQ.Queue)
    ensures ConfirmedLagging(q, 0) == CQ.TakePendingConfirmed(q)
  {
    if q.confirmed.Some? {
      var end := CQ.UnhandledEnd(q, q.firstUnhandled, q.confirmed.value);
      if end.Ok? {
        TakeAligned(q, q.firstUnhandled, end.value);
      }
    }
  }

  lemma CompletedAligned(q: CQ.Queue)
    ensures CompletedLagging(q, 0) == CQ.TakePendingCompleted(q)
  {
    ConfirmedAligned(q);
    if CQ.TakePendingConfirmed(q).Ok? {
      var first := CQ.TakePendingConfirmed(q).value;
      ConfirmedStays(q, first);
      ToLastAligned(first.0, first.1);
    }
  }

  lemma ConfirmedStays(q: CQ.Queue, first: (CQ.Queue, seq<Transfer>))
    requires CQ.TakePendingConfirmed(q) == Ok(first)
    ensures CQ.FirstTaken(first.0) == CQ.FirstTaken(q)
  {
  }

  lemma ToLastAligned(q: CQ.Queue, dests: seq<Transfer>)
    ensures ToLastLagging(q, 0, dests)
         == match CQ.LastCompletedIndex(q)
            case Err(_) => Ok((q, []))
            case Ok(last) =>
              match CQ.TakeRange(q, CQ.FirstTaken(q), last + 1)
              case Err(e) => Err(e)
              case Ok(completed) => Ok((completed.0, dests + completed.1))
  {
    if CQ.LastCompletedIndex(q).Ok? {
      TakeAligned(q, CQ.FirstTaken(q), CQ.LastCompletedIndex(q).value + 1);
    }
  }

  /** Every checkpoint from index `i` on is the same. */
  ghost predicate SameFrom(q: CQ.Queue, q1: CQ.Queue, i: nat) {
    && q1 == q.(cps := q1.cps) && |q1.cps| == |q.cps|
    && forall k :: 0 <= k < |q.cps| && i <= CQ.Start(q) + k ==> q1.cps[k] == q.cps[k]
  }

  /** The writes of taking a range no longer than the lag all land before it. */
  lemma {:induction false} TakeMisses(q: CQ.Queue, lag: nat, i: nat, end: nat)
    requires i < end <= i + lag && CQ.InRange(q, i) && CQ.InRange(q, end - 1)
    ensures var r := TakeLagging(q, lag, i, end);
            && r.Ok? && SameFrom(q, r.value.0, i)
            && r.value.1 == CQ.Pendings(q.cps, i - CQ.Start(q), end - CQ.Start(q))
  {
    var front := (q, []);
    if i < end - 1 {
      TakeMisses(q, lag, i, end - 1);
      front := TakeLagging(q, lag, i, end - 1).value;
    }
    assert TakeLagging(q, lag, i, end - 1) == Ok(front);
    OneMisses(front.0, lag, i, end - 1);
  }

  lemma OneMisses(q: CQ.Queue, lag: nat, i: nat, j: nat)
    requires i <= j < i + lag && CQ.InRange(q, j)
    ensures var r := OneTaken(q, lag, j);
            r.Ok? && SameFrom(q, r.value.0, i) && r.value.1 == q.cps[j - CQ.Start(q)].pending
  {
  }

  lemma {:induction false} SamePendings(q: CQ.Queue, q1: CQ.Queue, i: nat, end: nat)
    requires i < end && CQ.InRange(q, i) && CQ.InRange(q, end - 1) && SameFrom(q, q1, i)
    ensures CQ.Pendings(q1.cps, i - CQ.Start(q), end - CQ.Start(q))
         == CQ.Pendings(q.cps, i - CQ.Start(q), end - CQ.Start(q))
  {
    if i < end - 1 {
      SamePendings(q, q1, i, end - 1);
    }
  }

  /** The confirmed checkpoints are handled, and those up to `last` are to be taken. */
  predicate ToTake(q: CQ.Queue, last: nat) {
    && (q.confirmed.Some? ==> q.confirmed.value < q.firstUnhandled)
    && CQ.LastCompletedIndex(q) == Ok(last) && CQ.FirstTaken(q) <= last && CQ.InRange(q, CQ.FirstTaken(q))
  }

  function Takes(q: CQ.Queue, last: nat): seq<Transfer>
    requires ToTake(q, last)
  {
    CQ.Pendings(q.cps, CQ.FirstTaken(q) - CQ.Start(q), last + 1 - CQ.Start(q))
  }

  lemma AlignedTakes(q: CQ.Queue, last: nat)
    requires ToTake(q, last)
    ensures CQ.TakePendingCompleted(q).Ok? && CQ.TakePendingCompleted(q).value.1 == Takes(q, last)
  {
    assert CQ.TakePendingConfirmed(q) == Ok((q, []));
  }

  lemma CompletedMisses(q: CQ.Queue, lag: nat, last: nat)
    requires ToTake(q, last) && last < CQ.FirstTaken(q) + lag
    ensures var r := CompletedLagging(q, lag);
            r.Ok? && SameFrom(q, r.value.0, CQ.FirstTaken(q)) && r.value.1 == Takes(q, last)
  {
    assert ConfirmedLagging(q, lag) == Ok((q, []));
    TakeMisses(q, lag, CQ.FirstTaken(q), last + 1);
  }

  lemma StillToTake(q: CQ.Queue, q1: CQ.Queue, last: nat)
    requires ToTake(q, last) && SameFrom(q, q1, CQ.FirstTaken(q))
    ensures ToTake(q1, last) && Takes(q1, last) == Takes(q, last)
  {
    assert |q.cps| >= 2;
    assert q1.cps[|q.cps| - 2] == q.cps[|q.cps| - 2];
    SamePendings(q, q1, CQ.FirstTaken(q), last + 1);
  }

  /**
    Taken again: with a lag, the transfers of completed checkpoints are returned and not
    cleared, so the next call returns all of them once more.
   */
  lemma TakenAgain(q: CQ.Queue, lag: nat, last: nat)
    requires ToTake(q, last) && last < CQ.FirstTaken(q) + lag
    ensures var r := CompletedLagging(q, lag);
            && CQ.TakePendingCompleted(q).Ok? && r.Ok? && r.value.1 == CQ.TakePendingCompleted(q).value.1
            && CompletedLagging(r.value.0, lag).Ok? && CompletedLagging(r.value.0, lag).value.1 == r.value.1
  {
    AlignedTakes(q, last);
    CompletedMisses(q, lag, last);
    CompletedAgain(q, CompletedLagging(q, lag).value.0, lag, last);
  }

  lemma CompletedAgain(q: CQ.Queue, q1: CQ.Queue, lag: nat, last: nat)
    requires ToTake(q, last) && last < CQ.FirstTaken(q) + lag && SameFrom(q, q1, CQ.FirstTaken(q))
    ensures CompletedLagging(q1, lag).Ok? && CompletedLagging(q1, lag).value.1 == Takes(q, last)
  {
    StillToTake(q, q1, last);
    CompletedMisses(q1, lag, last);
  }

  /** What a step does once it should push. */
  function Pushed(o: Oracle, cfg: CheckpointConfig, b: CQ.Block, units: nat, q: CQ.Queue, feePool: int, dep: bool,
                  candidate: Result<SignatorySet>): Result<CQ.Stepped>
  {
    var pushed :- Extended(q, candidate, dep, cfg.maxAge);
    if !pushed.1 || pushed.0.index == 0 then Ok(CQ.Stepped(pushed.0, feePool, pushed.1)) else
    var done :- HandedOn(o, cfg, b, units, pushed.0, feePool);
    Ok(CQ.Stepped(done.0, done.1, true))
  }

  function Extended(q: CQ.Queue, candidate: Result<SignatorySet>, dep: bool, maxAge: nat): Result<(CQ.Queue, bool)> {
    var pushed :- CQ.MaybePush(q, candidate, dep);
    if !pushed.1 then Ok(pushed) else
    var pruned :- CQ.Prune(maxAge, pushed.0);
    Ok((pruned, true))
  }

  function HandedOn(o: Oracle, cfg: CheckpointConfig, b: CQ.Block, units: nat, q: CQ.Queue, feePool: int)
    : Result<(CQ.Queue, int)>
  {
    CQ.Handover(CQ.OpsFor(o, cfg, b), units, q, feePool)
  }

  function Passed(o: Oracle, cfg: CheckpointConfig, b: CQ.Block, units: nat, q: CQ.Queue, feePool: int, fees: nat,
                  prevRate: nat, a: Advanced): Result<(CQ.Queue, int)>
  {
    var q1 :- CQ.Put(q, q.index - 1, a.cp);
    var due :- Checked(Times(fees, units));
    var pool :- CheckedI64(feePool - AsI64(due));
    var q2 :- Begin(o, cfg, b, q1, prevRate, a);
    Ok((q2, pool))
  }

  lemma HandoverPasses(o: Oracle, cfg: CheckpointConfig, b: CQ.Block, units: nat, q: CQ.Queue, feePool: int, fees: nat,
                       prev: Checkpoint, a: Advanced)
    requires CQ.CalcFee(o, cfg, q, q.index - 1, b.commitment) == Ok(fees)
    requires CQ.Get(q, q.index - 1) == Ok(prev) && Freeze(o, cfg, prev, b.commitment, fees) == Ok(a)
    ensures CQ.Handover(CQ.OpsFor(o, cfg, b), units, q, feePool)
         == Passed(o, cfg, b, units, q, feePool, fees, prev.feeRate, a)
  {
    var ops := CQ.OpsFor(o, cfg, b);
    SI.OpsAre(o, cfg, b, ops);
    OpsPass(ops, o, cfg, b, units, q, feePool, fees, prev, a);
  }

  lemma OpsPass(ops: CQ.StepOps, o: Oracle, cfg: CheckpointConfig, b: CQ.Block, units: nat, q: CQ.Queue, feePool: int,
                fees: nat, prev: Checkpoint, a: Advanced)
    requires ops.fee(q) == Ok(fees) && CQ.Get(q, q.index - 1) == Ok(prev) && ops.freeze(prev, fees) == Ok(a)
    requires forall q: CQ.Queue, rate: nat :: ops.nextRate(q, rate) == CQ.NextFeeRate(cfg, q, rate, b.btcHeight)
    requires forall a: Advanced, cp: Checkpoint, rate: nat :: ops.succeed(a, cp, rate) == CQ.Succeed(o, a, cp, rate)
    ensures CQ.Handover(ops, units, q, feePool) == Passed(o, cfg, b, units, q, feePool, fees, prev.feeRate, a)
  {
  }

  /** The last part of a handover. */
  function Begin(o: Oracle, cfg: CheckpointConfig, b: CQ.Block, q: CQ.Queue, prevRate: nat, a: Advanced)
    : Result<CQ.Queue>
  {
    var rate :- CQ.NextFeeRate(cfg, q, prevRate, b.btcHeight);
    var building :- CQ.Get(q, q.index);
    var next :- CQ.Succeed(o, a, building, rate);
    CQ.Put(q, q.index, next)
  }

  /** Excess inputs enter one by one, each with a fresh signing state. */
  method PushReserveAndExcess(o: Oracle, a: Advanced, building: Checkpoint, rate: nat) returns (r: Result<Checkpoint>)
    ensures r == CQ.Succeed(o, a, building, rate)
  {
    var reserve := NewInput(o, a.reserveOutpoint, a.cp.sigset, [0], a.reserveValue);
    if reserve.Err? {
      return Err(reserve.error);
    }
    var tx := Tx(building);
    var excess := RefreshLoop(a.excessInputs);
    if excess.Err? {
      return Err(excess.error);
    }
    var input := tx.input + [reserve.value] + excess.value;
    return Ok(WithTx(building.(feeRate := rate), tx.(input := input, output := tx.output + a.excessOutputs)));
  }

  method RefreshLoop(ins: seq<Input>) returns (r: Result<seq<Input>>)
    ensures r == CQ.Refresh(ins, |ins|)
  {
    var out := [];
    for i := 0 to |ins|
      invariant CQ.Refresh(ins, i) == Ok(out)
    {
      var ts := TS.FromShares(ins[i].signatures.sigs);
      if ts.Err? {
        RefreshFails(ins, i + 1, |ins|);
        return Err(ts.error);
      }
      out := out + [ins[i].(signatures := ts.value)];
    }
    return Ok(out);
  }

  lemma {:induction false} RefreshFails(ins: seq<Input>, k: nat, n: nat)
    requires k <= n <= |ins| && CQ.Refresh(ins, k).Err?
    ensures CQ.Refresh(ins, n) == CQ.Refresh(ins, k)
  {
    if k < n {
      RefreshFails(ins, k, n - 1);
    }
  }
}
