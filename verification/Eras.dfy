/**
  The signatory sets of a run. Every checkpoint keeps the set it was pushed with, and that set is
  what the validators of the block it was pushed in make it, with at least half of the possible
  power present.
 */
module Eras {
  import opened Common
  import opened BitcoinTypes
  import opened Transactions
  import opened SignatorySets
  import opened Advance
  import opened CheckpointQueue
  import opened QueueInvariants
  import opened StepInvariants
  import opened StepOutcomes
  import opened Payouts
  import opened Bridge
  import opened BridgeRun
  import opened EventFrames
  import opened RunInvariants
  import opened Guards
  import opened Members

  /** Set number `i`, from the validators and the time of block `b`: its members are chosen from
      them, its totals are exact, some power is possible and at least half of it is present. */
  ghost predicate Founded(o: Oracle, b: Block, i: nat, s: SignatorySet) {
    && s.index == i && s.createTime == b.now && s.signatories != []
    && (exists rest :: Chosen(o, b.ctx, i, s.signatories, rest))
    && s.presentVp == Sum(s.signatories, SignatoryPower) && s.possibleVp == Sum(b.ctx.validators, ValidatorPower)
    && s.possibleVp > 0 && 2 * s.presentVp + 1 >= s.possibleVp
  }

  /** There is one set for every checkpoint ever pushed, and the queued ones still have theirs. */
  predicate Held(sets: seq<SignatorySet>, q: Queue) {
    && |sets| == (if q.cps == [] then 0 else q.index + 1) && |q.cps| <= q.index + 1
    && forall k :: 0 <= k < |q.cps| ==> q.cps[k].sigset == sets[q.index + 1 - |q.cps| + k]
  }

  ghost predicate AllFounded(o: Oracle, founders: seq<Block>, sets: seq<SignatorySet>) {
    |founders| == |sets| && forall i :: 0 <= i < |sets| ==> Founded(o, founders[i], i, sets[i])
  }

  ghost predicate Era(o: Oracle, hist: History, q: Queue) {
    Held(hist.sets, q) && AllFounded(o, hist.founders, hist.sets)
  }

  lemma FoundedMore(o: Oracle, founders: seq<Block>, sets: seq<SignatorySet>, b: Block, s: SignatorySet)
    requires AllFounded(o, founders, sets) && Founded(o, b, |sets|, s)
    ensures AllFounded(o, founders + [b], sets + [s])
  {
  }

  lemma NewFounded(o: Oracle, q: Queue, b: Block, sigset: SignatorySet)
    requires NextSigset(o, q, b) == Ok(sigset) && Usable(sigset) && sigset.signatories != []
    ensures Founded(o, b, NextIndex(q), sigset)
  {
    var rest := SetChosen(o, b.ctx, b.now, NextIndex(q));
    assert Chosen(o, b.ctx, NextIndex(q), sigset.signatories, rest);
  }

  lemma SameEra(o: Oracle, hist: History, q: Queue, q': Queue)
    requires Era(o, hist, q) && q'.index == q.index && SameFrames(q, q')
    ensures Era(o, hist, q')
  {
    forall k | 0 <= k < |q'.cps| ensures q'.cps[k].sigset == hist.sets[q'.index + 1 - |q'.cps| + k] {
      assert SameFrame(q.cps[k], q'.cps[k]);
    }
  }

  function Extended(hist: History, sets: seq<SignatorySet>, founders: seq<Block>): History {
    hist.(sets := hist.sets + sets, founders := hist.founders + founders)
  }

  lemma FirstEra(o: Oracle, hist: History, q: Queue, r: Queue, cp: Checkpoint, b: Block)
    requires Era(o, hist, q) && q.cps == [] && q.index == 0 && r == q.(cps := [cp]) && Founded(o, b, 0, cp.sigset)
    ensures Era(o, Extended(hist, [cp.sigset], [b]), r)
  {
    FoundedMore(o, hist.founders, hist.sets, b, cp.sigset);
  }

  lemma PushedHeld(sets: seq<SignatorySet>, q: Queue, r: Queue, k: nat, frozen: Checkpoint, next: Checkpoint)
    requires Held(sets, q) && Follows(q, r, k, frozen, next) && frozen.sigset == Last(q).sigset
    ensures Held(sets + [next.sigset], r)
  {
    forall j | 0 <= j < |r.cps| ensures r.cps[j].sigset == (sets + [next.sigset])[r.index + 1 - |r.cps| + j] {
      if j < |r.cps| - 2 {
        assert r.cps[j] == q.cps[k + j];
      }
    }
  }

  lemma PushedEra(o: Oracle, hist: History, q: Queue, r: Queue, k: nat, frozen: Checkpoint, next: Checkpoint, b: Block)
    requires Era(o, hist, q) && Follows(q, r, k, frozen, next) && frozen.sigset == Last(q).sigset
    requires Founded(o, b, q.index + 1, next.sigset)
    ensures Era(o, Extended(hist, [next.sigset], [b]), r)
  {
    PushedHeld(hist.sets, q, r, k, frozen, next);
    FoundedMore(o, hist.founders, hist.sets, b, next.sigset);
  }

  lemma NextSet(o: Oracle, a: Advanced, sigset: SignatorySet, dep: bool, rate: nat, next: Checkpoint)
    requires Succeed(o, a, NewCheckpoint(sigset, dep), rate) == Ok(next)
    ensures next.sigset == sigset
  {
    var reserve, excess := SucceedParts(o, a, sigset, dep, rate, next);
  }

  lemma FrozenSet(o: Oracle, cfg: CheckpointConfig, cp: Checkpoint, commitment: Bytes, fees: nat, a: Advanced)
    requires Freeze(o, cfg, cp, commitment, fees) == Ok(a)
    ensures a.cp.sigset == cp.sigset
  {
  }

  lemma AcceptMeans(r: Stepped)
    requires r.pushed && 1 <= |r.queue.cps| <= r.queue.index + 1 && Accept(r).Ok?
    ensures Last(r.queue).sigset.signatories != []
  {
    assert Get(r.queue, r.queue.index) == Ok(Last(r.queue));
  }

  lemma FollowsEnds(q: Queue, r: Queue, k: nat, frozen: Checkpoint, next: Checkpoint)
    requires Follows(q, r, k, frozen, next) && |q.cps| <= q.index + 1
    ensures 1 <= |r.cps| <= r.index + 1 && Last(r) == next
  {
  }

  lemma PushedFounded(o: Oracle, cfg: CheckpointConfig, q: Queue, b: Block, dep: bool, r: Stepped, p: StepParts)
    requires |q.cps| <= q.index + 1 && q.cps != [] && Accept(r).Ok? && r.pushed && Computed(o, cfg, q, b, dep, p)
    requires Follows(q, r.queue, p.popped, p.advanced.cp, p.next)
    ensures Founded(o, b, q.index + 1, p.next.sigset) && p.advanced.cp.sigset == Last(q).sigset
  {
    FollowsEnds(q, r.queue, p.popped, p.advanced.cp, p.next);
    AcceptMeans(r);
    NextSet(o, p.advanced, p.sigset, dep, p.rate, p.next);
    FrozenSet(o, cfg, Last(q), b.commitment, p.fees, p.advanced);
    PushUsable(o, cfg, q, b, p.sigset);
    NewFounded(o, q, b, p.sigset);
  }

  lemma FirstFounded(o: Oracle, cfg: CheckpointConfig, q: Queue, b: Block, r: Stepped, cp: Checkpoint)
    requires q.cps == [] && q.index == 0 && r == Stepped(q.(cps := [cp]), r.feePool, true) && Accept(r).Ok?
    requires NextSigset(o, q, b) == Ok(cp.sigset) && ShouldPush(o, cfg, q, b) == Ok(true)
    ensures Founded(o, b, 0, cp.sigset)
  {
    AcceptMeans(r);
    PushUsable(o, cfg, q, b, cp.sigset);
    NewFounded(o, q, b, cp.sigset);
  }

  lemma PushedSets(q: Queue, r: Queue, k: nat, frozen: Checkpoint, next: Checkpoint, b: Block)
    requires Follows(q, r, k, frozen, next)
    ensures NewSets(q, r) == [next.sigset] && Founders(q, r, b) == [b]
  {
  }

  lemma FirstSets(q: Queue, r: Queue, cp: Checkpoint, b: Block)
    requires q.cps == [] && r == q.(cps := [cp])
    ensures NewSets(q, r) == [cp.sigset] && Founders(q, r, b) == [b]
  {
  }

  lemma IdleSets(hist: History, q: Queue, b: Block)
    ensures Extended(hist, NewSets(q, q), Founders(q, q, b)) == hist
  {
    assert NewSets(q, q) == [] && Founders(q, q, b) == [];
    assert hist.sets + [] == hist.sets && hist.founders + [] == hist.founders;
  }

  /** What a step does to the sets of the queue. */
  lemma StepEra(o: Oracle, cfg: Config, hist: History, q: Queue, pool: int, b: Block, dep: bool, r: Stepped, out: Outcome)
    requires Ordered(q) && Era(o, hist, q) && Describes(o, cfg, q, pool, b, dep, r, out) && Accept(r).Ok?
    ensures Era(o, Extended(hist, NewSets(q, r.queue), Founders(q, r.queue, b)), r.queue)
  {
    match out {
      case Idle =>
        IdleSets(hist, q, b);
      case First(sigset) =>
        FirstFounded(o, cfg.checkpoint, q, b, r, NewCheckpoint(sigset, dep));
        FirstEra(o, hist, q, r.queue, NewCheckpoint(sigset, dep), b);
        FirstSets(q, r.queue, NewCheckpoint(sigset, dep), b);
      case Pushed(p) =>
        PushedFounded(o, cfg.checkpoint, q, b, dep, r, p);
        PushedEra(o, hist, q, r.queue, p.popped, p.advanced.cp, p.next, b);
        PushedSets(q, r.queue, p.popped, p.advanced.cp, p.next, b);
    }
  }

  // ----- events -----

  lemma NewSetsFrom(q: Queue, taken: Queue, r: Queue, b: Block)
    requires AllCleared(q, taken)
    ensures NewSets(q, r) == NewSets(taken, r) && Founders(q, r, b) == Founders(taken, r, b)
  {
  }

  lemma EndBlockEra(o: Oracle, cfg: Config, hist: History, s: State, b: Block, env: PayoutEnv, s': State)
    requires GoodConfig(cfg) && QueueInv(o, cfg.checkpoint, s.queue) && Era(o, hist, s.queue)
    requires ClockEndBlock(o, cfg, s, b, env).Ok? && s' == ClockEndBlock(o, cfg, s, b, env).value.0
    ensures Era(o, Extended(hist, NewSets(s.queue, s'.queue), Founders(s.queue, s'.queue, b)), s'.queue)
  {
    var t, out := EndBlockOutcome(o, cfg, s, b, env);
    ClearedFrames(s.queue, t.taken);
    SameEra(o, hist, s.queue, t.taken);
    StepEra(o, cfg, hist, t.taken, s.feePool, b, t.dep, t.stepped, out);
    NewSetsFrom(s.queue, t.taken, s'.queue, b);
  }

  lemma EraOf(o: Oracle, a: History, b: History, q: Queue)
    requires Era(o, a, q) && b.sets == a.sets && b.founders == a.founders
    ensures Era(o, b, q)
  {
  }

  lemma RecordEra(o: Oracle, cfg: Config, s: State, e: Event, s': State, msgs: seq<Msg>, hist: History)
    ensures var h := Record(o, cfg, s, e, s', msgs, hist);
            if e.EndBlockEvent? then
              && h.sets == Extended(hist, NewSets(s.queue, s'.queue), Founders(s.queue, s'.queue, e.block)).sets
              && h.founders == Extended(hist, NewSets(s.queue, s'.queue), Founders(s.queue, s'.queue, e.block)).founders
            else h.sets == hist.sets && h.founders == hist.founders
  {
  }

  lemma EventEra(o: Oracle, cfg: Config, s: State, e: Event, hist: History, s': State, msgs: seq<Msg>)
    requires GoodConfig(cfg) && StateInv(o, cfg, s) && Era(o, hist, s.queue) && Execute(o, cfg, s, e) == Ok((s', msgs))
    ensures Era(o, Record(o, cfg, s, e, s', msgs, hist), s'.queue)
  {
    var h := Record(o, cfg, s, e, s', msgs, hist);
    RecordEra(o, cfg, s, e, s', msgs, hist);
    if e.EndBlockEvent? {
      EndBlockEra(o, cfg, hist, s, e.block, e.env, s');
      EraOf(o, Extended(hist, NewSets(s.queue, s'.queue), Founders(s.queue, s'.queue, e.block)), h, s'.queue);
    } else {
      QuietEvent(o, cfg, s, e);
      SameEra(o, hist, s.queue, s'.queue);
      EraOf(o, hist, h, s'.queue);
    }
  }

  /**
    Over every run each checkpoint ever pushed had a set founded by the validators of its block,
    and every queued checkpoint still has exactly that set.
   */
  lemma {:induction false} RunEra(o: Oracle, cfg: Config, es: seq<Event>)
    requires GoodConfig(cfg) && HonestRun(o, cfg, START, es)
    ensures Era(o, Run(o, cfg, START, es).hist, Run(o, cfg, START, es).st.queue)
    decreases |es|
  {
    if es != [] {
      var before := es[..|es| - 1];
      RunEra(o, cfg, before);
      RunKeepsInv(o, cfg, before);
      var w := Run(o, cfg, START, before);
      var done := Execute(o, cfg, w.st, es[|es| - 1]);
      if done.Ok? {
        EventEra(o, cfg, w.st, es[|es| - 1], w.hist, done.value.0, done.value.1);
      }
    }
  }
}
