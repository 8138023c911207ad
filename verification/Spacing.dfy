/**
  Over every run, consecutive checkpoints are created at least the minimum interval apart. So
  creation times ascend, and the ages that pruning computes never underflow.
 */
module Spacing {
  import opened Common
  import opened BitcoinTypes
  import opened Transactions
  import opened Advance
  import opened CheckpointQueue
  import opened QueueInvariants
  import opened StepInvariants
  import opened StepOutcomes
  import opened Guards
  import opened Payouts
  import opened Bridge
  import opened BridgeRun
  import opened EventFrames
  import opened RunInvariants

  ghost predicate Spaced(gap: nat, q: Queue) {
    forall k :: 0 <= k < |q.cps| - 1 ==> q.cps[k].sigset.createTime + gap <= q.cps[k + 1].sigset.createTime
  }

  lemma FramesSpaced(gap: nat, q: Queue, q': Queue)
    requires Spaced(gap, q) && SameFrames(q, q')
    ensures Spaced(gap, q')
  {
    forall k | 0 <= k < |q'.cps| - 1
      ensures q'.cps[k].sigset.createTime + gap <= q'.cps[k + 1].sigset.createTime
    {
      assert q.cps[k].sigset.createTime + gap <= q.cps[k + 1].sigset.createTime;
      assert SameFrame(q.cps[k], q'.cps[k]) && SameFrame(q.cps[k + 1], q'.cps[k + 1]);
    }
  }

  // ----- a step -----

  lemma FollowsSpaced(gap: nat, q: Queue, r: Queue, k: nat, frozen: Checkpoint, next: Checkpoint)
    requires Spaced(gap, q) && Follows(q, r, k, frozen, next) && frozen.sigset == Last(q).sigset
    requires frozen.sigset.createTime + gap <= next.sigset.createTime
    ensures Spaced(gap, r)
  {
    var n := |r.cps|;
    forall i | 0 <= i < n - 1 ensures r.cps[i].sigset.createTime + gap <= r.cps[i + 1].sigset.createTime {
      if i < n - 2 {
        assert q.cps[k + i].sigset.createTime + gap <= q.cps[k + i + 1].sigset.createTime;
      }
    }
  }

  lemma NextIsNow(o: Oracle, q: Queue, b: Block, a: Advanced, sigset: SignatorySet, dep: bool, rate: nat, next: Checkpoint)
    requires NextSigset(o, q, b) == Ok(sigset) && Succeed(o, a, NewCheckpoint(sigset, dep), rate) == Ok(next)
    ensures next.sigset.createTime == b.now
  {
  }

  lemma StepSpaced(o: Oracle, cfg: Config, q: Queue, pool: int, b: Block, dep: bool, r: Stepped, out: Outcome)
    requires Ordered(q) && Spaced(cfg.checkpoint.minInterval, q) && Describes(o, cfg, q, pool, b, dep, r, out)
    ensures Spaced(cfg.checkpoint.minInterval, r.queue)
  {
    match out {
      case Idle =>
      case First(sigset) =>
      case Pushed(p) =>
        PushIsDue(o, cfg.checkpoint, q, b);
        NextIsNow(o, q, b, p.advanced, p.sigset, dep, p.rate, p.next);
        FollowsSpaced(cfg.checkpoint.minInterval, q, r.queue, p.popped, p.advanced.cp, p.next);
    }
  }

  // ----- events -----

  lemma EndBlockSpaced(o: Oracle, cfg: Config, s: State, b: Block, env: PayoutEnv)
    requires GoodConfig(cfg) && QueueInv(o, cfg.checkpoint, s.queue) && Spaced(cfg.checkpoint.minInterval, s.queue)
    requires ClockEndBlock(o, cfg, s, b, env).Ok?
    ensures Spaced(cfg.checkpoint.minInterval, ClockEndBlock(o, cfg, s, b, env).value.0.queue)
  {
    var t, out := EndBlockOutcome(o, cfg, s, b, env);
    ClearedFrames(s.queue, t.taken);
    FramesSpaced(cfg.checkpoint.minInterval, s.queue, t.taken);
    StepSpaced(o, cfg, t.taken, s.feePool, b, t.dep, t.stepped, out);
  }

  lemma EventSpaced(o: Oracle, cfg: Config, s: State, e: Event)
    requires GoodConfig(cfg) && StateInv(o, cfg, s) && Spaced(cfg.checkpoint.minInterval, s.queue)
    requires Execute(o, cfg, s, e).Ok?
    ensures Spaced(cfg.checkpoint.minInterval, Execute(o, cfg, s, e).value.0.queue)
  {
    if e.EndBlockEvent? {
      EndBlockSpaced(o, cfg, s, e.block, e.env);
    } else {
      QuietEvent(o, cfg, s, e);
      FramesSpaced(cfg.checkpoint.minInterval, s.queue, Execute(o, cfg, s, e).value.0.queue);
    }
  }

  /** Over every run, consecutive checkpoints are created at least the minimum interval apart. */
  lemma {:induction false} RunSpaced(o: Oracle, cfg: Config, es: seq<Event>)
    requires GoodConfig(cfg) && HonestRun(o, cfg, START, es)
    ensures Spaced(cfg.checkpoint.minInterval, Run(o, cfg, START, es).st.queue)
    decreases |es|
  {
    if es != [] {
      var before := es[..|es| - 1];
      RunSpaced(o, cfg, before);
      RunKeepsInv(o, cfg, before);
      if Execute(o, cfg, Run(o, cfg, START, before).st, es[|es| - 1]).Ok? {
        EventSpaced(o, cfg, Run(o, cfg, START, before).st, es[|es| - 1]);
      }
    }
  }

  // ----- pruning never underflows -----

  lemma {:induction false} TimesAscend(gap: nat, q: Queue, i: nat, j: nat)
    requires Spaced(gap, q) && i <= j < |q.cps|
    ensures q.cps[i].sigset.createTime <= q.cps[j].sigset.createTime
  {
    if i < j {
      TimesAscend(gap, q, i, j - 1);
      assert q.cps[j - 1].sigset.createTime + gap <= q.cps[j - 1 + 1].sigset.createTime;
    }
  }

  lemma {:induction false} PruneCountOk(cps: seq<Checkpoint>, k: nat, latest: nat, maxAge: nat)
    requires k <= |cps| && forall i :: k <= i < |cps| ==> cps[i].sigset.createTime <= latest
    ensures PruneCount(cps, k, latest, maxAge).Ok?
    decreases |cps| - k
  {
    if k < |cps| {
      PruneCountOk(cps, k + 1, latest, maxAge);
    }
  }

  /** On every reachable queue and for every due push, the prune after it cannot fail. */
  lemma PruneSucceeds(o: Oracle, cfg: Config, es: seq<Event>, b: Block, dep: bool, sigset: SignatorySet)
    requires GoodConfig(cfg) && HonestRun(o, cfg, START, es)
    requires var q := Run(o, cfg, START, es).st.queue;
             q.cps != [] && ShouldPush(o, cfg.checkpoint, q, b) == Ok(true) && NextSigset(o, q, b) == Ok(sigset)
    ensures Prune(cfg.checkpoint.maxAge, PushedQueue(Run(o, cfg, START, es).st.queue, NewCheckpoint(sigset, dep))).Ok?
  {
    RunSpaced(o, cfg, es);
    RunKeepsInv(o, cfg, es);
    PruneAfterPush(o, cfg.checkpoint, Run(o, cfg, START, es).st.queue, b, dep, sigset);
  }

  lemma PruneAfterPush(o: Oracle, cfg: CheckpointConfig, q: Queue, b: Block, dep: bool, sigset: SignatorySet)
    requires Ordered(q) && Spaced(cfg.minInterval, q) && q.cps != []
    requires ShouldPush(o, cfg, q, b) == Ok(true) && NextSigset(o, q, b) == Ok(sigset)
    ensures Prune(cfg.maxAge, PushedQueue(q, NewCheckpoint(sigset, dep))).Ok?
  {
    PushIsDue(o, cfg, q, b);
    assert sigset.createTime == b.now;
    PruneSorted(cfg.maxAge, cfg.minInterval, q, NewCheckpoint(sigset, dep));
  }

  lemma PruneSorted(maxAge: nat, gap: nat, q: Queue, next: Checkpoint)
    requires 1 <= |q.cps| <= q.index + 1 && Spaced(gap, q)
    requires Last(q).sigset.createTime <= next.sigset.createTime
    ensures Prune(maxAge, PushedQueue(q, next)).Ok?
  {
    var cps, n := q.cps + [next], |q.cps|;
    forall i | 0 <= i < n + 1 ensures cps[i].sigset.createTime <= next.sigset.createTime {
      if i < n {
        TimesAscend(gap, q, i, n - 1);
      }
    }
    PruneCountOk(cps, 0, next.sigset.createTime, maxAge);
    assert Get(PushedQueue(q, next), q.index + 1) == Ok(next);
  }
}
