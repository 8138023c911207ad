/**
  The timestamps of a run. Every checkpoint that was frozen starts with the reserve output to its
  own set, followed by an output that carries the commitment of the block it was frozen in.
 */
module Timestamps {
  import opened Common
  import opened BitcoinTypes
  import opened Transactions
  import opened Advance
  import opened CheckpointQueue
  import opened QueueInvariants
  import opened StepInvariants
  import opened StepOutcomes
  import opened Payouts
  import opened Bridge
  import opened BridgeRun
  import opened EventFrames
  import opened RunInvariants
  import opened FeeLaws
  import Eras

  /** The first two outputs: the reserve, to the set of the checkpoint, and the timestamp. */
  predicate Opens(o: Oracle, cp: Checkpoint, data: Bytes) {
    && |Tx(cp).output| >= 2 && Tx(cp).output[0].script == o.p2wsh(o.redeemScript(cp.sigset, [0]))
    && Tx(cp).output[1] == TxOut(0, o.opReturn(data))
  }

  /** A checkpoint was frozen in the block its successor was pushed in. */
  predicate Stamped(o: Oracle, founders: seq<Block>, q: Queue) {
    && |founders| == (if q.cps == [] then 0 else q.index + 1) && |q.cps| <= q.index + 1
    && forall k :: 0 <= k < |q.cps| - 1 ==> Opens(o, q.cps[k], founders[q.index + 2 - |q.cps| + k].commitment)
  }

  lemma SameStamped(o: Oracle, founders: seq<Block>, q: Queue, q': Queue)
    requires Stamped(o, founders, q) && q'.index == q.index && SameFrames(q, q') && SameOutputs(q, q')
    ensures Stamped(o, founders, q')
  {
    forall k | 0 <= k < |q'.cps| - 1
      ensures Opens(o, q'.cps[k], founders[q'.index + 2 - |q'.cps| + k].commitment)
    {
      assert SameFrame(q.cps[k], q'.cps[k]);
      assert Opens(o, q.cps[k], founders[q.index + 2 - |q.cps| + k].commitment);
    }
  }

  lemma FrozenOpens(o: Oracle, cfg: CheckpointConfig, q: Queue, b: Block, dep: bool, p: StepParts)
    requires ValidConfig(cfg) && Shape(q) && q.cps != [] && Computed(o, cfg, q, b, dep, p)
    ensures Opens(o, p.advanced.cp, b.commitment)
  {
    assert CpValid(Last(q));
    FrozenTx(o, cfg, Last(q), b.commitment, p.fees, p.advanced);
  }

  lemma PushedStamped(o: Oracle, founders: seq<Block>, q: Queue, r: Queue, k: nat, frozen: Checkpoint, next: Checkpoint,
                      b: Block)
    requires Stamped(o, founders, q) && Follows(q, r, k, frozen, next) && Opens(o, frozen, b.commitment)
    ensures Stamped(o, founders + [b], r)
  {
    var n := |r.cps|;
    forall j | 0 <= j < n - 1 ensures Opens(o, r.cps[j], (founders + [b])[r.index + 2 - n + j].commitment) {
      if j < n - 2 {
        assert Opens(o, q.cps[k + j], founders[q.index + 2 - |q.cps| + (k + j)].commitment);
      }
    }
  }

  lemma StepStamped(o: Oracle, cfg: Config, founders: seq<Block>, q: Queue, pool: int, b: Block, dep: bool, r: Stepped,
                    out: Outcome)
    requires GoodConfig(cfg) && Shape(q) && Stamped(o, founders, q) && Describes(o, cfg, q, pool, b, dep, r, out)
    ensures Stamped(o, founders + Founders(q, r.queue, b), r.queue)
  {
    match out {
      case Idle =>
        assert founders + [] == founders;
      case First(sigset) =>
      case Pushed(p) =>
        FrozenOpens(o, cfg.checkpoint, q, b, dep, p);
        PushedStamped(o, founders, q, r.queue, p.popped, p.advanced.cp, p.next, b);
    }
  }

  lemma EndBlockStamped(o: Oracle, cfg: Config, founders: seq<Block>, s: State, b: Block, env: PayoutEnv, q': Queue)
    requires GoodConfig(cfg) && QueueInv(o, cfg.checkpoint, s.queue) && Stamped(o, founders, s.queue)
    requires ClockEndBlock(o, cfg, s, b, env).Ok? && q' == ClockEndBlock(o, cfg, s, b, env).value.0.queue
    ensures Stamped(o, founders + Founders(s.queue, q', b), q')
  {
    var t, out := EndBlockOutcome(o, cfg, s, b, env);
    ClearedFrames(s.queue, t.taken);
    SameStamped(o, founders, s.queue, t.taken);
    StepStamped(o, cfg, founders, t.taken, s.feePool, b, t.dep, t.stepped, out);
    Eras.NewSetsFrom(s.queue, t.taken, q', b);
  }

  lemma EventStamped(o: Oracle, cfg: Config, s: State, e: Event, hist: History, s': State, msgs: seq<Msg>)
    requires GoodConfig(cfg) && StateInv(o, cfg, s) && Stamped(o, hist.founders, s.queue)
    requires Execute(o, cfg, s, e) == Ok((s', msgs))
    ensures Stamped(o, Record(o, cfg, s, e, s', msgs, hist).founders, s'.queue)
  {
    Eras.RecordEra(o, cfg, s, e, s', msgs, hist);
    if e.EndBlockEvent? {
      EndBlockStamped(o, cfg, hist.founders, s, e.block, e.env, s'.queue);
    } else {
      QuietEvent(o, cfg, s, e);
      SameStamped(o, hist.founders, s.queue, s'.queue);
    }
  }

  /** Over every run. */
  lemma {:induction false} RunStamped(o: Oracle, cfg: Config, es: seq<Event>)
    requires GoodConfig(cfg) && HonestRun(o, cfg, START, es)
    ensures Stamped(o, Run(o, cfg, START, es).hist.founders, Run(o, cfg, START, es).st.queue)
    decreases |es|
  {
    if es != [] {
      var before := es[..|es| - 1];
      RunStamped(o, cfg, before);
      RunKeepsInv(o, cfg, before);
      var w := Run(o, cfg, START, before);
      var done := Execute(o, cfg, w.st, es[|es| - 1]);
      if done.Ok? {
        EventStamped(o, cfg, w.st, es[|es| - 1], w.hist, done.value.0, done.value.1);
      }
    }
  }
}
