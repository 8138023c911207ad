/**
  No double spend. As long as no accepted deposit is to a destination that commits to [0], no
  outpoint is spent by two inputs of the bridge: neither two deposits, nor a deposit and a
  reserve input, nor two reserve inputs, pruned checkpoints included.
  `ReserveRelay.ReserveCredited` is the failing case of the condition.
 */
module SpentOnce {
  import opened Common
  import opened BitcoinTypes
  import opened Transactions
  import opened Advance
  import opened CheckpointQueue
  import opened QueueInvariants
  import opened StepInvariants
  import opened StepOutcomes
  import opened Payouts
  import opened Bridge
  import opened BridgeInvariants
  import opened BridgeRun
  import opened DepositOutcomes
  import opened EventFrames
  import opened RunInvariants
  import opened CreditOnce
  import opened Spendable
  import opened ReserveRelay

  // ----- what Bitcoin adds -----

  /** The script every outpoint is locked by, the destination a script commits to, and how deep a
      transaction is. */
  datatype Ledger = Ledger(locks: OutPoint -> Bytes, opens: Bytes -> Bytes, depth: Hash -> nat)

  /** The id stands for these outputs, and the transaction spends earlier ones only. */
  ghost predicate Committed(l: Ledger, id: Hash, body: TxBody) {
    && (forall i :: 0 <= i < |body.outputs| ==> l.locks(OutPoint(id, i)) == body.outputs[i].script)
    && (forall i :: 0 <= i < |body.prevouts| ==> l.depth(body.prevouts[i].txid) < l.depth(id))
  }

  /** The script of this set and destination tells the destination. */
  predicate Opens(o: Oracle, l: Ledger, sigset: SignatorySet, dest: Bytes) {
    l.opens(o.p2wsh(o.redeemScript(sigset, dest))) == dest
  }

  /** The frozen transactions of a queue are what their ids stand for. */
  ghost predicate Known(o: Oracle, l: Ledger, q: Queue) {
    forall k :: 0 <= k < |q.cps| && !q.cps[k].status.Building? ==>
      Committed(l, Txid(o, Tx(q.cps[k])), Body(Tx(q.cps[k]))) && Opens(o, l, q.cps[k].sigset, [0])
  }

  /** A proven deposit shows the script its outpoint is locked by, for a destination that does
      not commit to [0]. */
  predicate Regular(o: Oracle, l: Ledger, s: State, e: Event) {
    e.RelayDepositEvent? && e.deposit.proven && Get(s.queue, e.deposit.sigsetIndex).Ok? ==>
      && l.locks(e.deposit.outpoint) == e.deposit.output.script
      && Opens(o, l, Get(s.queue, e.deposit.sigsetIndex).value.sigset, o.commitment(e.deposit.dest))
      && o.commitment(e.deposit.dest) != [0]
  }

  /** All of this, for the deposits and the frozen transactions that occur in a run. */
  ghost predicate RegularRun(o: Oracle, l: Ledger, cfg: Config, es: seq<Event>)
    requires cfg.unitsPerSat > 0
    decreases |es|
  {
    es == [] ||
    (var before, e := es[..|es| - 1], es[|es| - 1];
     && RegularRun(o, l, cfg, before) && Regular(o, l, Run(o, cfg, START, before).st, e)
     && Known(o, l, Run(o, cfg, START, es).st.queue))
  }

  // ----- the reserve outpoints spent so far -----

  function Reserves(q: Queue): seq<OutPoint> {
    Flatten(q.cps, |q.cps|, ReserveSpent)
  }

  function AllReserves(w: World): seq<OutPoint> {
    w.hist.reserves + Reserves(w.st.queue)
  }

  /** Ever deeper, all locked by reserve scripts. */
  ghost predicate Deepening(l: Ledger, ps: seq<OutPoint>) {
    && (forall i :: 0 <= i < |ps| ==> l.opens(l.locks(ps[i])) == [0])
    && (forall i, j :: 0 <= i < j < |ps| ==> l.depth(ps[i].txid) < l.depth(ps[j].txid))
  }

  /** The last one is what the building checkpoint spends. */
  predicate EndsIn(ps: seq<OutPoint>, q: Queue) {
    if q.index == 0 then ps == []
    else q.cps != [] && ps != [] && ReserveSpent(Last(q)) == [ps[|ps| - 1]]
  }

  ghost predicate NoneReserved(l: Ledger, outpoints: set<OutPoint>) {
    forall p :: p in outpoints ==> l.opens(l.locks(p)) != [0]
  }

  ghost predicate Separate(l: Ledger, w: World) {
    Deepening(l, AllReserves(w)) && EndsIn(AllReserves(w), w.st.queue) && NoneReserved(l, w.st.outpoints)
  }

  lemma SameReserves(q: Queue, q': Queue)
    requires SameFrames(q, q')
    ensures Reserves(q') == Reserves(q)
  {
    forall k | 0 <= k < |q.cps| ensures ReserveSpent(q'.cps[k]) == ReserveSpent(q.cps[k]) {
      assert SameFrame(q.cps[k], q'.cps[k]);
    }
    FlattenAgrees(q'.cps, q.cps, |q.cps|, ReserveSpent);
  }

  lemma SameEnds(ps: seq<OutPoint>, q: Queue, q': Queue)
    requires EndsIn(ps, q) && SameFrames(q, q') && q'.index == q.index
    ensures EndsIn(ps, q')
  {
    if q.index != 0 {
      assert SameFrame(q.cps[|q.cps| - 1], q'.cps[|q.cps| - 1]);
    }
  }

  /** A deeper one may follow. */
  lemma Deepened(l: Ledger, ps: seq<OutPoint>, p: OutPoint)
    requires Deepening(l, ps) && l.opens(l.locks(p)) == [0]
    requires ps != [] ==> l.depth(ps[|ps| - 1].txid) < l.depth(p.txid)
    ensures Deepening(l, ps + [p])
  {
  }

  // ----- a step -----

  /** The transaction just frozen is deeper than the reserve it spends. */
  lemma FrozenReserve(o: Oracle, l: Ledger, frozen: Checkpoint, spent: seq<OutPoint>)
    requires Committed(l, Txid(o, Tx(frozen)), Body(Tx(frozen))) && Opens(o, l, frozen.sigset, [0])
    requires PaysItself(o, frozen) && spent == ReserveSpent(frozen)
    ensures l.opens(l.locks(OutPoint(Txid(o, Tx(frozen)), 0))) == [0]
    ensures spent != [] ==> l.depth(spent[0].txid) < l.depth(Txid(o, Tx(frozen)))
  {
    var body := Body(Tx(frozen));
    assert l.locks(OutPoint(Txid(o, Tx(frozen)), 0)) == body.outputs[0].script;
    if spent != [] {
      assert body.prevouts[0] == spent[0];
    }
  }

  /** Freezing keeps the reserve input. */
  lemma FrozenSpends(o: Oracle, cfg: CheckpointConfig, cp: Checkpoint, commitment: Bytes, fees: nat, a: Advanced)
    requires ValidConfig(cfg) && CpValid(cp) && cp.status.Building? && Freeze(o, cfg, cp, commitment, fees) == Ok(a)
    ensures ReserveSpent(a.cp) == ReserveSpent(cp) && a.cp.sigset == cp.sigset
  {
    BuildingUntouched(cp);
    FrozenUntouched(o, cfg, cp, commitment, fees);
    FreezeInputs(o, cfg, cp, commitment, fees);
  }

  /** A push adds the reserve of the frozen checkpoint to those spent, pruned ones included. */
  lemma FollowsReserves(q: Queue, r: Queue, k: nat, frozen: Checkpoint, next: Checkpoint, p: OutPoint)
    requires q.cps != [] && Follows(q, r, k, frozen, next)
    requires ReserveSpent(frozen) == ReserveSpent(Last(q)) && ReserveSpent(next) == [p]
    ensures Flatten(q.cps, k, ReserveSpent) + Reserves(r) == Reserves(q) + [p]
  {
    var n, m, f := |q.cps|, |r.cps|, ReserveSpent;
    FlattenShift(q.cps, r.cps, k, m - 2, f);
    assert Flatten(r.cps, m, f) == Flatten(r.cps, m - 1, f) + [p];
    assert Flatten(r.cps, m - 1, f) == Flatten(r.cps, m - 2, f) + f(frozen);
    assert Flatten(q.cps, n, f) == Flatten(q.cps, n - 1, f) + f(Last(q));
    ConcatAssociates(Flatten(q.cps, k, f), Flatten(r.cps, m - 2, f), f(frozen));
    ConcatAssociates(Flatten(q.cps, k, f), Flatten(r.cps, m - 1, f), [p]);
  }

  /** What a step adds to the reserve outpoints spent. */
  lemma StepReserves(o: Oracle, cfg: Config, q: Queue, pool: int, b: Block, dep: bool, r: Stepped, out: Outcome)
    returns (more: seq<OutPoint>)
    requires GoodConfig(cfg) && Shape(q) && Describes(o, cfg, q, pool, b, dep, r, out)
    ensures Flatten(q.cps, PoppedCount(q, r.queue), ReserveSpent) + Reserves(r.queue) == Reserves(q) + more
    ensures out.Pushed? <==> more != []
    ensures out.Pushed? ==>
              && more == [OutPoint(Txid(o, Tx(out.parts.advanced.cp)), 0)] && ReserveSpent(Last(r.queue)) == more
              && PaysItself(o, out.parts.advanced.cp)
              && ReserveSpent(out.parts.advanced.cp) == ReserveSpent(Last(q))
  {
    more := [];
    match out {
      case Idle =>
      case First(sigset) =>
        assert ReserveSpent(NewCheckpoint(sigset, dep)) == [];
        assert Flatten(r.queue.cps, 0, ReserveSpent) == [];
      case Pushed(p) =>
        PushSpends(o, cfg.checkpoint, q, b, dep, p);
        more := [OutPoint(Txid(o, Tx(p.advanced.cp)), 0)];
        FollowsReserves(q, r.queue, p.popped, p.advanced.cp, p.next, more[0]);
        assert PoppedCount(q, r.queue) == p.popped;
    }
  }

  lemma PushSpends(o: Oracle, cfg: CheckpointConfig, q: Queue, b: Block, dep: bool, p: StepParts)
    requires ValidConfig(cfg) && Shape(q) && Computed(o, cfg, q, b, dep, p) && Fits(o, q, p.advanced, p.next, p.fees)
    ensures PaysItself(o, p.advanced.cp) && ReserveSpent(p.advanced.cp) == ReserveSpent(Last(q))
    ensures ReserveSpent(p.next) == [OutPoint(Txid(o, Tx(p.advanced.cp)), 0)]
  {
    LastBuilding(q);
    FrozenSpends(o, cfg, Last(q), b.commitment, p.fees, p.advanced);
    FrozenPays(o, cfg, Last(q), b.commitment, p.fees, p.advanced);
  }

  lemma StepSeparate(o: Oracle, l: Ledger, cfg: Config, earlier: seq<OutPoint>, q: Queue, pool: int, b: Block, dep: bool,
                     r: Stepped, out: Outcome)
    requires GoodConfig(cfg) && Shape(q) && Describes(o, cfg, q, pool, b, dep, r, out) && Known(o, l, r.queue)
    requires Deepening(l, earlier + Reserves(q)) && EndsIn(earlier + Reserves(q), q)
    ensures var now := earlier + Flatten(q.cps, PoppedCount(q, r.queue), ReserveSpent) + Reserves(r.queue);
            Deepening(l, now) && EndsIn(now, r.queue)
  {
    var more := StepReserves(o, cfg, q, pool, b, dep, r, out);
    ConcatAssociates(earlier, Flatten(q.cps, PoppedCount(q, r.queue), ReserveSpent), Reserves(r.queue));
    ConcatAssociates(earlier, Reserves(q), more);
    if out.Pushed? {
      PushSeparate(o, l, earlier + Reserves(q), q, r.queue, out.parts);
    } else {
      assert earlier + Reserves(q) + more == earlier + Reserves(q);
    }
  }

  lemma PushSeparate(o: Oracle, l: Ledger, ps: seq<OutPoint>, q: Queue, r: Queue, p: StepParts)
    requires Deepening(l, ps) && EndsIn(ps, q) && Known(o, l, r) && Ordered(q) && q.cps != []
    requires Follows(q, r, p.popped, p.advanced.cp, p.next) && p.advanced.cp.status.Signing?
    requires PaysItself(o, p.advanced.cp) && ReserveSpent(p.advanced.cp) == ReserveSpent(Last(q))
    requires ReserveSpent(Last(r)) == [OutPoint(Txid(o, Tx(p.advanced.cp)), 0)]
    ensures Deepening(l, ps + [OutPoint(Txid(o, Tx(p.advanced.cp)), 0)])
    ensures EndsIn(ps + [OutPoint(Txid(o, Tx(p.advanced.cp)), 0)], r)
  {
    var frozen := r.cps[|r.cps| - 2];
    FrozenReserve(o, l, frozen, ReserveSpent(frozen));
    Deepened(l, ps, OutPoint(Txid(o, Tx(frozen)), 0));
  }

  // ----- events and runs -----

  lemma EndBlockSeparate(o: Oracle, l: Ledger, cfg: Config, w: World, b: Block, env: PayoutEnv)
    requires GoodConfig(cfg) && QueueInv(o, cfg.checkpoint, w.st.queue) && Separate(l, w)
    requires ClockEndBlock(o, cfg, w.st, b, env).Ok?
    requires Known(o, l, Apply(o, cfg, w, EndBlockEvent(b, env)).st.queue)
    ensures Separate(l, Apply(o, cfg, w, EndBlockEvent(b, env)))
  {
    var t, out := EndBlockOutcome(o, cfg, w.st, b, env);
    BlockApplied(o, cfg, w, b, env, t.stepped);
    BlockSeparate(o, l, cfg, w, t.taken, b, t.dep, t.stepped, out, Apply(o, cfg, w, EndBlockEvent(b, env)));
  }

  lemma BlockSeparate(o: Oracle, l: Ledger, cfg: Config, w: World, taken: Queue, b: Block, dep: bool, r: Stepped,
                      out: Outcome, w': World)
    requires GoodConfig(cfg) && Separate(l, w) && AllCleared(w.st.queue, taken) && Shape(taken)
    requires Describes(o, cfg, taken, w.st.feePool, b, dep, r, out) && Known(o, l, r.queue)
    requires w'.st.queue == r.queue && w'.st.outpoints == w.st.outpoints
    requires AllReserves(w') == w.hist.reserves + Flatten(w.st.queue.cps, PoppedCount(w.st.queue, r.queue), ReserveSpent)
                                + Reserves(r.queue)
    ensures Separate(l, w')
  {
    var q := w.st.queue;
    ClearedFrames(q, taken);
    SameReserves(q, taken);
    SameEnds(AllReserves(w), q, taken);
    StepSeparate(o, l, cfg, w.hist.reserves, taken, w.st.feePool, b, dep, r, out);
    ClearedPart(q, taken, PoppedCount(q, r.queue));
  }

  lemma BlockApplied(o: Oracle, cfg: Config, w: World, b: Block, env: PayoutEnv, r: Stepped)
    requires cfg.unitsPerSat > 0 && ClockEndBlock(o, cfg, w.st, b, env).Ok?
    requires ClockEndBlock(o, cfg, w.st, b, env).value.0 ==
             w.st.(queue := r.queue, feePool := r.feePool, hashes := w.st.hashes + {b.commitment})
    ensures var w' := Apply(o, cfg, w, EndBlockEvent(b, env));
            && w'.st.queue == r.queue && w'.st.outpoints == w.st.outpoints
            && AllReserves(w') == w.hist.reserves + Flatten(w.st.queue.cps, PoppedCount(w.st.queue, r.queue), ReserveSpent)
                                  + Reserves(r.queue)
  {
  }

  lemma ClearedPart(q: Queue, q': Queue, k: nat)
    requires AllCleared(q, q') && k <= |q.cps|
    ensures Flatten(q'.cps, k, ReserveSpent) == Flatten(q.cps, k, ReserveSpent)
  {
    forall i | 0 <= i < k ensures ReserveSpent(q'.cps[i]) == ReserveSpent(q.cps[i]) {
      assert Cleared(q.cps[i], q'.cps[i]);
    }
    FlattenAgrees(q'.cps, q.cps, k, ReserveSpent);
  }

  /** An accepted deposit is not locked by a reserve script. */
  lemma DepositNotReserved(o: Oracle, l: Ledger, cfg: Config, s: State, d: Deposit)
    requires GoodConfig(cfg) && Shape(s.queue) && Regular(o, l, s, RelayDepositEvent(d)) && RelayDeposit(o, cfg, s, d).Ok?
    ensures l.opens(l.locks(d.outpoint)) != [0]
    ensures RelayDeposit(o, cfg, s, d).value.outpoints == s.outpoints + {d.outpoint}
  {
    ScriptMatches(o, cfg, s, d);
    var t := DepositOutcome(o, cfg, s, d, RelayDeposit(o, cfg, s, d).value);
  }

  lemma QuietSeparate(o: Oracle, l: Ledger, cfg: Config, w: World, e: Event)
    requires GoodConfig(cfg) && QueueInv(o, cfg.checkpoint, w.st.queue) && Separate(l, w) && Regular(o, l, w.st, e)
    requires Execute(o, cfg, w.st, e).Ok? && !e.EndBlockEvent?
    ensures Separate(l, Apply(o, cfg, w, e))
  {
    QuietEvent(o, cfg, w.st, e);
    QuietApplied(o, cfg, w, e);
    QuietOutpoints(o, l, cfg, w.st, e);
    SameSeparate(l, w, Apply(o, cfg, w, e));
  }

  lemma SameSeparate(l: Ledger, w: World, w': World)
    requires Separate(l, w) && w'.hist.reserves == w.hist.reserves && w'.st.queue.index == w.st.queue.index
    requires SameFrames(w.st.queue, w'.st.queue) && NoneReserved(l, w'.st.outpoints)
    ensures Separate(l, w')
  {
    SameReserves(w.st.queue, w'.st.queue);
    SameEnds(AllReserves(w), w.st.queue, w'.st.queue);
  }

  lemma QuietOutpoints(o: Oracle, l: Ledger, cfg: Config, s: State, e: Event)
    requires GoodConfig(cfg) && QueueInv(o, cfg.checkpoint, s.queue) && NoneReserved(l, s.outpoints) && Regular(o, l, s, e)
    requires Execute(o, cfg, s, e).Ok? && !e.EndBlockEvent?
    ensures NoneReserved(l, Execute(o, cfg, s, e).value.0.outpoints)
  {
    if e.RelayDepositEvent? {
      DepositNotReserved(o, l, cfg, s, e.deposit);
    } else {
      QuietEvent(o, cfg, s, e);
    }
  }

  lemma QuietApplied(o: Oracle, cfg: Config, w: World, e: Event)
    requires cfg.unitsPerSat > 0 && Execute(o, cfg, w.st, e).Ok? && !e.EndBlockEvent?
    ensures var w' := Apply(o, cfg, w, e);
            w'.st == Execute(o, cfg, w.st, e).value.0 && w'.hist.reserves == w.hist.reserves
  {
  }

  /** Over every run, the reserve outpoints spent so far, by pruned checkpoints too, are locked by
      reserve scripts and ever deeper, and no accepted deposit is locked by one. */
  lemma {:induction false} RunSeparate(o: Oracle, l: Ledger, cfg: Config, es: seq<Event>)
    requires GoodConfig(cfg) && HonestRun(o, cfg, START, es) && RegularRun(o, l, cfg, es)
    ensures Separate(l, Run(o, cfg, START, es))
    decreases |es|
  {
    if es == [] {
      assert Reserves(EMPTY_QUEUE) == [];
    } else {
      var before, e := es[..|es| - 1], es[|es| - 1];
      var w := Run(o, cfg, START, before);
      RunSeparate(o, l, cfg, before);
      RunKeepsInv(o, cfg, before);
      if Execute(o, cfg, w.st, e).Ok? {
        if e.EndBlockEvent? {
          EndBlockSeparate(o, l, cfg, w, e.block, e.env);
        } else {
          QuietSeparate(o, l, cfg, w, e);
        }
      }
    }
  }

  // ----- counting -----

  function ReserveOf(h: Measure): Checkpoint -> int {
    (cp: Checkpoint) => ReserveShare(h, cp)
  }

  lemma {:induction false} SpentSplits(cps: seq<Checkpoint>, n: nat, h: Measure)
    requires n <= |cps|
    ensures SumTo(cps, n, SpentOf(h)) == SumTo(cps, n, DepositOf(h)) + SumTo(cps, n, ReserveOf(h))
  {
    if n > 0 {
      SpentSplits(cps, n - 1, h);
    }
  }

  lemma ReservesSum(q: Queue, h: Measure)
    ensures Sum(Reserves(q), h) == Sum(q.cps, ReserveOf(h))
  {
    forall i | 0 <= i < |q.cps| ensures Sum(ReserveSpent(q.cps[i]), h) == ReserveOf(h)(q.cps[i]) {
      if ReserveSpent(q.cps[i]) != [] {
        SumSingle(ReserveSpent(q.cps[i])[0], h);
      }
    }
    FlattenSum(q.cps, |q.cps|, ReserveSpent, h, ReserveOf(h));
  }

  /** An outpoint is spent by at most one reserve input, and by none if its script is no reserve
      script. */
  lemma ReservesOnce(l: Ledger, ps: seq<OutPoint>, p: OutPoint)
    requires Deepening(l, ps)
    ensures Sum(ps, Is(p)) <= 1
    ensures l.opens(l.locks(p)) != [0] ==> Sum(ps, Is(p)) == 0
  {
    forall i, j | 0 <= i < j < |ps| ensures ps[i] != ps[j] {
      assert l.depth(ps[i].txid) < l.depth(ps[j].txid);
    }
    CountDistinct(ps, |ps|, p);
  }

  /**
    No double spend: over every run, an outpoint is spent by at most one input: of a queued
    checkpoint, of a pruned one, deposit or reserve, or of a recovery transaction.
   */
  lemma NoDoubleSpend(o: Oracle, l: Ledger, cfg: Config, es: seq<Event>, p: OutPoint)
    requires GoodConfig(cfg) && HonestRun(o, cfg, START, es) && RegularRun(o, l, cfg, es)
    ensures var w := Run(o, cfg, START, es);
            Sum(w.st.queue.cps, SpentOf(Is(p))) + Sum(w.hist.pruned, Is(p)) + Sum(w.hist.reserves, Is(p))
            + RecoverySum(w.st.recovery, Is(p)) <= 1
  {
    var w := Run(o, cfg, START, es);
    RunSeparate(o, l, cfg, es);
    CreditedOnce(o, cfg, es, p);
    SpentSplits(w.st.queue.cps, |w.st.queue.cps|, Is(p));
    ReservesSum(w.st.queue, Is(p));
    SumConcat(w.hist.reserves, Reserves(w.st.queue), Is(p));
    ReservesOnce(l, AllReserves(w), p);
  }
}
