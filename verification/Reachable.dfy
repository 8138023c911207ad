/** Runs on which every event goes through, as the sequence of the states they pass. */
module Reachable {
  import opened Common
  import opened BitcoinTypes
  import opened Transactions
  import opened CheckpointQueue
  import opened StepInvariants
  import opened Payouts
  import opened Bridge
  import opened BridgeRun
  import opened StepRuns

  ghost predicate Goes(o: Oracle, cfg: Config, s: State, e: Event, s': State)
    requires cfg.unitsPerSat > 0
  {
    Honest(s, e) && Execute(o, cfg, s, e).Ok? && Execute(o, cfg, s, e).value.0 == s'
  }

  ghost predicate Path(o: Oracle, cfg: Config, ss: seq<State>, es: seq<Event>) {
    && GoodConfig(cfg) && |ss| == |es| + 1 && ss[0] == INITIAL
    && forall i {:trigger es[i]} :: 0 <= i < |es| ==> Goes(o, cfg, ss[i], es[i], ss[i + 1])
  }

  /** The events go through one after the other and end in this state. */
  ghost predicate Reaches(o: Oracle, cfg: Config, es: seq<Event>, s: State) {
    exists ss :: Path(o, cfg, ss, es) && ss[|es|] == s
  }

  lemma ReachesStart(o: Oracle, cfg: Config)
    requires GoodConfig(cfg)
    ensures Reaches(o, cfg, [], INITIAL)
  {
    assert Path(o, cfg, [INITIAL], []);
  }

  lemma PathMore(o: Oracle, cfg: Config, ss: seq<State>, es: seq<Event>, e: Event, s': State)
    requires Path(o, cfg, ss, es) && Goes(o, cfg, ss[|es|], e, s')
    ensures Path(o, cfg, ss + [s'], es + [e])
  {
    forall i | 0 <= i < |es + [e]| ensures Goes(o, cfg, (ss + [s'])[i], (es + [e])[i], (ss + [s'])[i + 1]) {
      assert i < |es| ==> (es + [e])[i] == es[i];
    }
  }

  lemma ReachesMore(o: Oracle, cfg: Config, es: seq<Event>, s: State, e: Event, s': State)
    requires Reaches(o, cfg, es, s) && cfg.unitsPerSat > 0 && Goes(o, cfg, s, e, s')
    ensures Reaches(o, cfg, es + [e], s')
  {
    var ss :| Path(o, cfg, ss, es) && ss[|es|] == s;
    PathMore(o, cfg, ss, es, e, s');
    assert (ss + [s'])[|es + [e]|] == s';
  }

  /** Every run to the first state goes on to the second with this event. */
  ghost predicate Leads(o: Oracle, cfg: Config, s: State, e: Event, s': State) {
    forall es :: Reaches(o, cfg, es, s) ==> Reaches(o, cfg, es + [e], s')
  }

  lemma GoesLeads(o: Oracle, cfg: Config, s: State, e: Event, s': State)
    requires cfg.unitsPerSat > 0 && Goes(o, cfg, s, e, s')
    ensures Leads(o, cfg, s, e, s')
  {
    forall es | Reaches(o, cfg, es, s) ensures Reaches(o, cfg, es + [e], s') {
      ReachesMore(o, cfg, es, s, e, s');
    }
  }

  lemma DepositLeads(o: Oracle, cfg: Config, s: State, d: Deposit, s': State)
    requires cfg.unitsPerSat > 0 && RelayDeposit(o, cfg, s, d) == Ok(s')
    ensures Leads(o, cfg, s, RelayDepositEvent(d), s')
  {
    GoesLeads(o, cfg, s, RelayDepositEvent(d), s');
  }

  lemma SignatureLeads(o: Oracle, cfg: Config, s: State, xpub: Xpub, sigs: seq<Signature>, i: nat, h: nat, q: Queue)
    requires cfg.unitsPerSat > 0 && SignAt(o, s.queue, xpub, sigs, i, h) == Ok(q)
    ensures Leads(o, cfg, s, SignEvent(xpub, sigs, i, h), s.(queue := q))
  {
    GoesLeads(o, cfg, s, SignEvent(xpub, sigs, i, h), s.(queue := q));
  }

  lemma ConfirmationLeads(o: Oracle, cfg: Config, s: State, i: nat, s': State)
    requires cfg.unitsPerSat > 0 && RelayCheckpoint(s, i, true) == Ok(s')
    requires Get(s.queue, i).Ok? && Get(s.queue, i).value.status.Complete?
    ensures Leads(o, cfg, s, RelayCheckpointEvent(i, true), s')
  {
    GoesLeads(o, cfg, s, RelayCheckpointEvent(i, true), s');
  }

  lemma BlockLeads(o: Oracle, cfg: Config, s: State, b: Block, env: PayoutEnv, done: (State, seq<Msg>))
    requires cfg.unitsPerSat > 0 && ClockEndBlock(o, cfg, s, b, env) == Ok(done)
    ensures Leads(o, cfg, s, EndBlockEvent(b, env), done.0)
  {
    GoesLeads(o, cfg, s, EndBlockEvent(b, env), done.0);
  }

  /** An end of block with a due step leads on when all its parts can be computed. */
  lemma DueBlockLeads(o: Oracle, cfg: Config, s: State, b: Block, env: PayoutEnv, taken: (Queue, seq<Transfer>),
                      dep: bool, p: StepParts)
    requires cfg.unitsPerSat > 0 && BlockReady(o, cfg, s, b, env, taken, dep, p)
    ensures Leads(o, cfg, s, EndBlockEvent(b, env), After(cfg, s, taken.0, b, dep, p))
  {
    DueBlockRuns(o, cfg, s, b, env, taken, dep, p);
    BlockLeads(o, cfg, s, b, env, (After(cfg, s, taken.0, b, dep, p), PayoutMsgs(env, taken.1).value));
  }

  lemma PathPrefix(o: Oracle, cfg: Config, ss: seq<State>, es: seq<Event>)
    requires Path(o, cfg, ss, es) && es != []
    ensures Path(o, cfg, ss[..|es|], es[..|es| - 1])
    ensures Goes(o, cfg, ss[|es| - 1], es[|es| - 1], ss[|es|])
  {
    forall i | 0 <= i < |es| - 1 ensures Goes(o, cfg, ss[..|es|][i], es[..|es| - 1][i], ss[..|es|][i + 1]) {
      assert es[..|es| - 1][i] == es[i];
    }
  }

  lemma {:induction false} PathIsRun(o: Oracle, cfg: Config, ss: seq<State>, es: seq<Event>)
    requires Path(o, cfg, ss, es)
    ensures HonestRun(o, cfg, START, es) && Run(o, cfg, START, es).st == ss[|es|]
    decreases |es|
  {
    if es != [] {
      PathPrefix(o, cfg, ss, es);
      PathIsRun(o, cfg, ss[..|es|], es[..|es| - 1]);
    }
  }

  /** Such a run is honest and ends there. */
  lemma ReachesRun(o: Oracle, cfg: Config, es: seq<Event>, s: State)
    requires Reaches(o, cfg, es, s)
    ensures GoodConfig(cfg) && HonestRun(o, cfg, START, es) && Run(o, cfg, START, es).st == s
  {
    var ss :| Path(o, cfg, ss, es) && ss[|es|] == s;
    PathIsRun(o, cfg, ss, es);
  }
}
