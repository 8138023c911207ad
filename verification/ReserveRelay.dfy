/**
  Relaying the reserve output of a checkpoint as a deposit. The reserve pays its own signatory
  set with the commitment [0], so such a relay passes the script check exactly when the
  destination has that script too; then the same outpoint is the reserve input of one
  checkpoint and a deposit input of another.
 */
module ReserveRelay {
  import opened Common
  import opened BitcoinTypes
  import opened Transactions
  import opened CheckpointQueue
  import opened QueueInvariants
  import opened StepOutcomes
  import opened Bridge
  import opened BridgeInvariants
  import opened BridgeRun
  import opened RunInvariants
  import opened DepositOutcomes
  import opened CreditOnce
  import opened Spendable

  /** The script of destination `dest` under set `b` is the reserve script of set `a`. */
  predicate SameScript(o: Oracle, a: SignatorySet, b: SignatorySet, dest: Bytes) {
    o.p2wsh(o.redeemScript(b, dest)) == o.p2wsh(o.redeemScript(a, [0]))
  }

  /** The deposit relays output 0 of the frozen checkpoint at position `k`. */
  ghost predicate RelaysReserve(o: Oracle, q: Queue, d: Deposit, k: nat) {
    && k < |q.cps| && !q.cps[k].status.Building? && Tx(q.cps[k]).output != []
    && d.outpoint == OutPoint(Txid(o, Tx(q.cps[k])), 0) && d.output == Tx(q.cps[k]).output[0]
  }

  /** Unless the destination shares the reserve script, no reserve output is ever accepted. */
  lemma ReserveRefused(o: Oracle, cfg: Config, es: seq<Event>, d: Deposit, k: nat)
    requires GoodConfig(cfg) && HonestRun(o, cfg, START, es)
    requires var q := Run(o, cfg, START, es).st.queue;
             && RelaysReserve(o, q, d, k)
             && (Get(q, d.sigsetIndex).Ok? ==>
                   !SameScript(o, q.cps[k].sigset, Get(q, d.sigsetIndex).value.sigset, o.commitment(d.dest)))
    ensures RelayDeposit(o, cfg, Run(o, cfg, START, es).st, d).Err?
  {
    RunSound(o, cfg, es);
    SoundRefuses(o, Run(o, cfg, START, es).hist.sets, cfg, Run(o, cfg, START, es).st, d, k);
  }

  lemma SoundRefuses(o: Oracle, sets: seq<SignatorySet>, cfg: Config, s: State, d: Deposit, k: nat)
    requires cfg.unitsPerSat > 0 && QueueSound(o, sets, s.queue) && RelaysReserve(o, s.queue, d, k)
    requires Get(s.queue, d.sigsetIndex).Ok? ==>
               !SameScript(o, s.queue.cps[k].sigset, Get(s.queue, d.sigsetIndex).value.sigset, o.commitment(d.dest))
    ensures RelayDeposit(o, cfg, s, d).Err?
  {
    assert CpSound(o, sets, s.queue.cps[k]);
    if RelayDeposit(o, cfg, s, d).Ok? {
      ScriptMatches(o, cfg, s, d);
    }
  }

  lemma ScriptMatches(o: Oracle, cfg: Config, s: State, d: Deposit)
    requires cfg.unitsPerSat > 0 && RelayDeposit(o, cfg, s, d).Ok?
    ensures d.proven && Get(s.queue, d.sigsetIndex).Ok?
    ensures d.output.script == o.p2wsh(o.redeemScript(Get(s.queue, d.sigsetIndex).value.sigset, o.commitment(d.dest)))
  {
  }

  /** The checks of a relayed deposit before it is credited. */
  predicate Admitted(cfg: Config, s: State, d: Deposit, cp: Checkpoint) {
    && d.proven && Get(s.queue, d.sigsetIndex) == Ok(cp) && d.outpoint !in s.outpoints
    && cp.depositsEnabled && !Expired(cfg, d, cp)
  }

  lemma AdmittedCredits(o: Oracle, cfg: Config, s: State, d: Deposit, cp: Checkpoint)
    requires cfg.unitsPerSat > 0 && Admitted(cfg, s, d, cp)
    requires OutputScript(o, cp.sigset, o.commitment(d.dest)) == Ok(d.output.script)
    ensures RelayDeposit(o, cfg, s, d) == CreditDeposit(o, cfg, s.(outpoints := s.outpoints + {d.outpoint}), d, cp)
  {
  }

  /**
    With a destination that commits to [0], the reserve output of a frozen checkpoint is
    credited like any deposit to its set: the outpoint that input 0 of the next checkpoint
    already spends is then spent twice.
   */
  lemma ReserveCredited(o: Oracle, cfg: Config, es: seq<Event>, d: Deposit, k: nat, s': State)
    requires GoodConfig(cfg) && HonestRun(o, cfg, START, es)
    requires var s := Run(o, cfg, START, es).st;
             && RelaysReserve(o, s.queue, d, k) && o.commitment(d.dest) == [0] && Admitted(cfg, s, d, s.queue.cps[k])
             && CreditDeposit(o, cfg, s.(outpoints := s.outpoints + {d.outpoint}), d, s.queue.cps[k]) == Ok(s')
    ensures RelayDeposit(o, cfg, Run(o, cfg, START, es).st, d) == Ok(s')
    ensures Sum(s'.queue.cps, SpentOf(Is(d.outpoint))) >= 2
  {
    RunSound(o, cfg, es);
    RunKeepsInv(o, cfg, es);
    SoundCredits(o, Run(o, cfg, START, es).hist.sets, cfg, Run(o, cfg, START, es).st, d, k, s');
  }

  lemma SoundCredits(o: Oracle, sets: seq<SignatorySet>, cfg: Config, s: State, d: Deposit, k: nat, s': State)
    requires GoodConfig(cfg) && StateInv(o, cfg, s) && QueueSound(o, sets, s.queue)
    requires RelaysReserve(o, s.queue, d, k) && o.commitment(d.dest) == [0] && Admitted(cfg, s, d, s.queue.cps[k])
    requires CreditDeposit(o, cfg, s.(outpoints := s.outpoints + {d.outpoint}), d, s.queue.cps[k]) == Ok(s')
    ensures RelayDeposit(o, cfg, s, d) == Ok(s')
    ensures Sum(s'.queue.cps, SpentOf(Is(d.outpoint))) >= 2
  {
    var cp := s.queue.cps[k];
    assert CpSound(o, sets, cp);
    AdmittedCredits(o, cfg, s, d, cp);
    NextSpends(o, s.queue, k);
    var input, fee := CreditOutcome(o, cfg, s.(outpoints := s.outpoints + {d.outpoint}), d, cp, s');
    SpentAlready(s.queue, k + 1, d.outpoint);
    SpentMore(s.queue, s'.queue, input, [CreditOf(cfg, d, fee)], d.outpoint);
  }

  lemma NextSpends(o: Oracle, q: Queue, k: nat)
    requires Ordered(q) && Chain(o, q) && k < |q.cps| && !q.cps[k].status.Building?
    ensures k + 1 < |q.cps| && Linked(o, q.cps[k], q.cps[k + 1])
  {
    assert StatusFits(q.cps[k].status, k, |q.cps|);
  }

  /** An outpoint that some input spends is counted. */
  lemma SpentAlready(q: Queue, k: nat, p: OutPoint)
    requires k < |q.cps| && Tx(q.cps[k]).input != [] && Tx(q.cps[k]).input[0].prevout == p
    ensures Sum(q.cps, SpentOf(Is(p))) >= 1
  {
    forall i | 0 <= i < |q.cps| ensures SpentOf(Is(p))(q.cps[i]) >= 0 {
      SumNonNegative(Tx(q.cps[i]).input, PrevoutOf(Is(p)));
    }
    var ins := Tx(q.cps[k]).input;
    SumToMonotone(ins, 1, |ins|, PrevoutOf(Is(p)));
    assert SumTo(ins, 1, PrevoutOf(Is(p))) == SumTo(ins, 0, PrevoutOf(Is(p))) + PrevoutOf(Is(p))(ins[0]);
    SumToNonNegative(q.cps, k, SpentOf(Is(p)));
    SumToMonotone(q.cps, k + 1, |q.cps|, SpentOf(Is(p)));
  }

  /** A new input counts once more. */
  lemma SpentMore(q: Queue, q': Queue, input: Input, ts: seq<Transfer>, p: OutPoint)
    requires LastReplaced(q, q') && Grown(Last(q), Last(q'), [input], [], ts) && input.prevout == p
    ensures Sum(q'.cps, SpentOf(Is(p))) == Sum(q.cps, SpentOf(Is(p))) + 1
  {
    LastReplacedSum(q, q', SpentOf(Is(p)));
    SumSnoc(Tx(Last(q)).input, input, PrevoutOf(Is(p)));
  }
}
