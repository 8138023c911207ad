/**
  Runs of the bridge: any sequence of events from the initial state, together with a history
  of what was accepted, inserted, paid, emitted and pruned, of the blocks processed, and of the
  set and the block each checkpoint was pushed with.
 */
module BridgeRun {
  import opened Common
  import opened BitcoinTypes
  import opened Transactions
  import opened CheckpointQueue
  import opened QueueInvariants
  import opened Payouts
  import opened Recovery
  import opened Bridge
  import opened BridgeInvariants

  /** A transfer paid out, with what its payout depended on. */
  datatype Payout = Payout(env: PayoutEnv, transfer: Transfer)

  datatype History = History(
    accepted: seq<OutPoint>,    // deposit outpoints, in the order they were accepted
    inserted: seq<Transfer>,    // transfers put into some checkpoint
    paid: seq<Payout>,          // transfers handed out for payment
    messages: seq<Msg>,         // everything emitted
    pruned: seq<OutPoint>,      // deposit outpoints of pruned checkpoints
    reserves: seq<OutPoint>,    // reserve outpoints pruned checkpoints have spent
    blocks: seq<Block>,         // the blocks whose end was processed
    founders: seq<Block>,       // the block each checkpoint was pushed in
    sets: seq<SignatorySet>)    // the set each checkpoint was pushed with

  datatype World = World(st: State, hist: History)

  const START := World(INITIAL, History([], [], [], [], [], [], [], [], []))

  // ----- measures -----

  function PrevoutOf(h: OutPoint -> int): Input -> int {
    (i: Input) => h(i.prevout)
  }

  /** What a measure of outpoints gives for the deposit inputs of a checkpoint: all inputs but
      the reserve input, which every checkpoint except number 0 starts with. */
  function DepositOf(h: OutPoint -> int): Checkpoint -> int {
    (cp: Checkpoint) => Sum(Tx(cp).input, PrevoutOf(h)) - ReserveShare(h, cp)
  }

  /** What a measure of outpoints gives for all inputs of a checkpoint. */
  function SpentOf(h: OutPoint -> int): Checkpoint -> int {
    (cp: Checkpoint) => Sum(Tx(cp).input, PrevoutOf(h))
  }

  /** The reserve outpoint a checkpoint spends; checkpoint 0 spends none. */
  function ReserveSpent(cp: Checkpoint): seq<OutPoint> {
    if cp.sigset.index != 0 && Tx(cp).input != [] then [Tx(cp).input[0].prevout] else []
  }

  function ReserveShare(h: OutPoint -> int, cp: Checkpoint): int {
    if cp.sigset.index != 0 && Tx(cp).input != [] then h(Tx(cp).input[0].prevout) else 0
  }

  function RecoveryOf(h: OutPoint -> int): RecoveryTx -> int {
    (r: RecoveryTx) => Sum(r.tx.input, PrevoutOf(h))
  }

  function Burnt(m: Msg): int {
    if m.Burn? then m.amount else 0
  }

  /** What is in circulation. */
  function Supply(hist: History): int {
    Sum(hist.messages, Minted) - Sum(hist.messages, Burnt)
  }

  function TransferOf(g: Transfer -> int): Payout -> int {
    (p: Payout) => g(p.transfer)
  }

  // ----- what each event adds to the history -----

  /** The miner fee taken from a relayed deposit; none when it is only recovered. */
  function DepositFee(cfg: Config, s: State, d: Deposit): Option<nat> {
    match Get(s.queue, d.sigsetIndex)
    case Err(_) => None
    case Ok(cp) =>
      if d.now > cp.sigset.createTime + cfg.maxDepositAge then None else
      match UserFee(cfg, EstWitnessVsize(cp.sigset) + 40, cp.feeRate)
      case Err(_) => None
      case Ok(fee) => Some(fee)
  }

  /** The transfer a relayed deposit is credited with. */
  function Credited(cfg: Config, s: State, d: Deposit): seq<Transfer> {
    match DepositFee(cfg, s, d)
    case None => []
    case Some(fee) => [CreditOf(cfg, d, fee)]
  }

  function TakenAt(s: State): seq<Transfer> {
    match TakePendingCompleted(s.queue)
    case Err(_) => []
    case Ok(taken) => taken.1
  }

  function PoppedCount(q: Queue, q': Queue): (k: nat)
    ensures k <= |q.cps|
  {
    if q'.index > q.index && 1 <= |q'.cps| <= |q.cps| then |q.cps| + 1 - |q'.cps| else 0
  }

  function DepositInputs(cp: Checkpoint): seq<Input> {
    if cp.sigset.index != 0 && Tx(cp).input != [] then Suffix(Tx(cp).input, 1) else Tx(cp).input
  }

  /** Deposit outpoints of the first `k` checkpoints. */
  function PrunedOutpoints(cps: seq<Checkpoint>, k: nat): seq<OutPoint>
    requires k <= |cps|
  {
    Flatten(cps, k, DepositOutpoints)
  }

  function DepositOutpoints(cp: Checkpoint): seq<OutPoint> {
    Prevouts(DepositInputs(cp))
  }

  /** The set of the checkpoint a step has pushed. */
  function NewSets(q: Queue, q': Queue): seq<SignatorySet> {
    if q'.cps != [] && (q.cps == [] || q'.index > q.index) then [Last(q').sigset] else []
  }

  function Founders(q: Queue, q': Queue, b: Block): seq<Block> {
    if NewSets(q, q') != [] then [b] else []
  }

  function PaidAt(env: PayoutEnv, ts: seq<Transfer>): (ps: seq<Payout>)
    ensures |ps| == |ts| && forall i :: 0 <= i < |ts| ==> ps[i] == Payout(env, ts[i])
  {
    seq(|ts|, i requires 0 <= i < |ts| => Payout(env, ts[i]))
  }

  function Record(o: Oracle, cfg: Config, s: State, e: Event, s': State, msgs: seq<Msg>, hist: History): History {
    var hist' := hist.(messages := hist.messages + msgs);
    match e
    case RelayDepositEvent(d) =>
      hist'.(accepted := hist.accepted + [d.outpoint], inserted := hist.inserted + Credited(cfg, s, d))
    case EndBlockEvent(b, env) =>
      hist'.(paid := hist.paid + PaidAt(env, TakenAt(s)),
             pruned := hist.pruned + PrunedOutpoints(s.queue.cps, PoppedCount(s.queue, s'.queue)),
             reserves := hist.reserves + Flatten(s.queue.cps, PoppedCount(s.queue, s'.queue), ReserveSpent),
             blocks := hist.blocks + [b],
             founders := hist.founders + Founders(s.queue, s'.queue, b),
             sets := hist.sets + NewSets(s.queue, s'.queue))
    case _ => hist'
  }

  /** One event; a failing one changes nothing. */
  function Apply(o: Oracle, cfg: Config, w: World, e: Event): World
    requires cfg.unitsPerSat > 0
  {
    match Execute(o, cfg, w.st, e)
    case Err(_) => w
    case Ok(done) => World(done.0, Record(o, cfg, w.st, e, done.0, done.1, w.hist))
  }

  function Run(o: Oracle, cfg: Config, w: World, es: seq<Event>): World
    requires cfg.unitsPerSat > 0
    decreases |es|
  {
    if es == [] then w else Apply(o, cfg, Run(o, cfg, w, es[..|es| - 1]), es[|es| - 1])
  }

  /** The environment assumption: only the transaction of a complete checkpoint is mined, so
      only such a checkpoint can be proven confirmed. */
  predicate Honest(s: State, e: Event) {
    e.RelayCheckpointEvent? && e.proven && Get(s.queue, e.cpIndex).Ok? ==>
      Get(s.queue, e.cpIndex).value.status.Complete?
  }

  predicate HonestRun(o: Oracle, cfg: Config, w: World, es: seq<Event>)
    requires cfg.unitsPerSat > 0
    decreases |es|
  {
    es == [] ||
    (HonestRun(o, cfg, w, es[..|es| - 1]) && Honest(Run(o, cfg, w, es[..|es| - 1]).st, es[|es| - 1]))
  }
}
