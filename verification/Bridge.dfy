/**
  The bridge as a state machine over its entry points: relayed deposits, withdrawals,
  relayed confirmations, checkpoint signatures and end-of-block processing. An entry point
  that fails is rolled back by the host, so a failing event leaves the state as it was.
 */
module Bridge {
  import opened Common
  import opened BitcoinTypes
  import opened Transactions
  import opened Advance
  import opened CheckpointQueue
  import opened Payouts
  import opened Recovery

  datatype Config = Config(
    checkpoint: CheckpointConfig,
    unitsPerSat: nat,
    maxDepositAge: nat,
    minWithdrawalCheckpoints: nat,
    maxScriptLength: nat,
    capacityLimit: nat,
    denom: string)

  predicate GoodConfig(cfg: Config) {
    ValidConfig(cfg.checkpoint) && cfg.unitsPerSat > 0
  }

  datatype State = State(
    queue: Queue,
    feePool: int,
    outpoints: set<OutPoint>,
    recovery: seq<RecoveryTx>,
    hashes: set<Bytes>)

  const INITIAL := State(EMPTY_QUEUE, 0, {}, [], {})

  /** A relayed deposit output. `proven` stands for the header, confirmation and Merkle
      checks of the transaction that created it. */
  datatype Deposit = Deposit(
    now: nat,
    proven: bool,
    outpoint: OutPoint,
    output: TxOut,
    sigsetIndex: nat,
    dest: Dest)

  // ----- fees taken from users -----

  /** `amount` vbytes at `rate`, times the user factor, in units. */
  function UserFee(cfg: Config, vsize: nat, rate: nat): Result<nat> {
    var base :- Checked(Times(vsize, rate));
    var scaled :- Checked(Times(base, cfg.checkpoint.userFeeFactor));
    Checked(Times(scaled / 10_000, cfg.unitsPerSat))
  }

  /** `give_miner_fee`: into the pool, cast to a signed word, and onto the building checkpoint. */
  function GiveMinerFee(cfg: Config, s: State, amount: nat): Result<State>
    requires cfg.unitsPerSat > 0
  {
    var pool :- CheckedI64(s.feePool + AsI64(amount));
    var building :- Get(s.queue, s.queue.index);
    var collected :- Checked(building.feesCollected + amount / cfg.unitsPerSat);
    var queue :- Put(s.queue, s.queue.index, building.(feesCollected := collected));
    Ok(s.(queue := queue, feePool := pool))
  }

  /** Takes the miner fee, then adds inputs, outputs and pending transfers to the building
      checkpoint. */
  function Enter(cfg: Config, s: State, fee: nat, ins: seq<Input>, outs: seq<TxOut>, ts: seq<Transfer>): Result<State>
    requires cfg.unitsPerSat > 0
  {
    var s1 :- GiveMinerFee(cfg, s, fee);
    PushOnto(s1, ins, outs, ts)
  }

  function PushOnto(s: State, ins: seq<Input>, outs: seq<TxOut>, ts: seq<Transfer>): Result<State> {
    var building :- Get(s.queue, s.queue.index);
    var queue :- Put(s.queue, s.queue.index, Extended(building, ins, outs, ts));
    Ok(s.(queue := queue))
  }

  function Extended(cp: Checkpoint, ins: seq<Input>, outs: seq<TxOut>, ts: seq<Transfer>): Checkpoint {
    WithTx(cp, Tx(cp).(input := Tx(cp).input + ins, output := Tx(cp).output + outs)).(pending := cp.pending + ts)
  }

  // ----- relay_deposit -----

  function RelayDeposit(o: Oracle, cfg: Config, s: State, d: Deposit): Result<State>
    requires cfg.unitsPerSat > 0
  {
    if !d.proven then Err(Rejected) else
    var cp :- Get(s.queue, d.sigsetIndex);
    var script :- OutputScript(o, cp.sigset, o.commitment(d.dest));
    if d.output.script != script || d.outpoint in s.outpoints then Err(Rejected) else
    var timeout := cp.sigset.createTime + cfg.maxDepositAge;
    var s1 := s.(outpoints := s.outpoints + {d.outpoint});
    if !cp.depositsEnabled then Err(Rejected)
    else if d.now > timeout then RecoverDeposit(o, s1, d, cp.sigset)
    else CreditDeposit(o, cfg, s1, d, cp)
  }

  /** A deposit to an expired signatory set is only moved, not credited. */
  function RecoverDeposit(o: Oracle, s: State, d: Deposit, expired: SignatorySet): Result<State> {
    var building :- Get(s.queue, s.queue.index);
    var r :- Create(o, d.outpoint, d.output.value, expired, building.sigset, d.dest, building.feeRate);
    Ok(s.(recovery := s.recovery + [r]))
  }

  /** The deposit becomes an input, the miner fee is taken, the rest becomes pending. */
  function CreditDeposit(o: Oracle, cfg: Config, s: State, d: Deposit, cp: Checkpoint): Result<State>
    requires cfg.unitsPerSat > 0
  {
    var input :- NewInput(o, d.outpoint, cp.sigset, o.commitment(d.dest), d.output.value);
    var mint :- Checked(Times(d.output.value, cfg.unitsPerSat));
    var fee :- UserFee(cfg, input.estWitnessVsize + 40, cp.feeRate);
    if mint < fee then Err(Rejected) else
    Enter(cfg, s, fee, [input], [], [Transfer(d.dest, Coin(cfg.denom, mint - fee))])
  }

  // ----- withdraw_to_bitcoin -----

  /** `add_withdrawal`: the amount is cut to a machine word and to whole satoshis. */
  function AddWithdrawal(o: Oracle, cfg: Config, s: State, script: Bytes, amount: nat): Result<State>
    requires cfg.unitsPerSat > 0
  {
    if |script| > cfg.maxScriptLength || |s.queue.cps| < cfg.minWithdrawalCheckpoints then Err(Rejected) else
    var building :- Get(s.queue, s.queue.index);
    var fee :- UserFee(cfg, 9 + |script|, building.feeRate);
    if amount < fee then Err(Rejected) else
    var s1 :- GiveMinerFee(cfg, s, fee);
    var value := WithdrawalValue(cfg, amount - fee);
    if value <= o.dust(script) then Err(Rejected) else
    PushOnto(s1, [], [TxOut(value, script)], [])
  }

  function WithdrawalValue(cfg: Config, amount: nat): nat
    requires cfg.unitsPerSat > 0
  {
    amount % U64 / cfg.unitsPerSat
  }

  /** One withdrawal per matching coin sent along, each burnt in full. */
  function Withdraw(o: Oracle, cfg: Config, s: State, script: Bytes, funds: seq<Coin>): Result<(State, seq<Msg>)>
    requires cfg.unitsPerSat > 0
  {
    if funds == [] then Ok((s, [])) else
    var front :- Withdraw(o, cfg, s, script, funds[..|funds| - 1]);
    var coin := funds[|funds| - 1];
    if coin.denom != cfg.denom then Ok(front) else
    var next :- AddWithdrawal(o, cfg, front.0, script, coin.amount);
    Ok((next, front.1 + [Burn(coin.amount)]))
  }

  // ----- relay_checkpoint -----

  /** `proven` stands for the header, confirmation and Merkle checks, and for the proven
      transaction id being that of the checkpoint transaction. Its status is not checked. */
  function RelayCheckpoint(s: State, cpIndex: nat, proven: bool): Result<State> {
    if s.queue.confirmed.Some? && cpIndex <= s.queue.confirmed.value then Err(Rejected)
    else if !proven then Err(Rejected)
    else
      var _ :- Get(s.queue, cpIndex);
      Ok(s.(queue := s.queue.(confirmed := Some(cpIndex))))
  }

  // ----- clock_end_block -----

  /** Whether new deposits are allowed: the reserve of the last completed checkpoint is
      below the capacity limit. */
  function BelowCapacity(cfg: Config, q: Queue): Result<bool> {
    match LastCompletedIndex(q)
    case Err(_) => Ok(true)
    case Ok(last) =>
      var cp :- Get(q, last);
      if Tx(cp).output == [] then Err(NoValue) else Ok(Tx(cp).output[0].value < cfg.capacityLimit)
  }

  /** `begin_block_step`. After a push the least powerful active signatory is read. */
  function BeginBlockStep(o: Oracle, cfg: Config, q: Queue, feePool: int, b: Block): Result<Stepped> {
    var below :- BelowCapacity(cfg, q);
    var stepped :- MaybeStep(o, cfg.checkpoint, cfg.unitsPerSat, q, feePool, b, below);
    Accept(stepped)
  }

  function Accept(stepped: Stepped): Result<Stepped> {
    if !stepped.pushed then Ok(stepped) else
    var building :- Get(stepped.queue, stepped.queue.index);
    if building.sigset.signatories == [] then Err(NoValue) else Ok(stepped)
  }

  /** Pending transfers are taken and paid before the queue may step; the block hash is
      both the replay guard and the data to timestamp. */
  function ClockEndBlock(o: Oracle, cfg: Config, s: State, b: Block, env: PayoutEnv): Result<(State, seq<Msg>)> {
    if b.commitment in s.hashes then Err(Rejected) else
    var taken :- TakePendingCompleted(s.queue);
    var msgs :- PayoutMsgs(env, taken.1);
    var stepped :- BeginBlockStep(o, cfg, taken.0, s.feePool, b);
    Ok((s.(queue := stepped.queue, feePool := stepped.feePool, hashes := s.hashes + {b.commitment}), msgs))
  }

  // ----- events -----

  datatype Event =
    | RelayDepositEvent(deposit: Deposit)
    | WithdrawEvent(script: Bytes, funds: seq<Coin>)
    | RelayCheckpointEvent(cpIndex: nat, proven: bool)
    | SignEvent(xpub: Xpub, sigs: seq<Signature>, index: nat, btcHeight: nat)
    | SignRecoveryEvent(rxpub: Xpub, rsigs: seq<Signature>)
    | EndBlockEvent(block: Block, env: PayoutEnv)

  function Execute(o: Oracle, cfg: Config, s: State, e: Event): Result<(State, seq<Msg>)>
    requires cfg.unitsPerSat > 0
  {
    match e
    case RelayDepositEvent(d) => var s' :- RelayDeposit(o, cfg, s, d); Ok((s', []))
    case WithdrawEvent(script, funds) => Withdraw(o, cfg, s, script, funds)
    case RelayCheckpointEvent(i, proven) => var s' :- RelayCheckpoint(s, i, proven); Ok((s', []))
    case SignEvent(xpub, sigs, i, h) =>
      var q :- SignAt(o, s.queue, xpub, sigs, i, h); Ok((s.(queue := q), []))
    case SignRecoveryEvent(xpub, sigs) =>
      var r :- SignAll(o, xpub, s.recovery, sigs); Ok((s.(recovery := r), []))
    case EndBlockEvent(b, env) => ClockEndBlock(o, cfg, s, b, env)
  }
}
