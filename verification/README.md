# Verified model of the cw-bitcoin bridge

This project models the CosmWasm Bitcoin bridge of `contracts/cw-bitcoin`: the checkpoint
queue and the entry points that drive it, the weighted multisig compiler, the header light
client and the fee deduction. It states what these parts guarantee over all inputs and over
all runs, and proves it with Dafny 4.11. `dafny verify dfyconfig.toml` checks everything.

## How the model is built

- **Values and specifications.** `Transactions`, `Advance`, `CheckpointQueue`, `Signing`,
  `Payouts`, `Recovery` and `Bridge` describe checkpoints, the queue and the entry points as
  values and functions. `Bridge.Execute` is one event; `BridgeRun.Run` is any sequence of
  events with a history of what was accepted, inserted, paid, emitted and pruned, of the blocks
  processed, and of the set and the block each checkpoint was pushed with.
- **Stored state.** `Deques`, `QueueStore`, `RecoveryStore`, `BridgeContract` and
  `HeaderStore` are classes whose methods change stored state in place, with the loops of the
  source. Each method is proved to do what the corresponding function says.
- **Failures.** An error or a panic aborts an entry point and the host rolls its writes back.
  Both are `Err` results, and a failing event leaves the state as it was. Overflow checks are
  on in release builds, so machine arithmetic is checked; the silent casts `as i64` and
  `as u64` are modelled as they wrap.
- **Measures instead of multisets.** A statement of the form "for every measure `g` the sums
  agree" says that two collections agree as multisets.
- **Sample runs.** `SampleBridge` is one concrete choice of all parameters: one validator, one
  deposit, sizes as Bitcoin counts them, 32-byte ids and the default configuration up to two
  settings. `SampleReach` reaches Complete checkpoints by honest runs, and `SampleFailures` and
  `SampleInsolvency` extend them to the failures below. They prune nothing before their last
  block, so up to there both addressings of `Deques` agree.
- **Scripts.** `Scripts` has the byte encoding of instructions and a stack machine for the
  opcodes used; `RedeemScripts` is the compiler, `FromScripts` the parser.

## Assumptions

- **Mined checkpoints.** `relay_checkpoint` does not look at the status of a checkpoint. That
  only the transaction of a Complete checkpoint can be proven mined is the environment
  assumption `BridgeRun.Honest`, and the run theorems assume it of every event.
- **Position-relative set.** `DequeExtension::set` writes the key of the bare position while
  reads add the head. `Deques` has both addressings, selected by `Deque.relative`. The
  theorems about queues hold for position-relative addressing (`BridgeContract.Serve`), and
  for the addressing as written as long as the head is 0, that is, until the first checkpoint
  is pruned (`BridgeContract.ServeAsWritten`). `Deques.SetIsUpdate` says exactly when the two
  agree, and the findings say what is lost afterwards.
- **Thresholds.** The configured signature threshold equals the constant two thirds that
  `ThresholdSig` uses.
- **Configuration.** It is constant, with `max_inputs >= 1`, `max_outputs >= 2`, a positive
  number of units per satoshi and, for headers, the mainnet retarget period.
- **Uninterpreted functions.** Hashes, signature checks, key derivation, virtual size, dust
  limits, the DER form and destination commitments are parameters; every result but the sample
  runs holds for all choices of them.
- **Transaction ids.** `SpentOnce` assumes, of the transactions and deposits that occur in a
  run, that an id commits to its transaction and only to earlier ones, that an output script
  tells its destination, and that a proven deposit shows the script its outpoint is locked by.
  No other result needs this.

## Findings

- A step whose fee, in units, is 2^63 or more raises the fee pool instead of lowering it,
  because of the cast to a signed word, and the balance falls by 2^64
  (`FeeWrap.WrapLowersBalance`). `SampleInsolvency.InsolventRun` is a run that ends so, with
  10^14 units per satoshi; with the default of 10^6 such a fee is above 92,000 bitcoin.
  `Accounting.SlackNegative` is the exact condition, in the state before the call;
  `Accounting.BuildingBoundsFee` gives a simple one that excludes it.
- As written, once a checkpoint has been pruned, writes by index land elsewhere: a relayed
  deposit enters the replay set while the building checkpoint reads as before
  (`BridgeContract.Contract.RelayDeposit`), and transfers that were taken are read back
  uncleared, so that the next call takes them once more (`QueueStore.TakenAgain`).
- A due step whose prune would pop a checkpoint above the confirmed index fails, and with it
  the whole end of block: `unconfirmed` can then no longer be read for the fee. With nothing
  confirmed the fee is computed over what the prune leaves, and need not be the one checked.
  `Guards.PruneDecides` is the exact condition, `Stalls.PruneFailsBlock` the consequence and
  `SampleFailures.FailingPruneRun` a run that ends so. For the same reason no reachable queue
  misses a checkpoint above the confirmed index (`IndexViews.RunUnconfirmedIsFilter`).
- When nothing is confirmed and checkpoint 0 is pruned, or the confirmed checkpoint itself is
  pruned, the end of block stalls until a further checkpoint is confirmed.
  `Stalls.TakeFailsExactly` is the exact condition, `SampleFailures.StalledRun` a run of the
  default configuration that ends so, and `Stalls.StallEnds` says what ends it.
- The reserve output of a frozen checkpoint can be relayed as a deposit for a destination that
  commits to [0], the commitment of the reserve; its outpoint is then spent by two inputs
  (`ReserveRelay.ReserveCredited`, and `SampleFailures.ReserveSpentTwice` for a run). Without
  such a destination no outpoint is spent twice (`SpentOnce.NoDoubleSpend`).
- Above a total power of 2^23 the redeem script can reject an input that `signed` reports as
  signed (`Witnesses.SignedButRejected`); `Witnesses.WitnessMeans` is the exact condition.
- `from_script` cannot read truncated numbers from 1 to 16, nor a set whose truncated total
  rounds up to 2^23 (`ScriptRoundTrip.SmallPowerFails`, `ScriptRoundTrip.FullSetFails`);
  `ScriptRoundTrip.ScriptRoundTrips` is the exact condition.
- The comment on `pop_back_to` speaks of the height it leaves as the passed height; the code
  leaves the headers strictly below it. The model follows the code.

## Model

| member | source | states |
|---|---|---|
| `RunInvariants.RunKeepsInv` | contracts/cw-bitcoin/src/checkpoint.rs:1181-1292 | After every run of events under the environment assumption: the queue is empty or Complete* (Signing)? Building, the checkpoint at index i has signatory set index i, unconfirmed plus signing checkpoints never exceed the configured maximum, each checkpoint spends output 0 of the one before for its full value, signing counters are exact, pending transfers sit in the last two checkpoints only, nothing above the confirmed index was ever pruned, a pruned queue keeps at least ten checkpoints, and recovery transactions have exact counters |
| `RunInvariants.EventKeepsInv` | contracts/cw-bitcoin/src/entrypoints/sudo.rs:12-75 | Every single entry point that succeeds keeps all of those invariants |
| `StepInvariants.StepKeepsInv` | contracts/cw-bitcoin/src/checkpoint.rs:1205-1289 | A pushing step keeps queue shape, numbering, reserve chain, backlog bound and handled pending transfers; what it prunes holds no pending transfer |
| `StepInvariants.FollowsChain` | contracts/cw-bitcoin/src/checkpoint.rs:1264-1283 | Push, prune and handover keep the reserve chain: input 0 of each checkpoint spends output 0 of its predecessor with the same amount |
| `StepInvariants.OpsForGood` | contracts/cw-bitcoin/src/checkpoint.rs:1205-1289 | Fee computation, freezing and the start of the next checkpoint satisfy the obligations the step proofs use |
| `StepInvariants.IdleStep` | contracts/cw-bitcoin/src/checkpoint.rs:1191-1201 | A step that does not push leaves queue and fee pool unchanged: the index never moves without a push |
| `StepInvariants.FrozenUntouched` | contracts/cw-bitcoin/src/checkpoint.rs:836-912 | A frozen checkpoint is unsigned, keeps its set, transfers and the source of input 0, and its excess inputs are unsigned |
| `StepInvariants.RefreshPristine` | contracts/cw-bitcoin/src/threshold_sig.rs:177-195 | Rebuilding the signing state of unsigned excess inputs never trips the assertion in from_shares and keeps outpoints and amounts |
| `QueueInvariants.SignKeepsInv` | contracts/cw-bitcoin/src/checkpoint.rs:1513-1545 | Signing changes one checkpoint other than the building one, keeps every queue invariant, its transfers, its prevouts and its set |
| `QueueInvariants.SignedReplaces` | contracts/cw-bitcoin/src/checkpoint.rs:1532-1541 | A signed checkpoint keeps its transaction id and outputs, and is Complete exactly when fully signed |
| `QueueInvariants.ReplaceKeepsInv` | contracts/cw-bitcoin/src/checkpoint.rs:963-973 | Writing back a checkpoint with the same set, first input and reserve output keeps all queue invariants |
| `QueueInvariants.NumUnconfirmedIsBacklog` | contracts/cw-bitcoin/src/checkpoint.rs:1564-1580 | num_unconfirmed is the backlog without the checkpoint being signed, with no underflow |
| `QueueInvariants.TakeCompletedMoves` | contracts/cw-bitcoin/src/app.rs:711-740 | For every measure of transfers, what take_pending_completed returns plus what is left equals what was pending |
| `QueueInvariants.TakeCompletedClears` | contracts/cw-bitcoin/src/app.rs:711-740 | Taking transfers changes nothing else and leaves no Complete checkpoint with pending transfers |
| `BridgeInvariants.GrownKeepsInv` | contracts/cw-bitcoin/src/app.rs:326-340 | Deposits and withdrawals pushed onto the building checkpoint keep every queue invariant |
| `BridgeInvariants.EnterEffect` | contracts/cw-bitcoin/src/app.rs:742-763 | The miner fee enters the pool as a signed word and the building checkpoint grows by exactly the given inputs, outputs and transfers |
| `EntryPoints.EnterExactly` | contracts/cw-bitcoin/src/app.rs:742-763 | give_miner_fee and the push onto the building checkpoint succeed if and only if the queue is not empty and pool and collected fees can take the fee |
| `EntryPoints.UserFeeMeans` | contracts/cw-bitcoin/src/app.rs:152-178 | The fee of a user is size times rate times the user factor over 10,000, rounded down, in units, and fails exactly when a product exceeds a machine word |
| `EntryPoints.RelayExactly` | contracts/cw-bitcoin/src/app.rs:243-340 | relay_deposit succeeds if and only if the deposit is proven, new, locked by the script of the set of a queued checkpoint that takes deposits, and can be credited or, past the maximum age, moved |
| `EntryPoints.WithdrawalExactly` | contracts/cw-bitcoin/src/app.rs:409-470 | One withdrawal succeeds if and only if script length, number of checkpoints, fee and dust limit allow it |
| `EntryPoints.WithdrawExactly` | contracts/cw-bitcoin/src/entrypoints/execute.rs:142-177 | A withdrawal adds one output to the given script for every coin of its denomination, in order, each worth the coin less the fee in whole satoshis, and burns exactly these coins |
| `EntryPoints.ConfirmExactly` | contracts/cw-bitcoin/src/app.rs:347-404 | A confirmation succeeds if and only if it is proven, in the queue and above the one before, and moves the confirmed index only |
| `EntryPoints.RunRemembers` | contracts/cw-bitcoin/src/entrypoints/sudo.rs:12-24 | Over every run no block hash is processed twice, and the processed ones are exactly those remembered |
| `BridgeInvariants.WithdrawGrows` | contracts/cw-bitcoin/src/entrypoints/execute.rs:142-177 | A withdrawal of any list of coins changes only the building checkpoint and the pool, and the checkpoint by outputs only |
| `RunInvariants.ConfirmKeepsQueue` | contracts/cw-bitcoin/src/app.rs:347-404 | Confirming a Complete checkpoint keeps every queue invariant |
| `RunInvariants.WithdrawKeepsQueue` | contracts/cw-bitcoin/src/entrypoints/execute.rs:142-177 | A withdrawal of any list of coins keeps every queue invariant |
| `RunInvariants.EndBlockKeepsQueue` | contracts/cw-bitcoin/src/entrypoints/sudo.rs:12-75 | Take pending, pay, step, in that order, keeps every queue invariant |
| `RunInvariants.StepRetains` | contracts/cw-bitcoin/src/checkpoint.rs:1203-1215 | No successful step prunes a checkpoint above the confirmed index: the fee it has to compute after the prune reads all of them |
| `RunInvariants.EventRetains` | contracts/cw-bitcoin/src/entrypoints/sudo.rs:12-75 | No entry point that succeeds prunes above the confirmed index |
| `EventFrames.QuietEvent` | contracts/cw-bitcoin/src/entrypoints/execute.rs:142-177 | Whatever succeeds except the end of a block keeps number, sets and reserve inputs of the checkpoints and the outputs of all but the building one, and only a confirmation moves the confirmed index |
| `StepOutcomes.StepOutcome` | contracts/cw-bitcoin/src/checkpoint.rs:1181-1292 | Every successful step is idle, adds the first checkpoint, or freezes the building one and starts the next, with the exact new queue and fee pool |
| `StepOutcomes.FollowsSum` | contracts/cw-bitcoin/src/checkpoint.rs:1296-1314 | How any sum over checkpoints moves with a push and a prune |
| `StepRuns.DueBlockRuns` | contracts/cw-bitcoin/src/entrypoints/sudo.rs:25-73 | The converse: when a step is due, every part of it can be computed and the pool can be charged, the end of block succeeds, with exactly this state and these messages |
| `SampleReach.ReachesRolled` | contracts/cw-bitcoin/src/checkpoint.rs:1181-1292 | For every number of checkpoints that its funds, limits and the age bound allow, an honest run from the initial state leaves exactly that many Complete checkpoints, none confirmed, none pruned, with the exact fee pool: the run theorems are not vacuous |
| `DepositOutcomes.DepositOutcome` | contracts/cw-bitcoin/src/app.rs:257-340 | An accepted deposit was proven, new to the replay set, locked by the script of its checkpoint's set for its destination, and either became one input for that set and one transfer of its value less the fee, or, to an expired set, one recovery transaction from that set to the building one; nothing else |
| `Spendable.CompleteIsSpendable` | contracts/cw-bitcoin/src/checkpoint.rs:1532-1541 | Over every run, every input of every Complete checkpoint has signatures of more than two thirds of the power of the set with its set index, for which its redeem script was compiled, all verifying for the sighash of the frozen transaction; with distinct keys its witness makes that script accept exactly when the signers' truncated power exceeds the truncated threshold, and always below 2^23; with compiled redeem scripts this script is the input's own and reads back from its bytes |
| `Spendable.RunSound` | contracts/cw-bitcoin/src/checkpoint.rs:106-128 | Over every run, every input carries the shares of a set of the run, that of its own set index, its redeem script and output script are those of that set and its destination, stored signatures verify for their own keys, every frozen input is to be signed for the sighash of its transaction, and every frozen transaction pays its reserve to its own set |
| `Spendable.FrozenSound` | contracts/cw-bitcoin/src/checkpoint.rs:885-899 | Freezing gives every kept input the sighash of the frozen transaction and keeps its shares |
| `Spendable.SignKeepsSound` | contracts/cw-bitcoin/src/checkpoint.rs:476-559 | Signing keeps shares and messages and stores only signatures that verify |
| `Spendable.CompleteSigned` | contracts/cw-bitcoin/src/checkpoint.rs:646-648 | All inputs of a Complete checkpoint are over their threshold |
| `Spendable.ReserveScripts` | contracts/cw-bitcoin/src/checkpoint.rs:1264-1273 | Over every run, the script by which a checkpoint spends its reserve input is the script of the reserve output it spends |
| `PayoutOnce.RunPaysOnce` | contracts/cw-bitcoin/src/app.rs:681-740 | Over every run and for every measure of transfers: inserted = paid out + still pending, so each inserted transfer is paid exactly once or pending exactly once |
| `PayoutOnce.EventPaysOnce` | contracts/cw-bitcoin/src/entrypoints/sudo.rs:25-73 | Every single event keeps the exactly-once balance |
| `PayoutOnce.StepPending` | contracts/cw-bitcoin/src/checkpoint.rs:1296-1314 | A step neither loses nor duplicates a pending transfer, pruning included |
| `PayoutOnce.TakenFromComplete` | contracts/cw-bitcoin/src/app.rs:681-740 | Transfers are only taken from Complete checkpoints and all Complete ones are emptied |
| `PayoutOnce.EndBlockPending` | contracts/cw-bitcoin/src/entrypoints/sudo.rs:25-73 | At the end of a block exactly the taken transfers leave the checkpoints |
| `Takes.TakesDue` | contracts/cw-bitcoin/src/app.rs:681-740 | What an end of block takes is exactly the pending list of the last completed checkpoint, in its order, and the first unhandled index moves just behind the confirmed one |
| `Takes.EndBlockPaysDue` | contracts/cw-bitcoin/src/entrypoints/sudo.rs:25-66 | What an end of block emits are the payouts of these transfers, one after the other |
| `CreditOnce.CreditedOnce` | contracts/cw-bitcoin/src/app.rs:257-340 | Over every run an outpoint in the replay set is exactly one deposit input, queued or pruned, or exactly one recovery input; any other outpoint is none |
| `CreditOnce.RunAccounts` | contracts/cw-bitcoin/src/outpoint_set.rs:35-51 | Over every run accepted outpoints are pairwise distinct, the replay set holds exactly them, and for every measure they equal deposit inputs plus pruned ones plus recovery inputs |
| `CreditOnce.DepositCounts` | contracts/cw-bitcoin/src/app.rs:257-340 | A relayed deposit adds exactly its outpoint to deposit inputs or recovery inputs, and only if it was not in the replay set |
| `CreditOnce.HandoverCounts` | contracts/cw-bitcoin/src/checkpoint.rs:1278-1283 | Carrying excess inputs over neither loses nor duplicates a deposit input |
| `CreditOnce.StepCounts` | contracts/cw-bitcoin/src/checkpoint.rs:1205-1289 | A step keeps every deposit input except those of pruned checkpoints |
| `SpentOnce.NoDoubleSpend` | contracts/cw-bitcoin/src/checkpoint.rs:1262-1283 | No double spend over any run: an outpoint is spent by at most one input of a queued checkpoint, of a pruned one, deposit or reserve, or of a recovery transaction, provided no relayed destination commits to [0], the ids of the frozen transactions of the run commit to them, and the scripts that occur in the run tell their destinations |
| `SpentOnce.RunSeparate` | contracts/cw-bitcoin/src/app.rs:243-340 | Over every such run, the reserve outpoints spent so far, pruned checkpoints included, lie ever deeper and are all locked by reserve scripts, the last one is what the building checkpoint spends, and no accepted deposit is locked by such a script |
| `ReserveRelay.ReserveRefused` | contracts/cw-bitcoin/src/app.rs:243-340 | On every reachable queue, relaying the reserve output of a frozen checkpoint fails unless the destination's script is that of the reserve |
| `ReserveRelay.ReserveCredited` | contracts/cw-bitcoin/src/app.rs:243-340 | For a destination that commits to [0] that relay is credited, and the outpoint is then spent by at least two inputs of queued checkpoints |
| `SampleFailures.ReserveSpentTwice` | contracts/cw-bitcoin/src/app.rs:243-340 | An honest run with the default configuration whose queue spends one outpoint twice: a deposit, one Complete checkpoint, and its reserve output relayed for the address of one zero byte |
| `Accounting.RunBalance` | contracts/cw-bitcoin/src/app.rs:297-340 | The accounting identity: after every run, units times (building inputs minus outputs) minus fee pool minus pending minus supply is exactly the sum of the per-event slacks, starting at 0 |
| `Accounting.RunSolvent` | contracts/cw-bitcoin/src/app.rs:297-340 | After every run in which the fee due before each end of block fits a signed word the balance is not negative: the reserve covers fee pool, pending transfers and supply |
| `Accounting.EventBalance` | contracts/cw-bitcoin/src/app.rs:409-470 | Every event moves the balance by exactly its slack |
| `Accounting.SlackNegative` | contracts/cw-bitcoin/src/app.rs:742-763 | An event lowers the balance if and only if it is a successful end of block and the cast of the fee due, computed from the state before, wraps by more than its payouts drop |
| `Accounting.ChargedIsDue` | contracts/cw-bitcoin/src/checkpoint.rs:1207-1221 | What a successful end of block charges is the fee due in the state before it |
| `FeeWrap.WrapLowersBalance` | contracts/cw-bitcoin/src/checkpoint.rs:1219-1221 | In every state that satisfies the run invariants, with a step due, everything before it confirmed and a fee of 2^63 units or more that still fits a word, the end of block succeeds and lowers the balance by 2^64 less what its payouts drop |
| `SampleInsolvency.InsolventRun` | contracts/cw-bitcoin/src/checkpoint.rs:1219-1221 | An honest run from the initial state after which the balance is at most -2^64 |
| `Accounting.BuildingBoundsFee` | contracts/cw-bitcoin/src/checkpoint.rs:1219-1221 | The fee due fits a signed word whenever the building checkpoint's inputs, in units, do |
| `Accounting.DepositBacking` | contracts/cw-bitcoin/src/app.rs:297-340 | A deposit moves the balance only by what the signed cast of its fee wraps |
| `Accounting.WithdrawBacking` | contracts/cw-bitcoin/src/entrypoints/execute.rs:157-173 | A withdrawal burns the coins it takes and moves the balance only by rounding, truncation and the signed cast |
| `Accounting.RoundingExact` | contracts/cw-bitcoin/src/app.rs:434-442 | A withdrawal loses nothing exactly when it fits a machine word and is whole satoshis |
| `Accounting.EndBlockBacking` | contracts/cw-bitcoin/src/entrypoints/sudo.rs:25-73 | An end of block moves the balance by the dropped mints minus what the cast of the step fee wraps |
| `Accounting.StepBacking` | contracts/cw-bitcoin/src/checkpoint.rs:1207-1221 | A step takes exactly the miner fee from the net value and from the fee pool |
| `Guards.JoinedFee` | contracts/cw-bitcoin/src/checkpoint.rs:1439-1451 | The fee after push and prune, read before them: with a confirmed checkpoint it is the fee that was checked when the prune pops nothing above it, and cannot be computed otherwise; with none confirmed it is the fee over what the prune leaves |
| `Guards.PruneDecides` | contracts/cw-bitcoin/src/checkpoint.rs:1203-1215 | Whatever a due step prunes and whether or not anything is confirmed: with the fee after the prune the reserve subtraction succeeds if and only if the kept inputs cover the kept outputs and that fee, which holds for every fee up to the checked one; without such a fee, or when it is not covered, the whole step fails |
| `Guards.FreezeIffCovers` | contracts/cw-bitcoin/src/checkpoint.rs:866-881 | The reserve subtraction of advance succeeds if and only if the kept inputs cover the kept outputs and the fee |
| `Guards.PushedUnconfirmed` | contracts/cw-bitcoin/src/checkpoint.rs:1594-1609 | The unconfirmed view is the same right after a push |
| `Guards.FeeUnchanged` | contracts/cw-bitcoin/src/checkpoint.rs:1439-1451 | The fee of the previous checkpoint right after a push is the fee it had while building |
| `Guards.RateMoves` | contracts/cw-bitcoin/src/checkpoint.rs:1223-1255 | With an unconfirmed checkpoint overdue and a block mined since the newest was signed the rate rises, with every completed checkpoint confirmed it falls, and otherwise it stays, by the exact steps |
| `Guards.AdjustBounds` | contracts/cw-bitcoin/src/checkpoint.rs:1668-1675 | An adjusted rate is the nearest one within the bounds to a quarter more, rounded down, or a quarter less, rounded up, and at least one; it moves strictly unless it is at its bound |
| `StepRates.EndBlockDecides` | contracts/cw-bitcoin/src/app.rs:566-609 | The checkpoint an end of block adds has nothing pending or collected, the default rate when it is the first, else the rate that follows from the one before it, and takes deposits if and only if the reserve of the last completed checkpoint is below the capacity limit |
| `Guards.PushIsDue` | contracts/cw-bitcoin/src/checkpoint.rs:1316-1437 | On a non-empty queue a push is due if and only if no checkpoint is being signed, the minimum interval has passed, the light client has caught up, before the maximum interval and on checkpoint 0 there is work and the collected fees cover the fee, the inputs that fit cover the outputs that fit and the fee, fewer than the maximum are unconfirmed, and the next set exists with power possible and at least half of it present |
| `Guards.FirstIsDue` | contracts/cw-bitcoin/src/checkpoint.rs:1316-1437 | On the empty queue a push is due if and only if the first set exists with enough power and any checkpoint may be unconfirmed |
| `FeeLaws.FeeMeans` | contracts/cw-bitcoin/src/checkpoint.rs:1439-1451 | The fee of a checkpoint is its size at its rate plus what the unconfirmed ones before it have paid less than that rate: together they have paid at least that rate for all of their size, and exactly that unless the earlier ones had paid more |
| `FeeLaws.FrozenTx` | contracts/cw-bitcoin/src/checkpoint.rs:836-912 | A frozen transaction is the reserve output to its own set, the timestamp, the outputs that still fit in order, and the inputs that fit in order |
| `FeeLaws.FrozenSize` | contracts/cw-bitcoin/src/checkpoint.rs:667-720 | The size a checkpoint is charged for is that of the transaction it is frozen into with worst-case witnesses |
| `Timestamps.RunStamped` | contracts/cw-bitcoin/src/checkpoint.rs:836-862 | Over every run, every frozen checkpoint starts with the reserve output to its own set and an OP_RETURN output with the commitment of the block it was frozen in |
| `Guards.PruneExact` | contracts/cw-bitcoin/src/checkpoint.rs:1296-1314 | Exactly the leading checkpoints older than the maximum age are pruned while more than ten are left |
| `Spacing.RunSpaced` | contracts/cw-bitcoin/src/checkpoint.rs:1328-1345 | Over every run, consecutive checkpoints are created at least the minimum interval apart |
| `Spacing.PruneSucceeds` | contracts/cw-bitcoin/src/checkpoint.rs:1296-1314 | On every reachable queue the subtraction of creation times in the prune after a due push never underflows |
| `Stalls.TakeFailsExactly` | contracts/cw-bitcoin/src/app.rs:711-740 | Taking pending transfers fails if and only if a checkpoint is completed and the first one to take from is pruned: number 0 when nothing is confirmed, else the confirmed one itself |
| `Stalls.RunStalls` | contracts/cw-bitcoin/src/app.rs:711-740 | That holds after every run, and in a stalled state every end of block fails |
| `Stalls.StallEnds` | contracts/cw-bitcoin/src/app.rs:711-740 | A stall is ended by a confirmation and by no other event |
| `SampleFailures.StalledRun` | contracts/cw-bitcoin/src/app.rs:711-740 | An honest run with the default configuration, ten checkpoints in 120 days and none confirmed, after which every end of block fails |
| `Stalls.PruneFailsBlock` | contracts/cw-bitcoin/src/checkpoint.rs:1203-1215 | A due step fails the whole end of block when its prune pops a checkpoint above the confirmed index, or, with none confirmed, when the inputs do not cover the fee over what the prune leaves |
| `SampleFailures.FailingPruneRun` | contracts/cw-bitcoin/src/checkpoint.rs:1203-1215 | An honest run of eleven checkpoints with the first one confirmed, after which transfers can be taken, a push is due, and the end of block fails |
| `Advance.FreezeBalances` | contracts/cw-bitcoin/src/checkpoint.rs:836-912 | Kept inputs equal kept outputs plus the fee charged, checkpoint_tx_miner_fees reads that fee back without underflow, nothing is lost between kept and excess, and the reserve outpoint names output 0 holding the reserve |
| `Advance.FreezeConservesInputs` | contracts/cw-bitcoin/src/checkpoint.rs:853-857 | Kept and excess prevouts are the old ones as multisets, within the input limit |
| `Advance.FreezeConservesOutputs` | contracts/cw-bitcoin/src/checkpoint.rs:844-862 | Kept and excess outputs are the old ones and the two additions as multisets, within the output limit |
| `Advance.FreezeSucceeds` | contracts/cw-bitcoin/src/checkpoint.rs:879-881 | A guard covering outputs and fee is enough for the reserve subtraction |
| `Advance.AdvanceBuilding` | contracts/cw-bitcoin/src/checkpoint.rs:836-912 | The loops of advance compute the specification of freezing |
| `Advance.PopExcess` | contracts/cw-bitcoin/src/checkpoint.rs:853-862 | Popping while above the limit keeps the prefix and returns the rest reversed |
| `Advance.TotalAmount` | contracts/cw-bitcoin/src/checkpoint.rs:866-870 | The checked running sum of input amounts |
| `Advance.TotalValue` | contracts/cw-bitcoin/src/checkpoint.rs:871-875 | The checked running sum of output values |
| `Signing.SignCheckpointCorrect` | contracts/cw-bitcoin/src/checkpoint.rs:476-559 | Signing succeeds exactly when the signatures answer to_sign one for one and each verifies for its message and derived key; counters stay exact, signedness never regresses, and the signing height is written exactly when the checkpoint becomes signed |
| `Signing.Sign` | contracts/cw-bitcoin/src/checkpoint.rs:476-559 | The nested loops of sign compute the specification of signing |
| `Signing.SignTxLoop` | contracts/cw-bitcoin/src/checkpoint.rs:497-532 | Signing the inputs of one transaction in place |
| `Signing.SignBatchesLoop` | contracts/cw-bitcoin/src/checkpoint.rs:485-549 | Batches in order, stopping after the first one that was not signed before |
| `Signing.TxidIgnoresSignatures` | contracts/cw-bitcoin/src/checkpoint.rs:207-210 | Signatures do not change a transaction id |
| `Signing.AllRefine` | contracts/cw-bitcoin/src/checkpoint.rs:594-612 | Over any list of items a signer refines its task list |
| `Requests.MemberAsked` | contracts/cw-bitcoin/src/checkpoint.rs:594-612 | Over every run, for every unsigned share of every frozen input the validator it stands for is found in the block the set was made in, and to_sign lists the sighash for the key that validator had submitted, under the index of the set |
| `Requests.AskedOnly` | contracts/cw-bitcoin/src/checkpoint.rs:594-612 | to_sign lists nothing but the message and the set index of an input with an unsigned share for the key derived at that index |
| `Requests.ToSignReady` | contracts/cw-bitcoin/src/checkpoint.rs:594-612 | to_sign lists exactly the batches up to and including the first that is not signed, in order |
| `Requests.SignsReady` | contracts/cw-bitcoin/src/checkpoint.rs:485-549 | sign leaves all later batches alone |
| `EntryPoints.SignExactly` | contracts/cw-bitcoin/src/checkpoint.rs:1513-1545 | A signature on a checkpoint succeeds if and only if the checkpoint is in the queue, no longer building, and as many signatures are given as to_sign lists tasks, each verifying for its task |
| `ThresholdSigs.SignCorrect` | contracts/cw-bitcoin/src/threshold_sig.rs:241-259 | For a key that still has to sign, adding a signature succeeds exactly when it verifies, keeps signed = power of the signed shares, and changes nothing for other keys |
| `ThresholdSigs.FromShares` | contracts/cw-bitcoin/src/threshold_sig.rs:177-195 | from_shares succeeds exactly on unsigned shares whose power fits a word, and starts with nothing signed and two thirds as threshold |
| `ThresholdSigs.FreshValid` | contracts/cw-bitcoin/src/threshold_sig.rs:149-171 | A fresh collection has exact counters |
| `ThresholdSigs.IndexOf` | contracts/cw-bitcoin/src/threshold_sig.rs:228-234 | The first entry of a key, or none |
| `SignatorySets.FromValidatorsWellFormed` | contracts/cw-bitcoin/src/signatory.rs:88-121 | A set built from validators has at most 20 members in descending order, present power equal to their sum and at most the possible power; who they are is `Members.SetChosen` |
| `SignatorySets.FromValidatorCtx` | contracts/cw-bitcoin/src/signatory.rs:88-121 | The validator loop computes the specified set, whose members `Members.SetChosen` describes |
| `SignatorySets.SortAndTruncate` | contracts/cw-bitcoin/src/signatory.rs:288-296 | Sorting and truncating keeps the most powerful members and their total |
| `Members.SetChosen` | contracts/cw-bitcoin/src/signatory.rs:88-121 | The members are, as a multiset, the pairs of power and key derived at the index of the set over the validators with a submitted key, less smaller ones, and none is left out unless there are 20; index, time and both totals are exact |
| `Members.MemberIsValidator` | contracts/cw-bitcoin/src/signatory.rs:96-110 | Every member is a validator with a submitted key, with its power and its key derived at the index of the set |
| `Eras.RunEra` | contracts/cw-bitcoin/src/checkpoint.rs:1453-1490 | Over every run, each checkpoint ever pushed had the set that the validators and the time of its block make it, with members, with power possible and at least half of the possible power present, and every queued checkpoint still has exactly that set |
| `Ordering.AscendingUnique` | contracts/cw-bitcoin/src/threshold_sig.rs:300-307 | Two ascending arrangements of the same ranked elements are equal, so the sorting algorithm does not matter |
| `FeeDeduction.DeductFee` | contracts/cw-bitcoin/src/checkpoint.rs:250-304 | The filtering loop ends and yields the greatest set of outputs able to pay an equal share above dust, charged with it, in order |
| `FeeDeduction.Settle` | contracts/cw-bitcoin/src/checkpoint.rs:262-294 | The repeated passes stop exactly at the specified cut-off; each repeated pass drops an output |
| `FeeDeduction.Retain` | contracts/cw-bitcoin/src/checkpoint.rs:268-281 | One pass keeps the outputs above the threshold and tells by the minimum whether any was dropped |
| `FeeDeduction.DeductedGreatest` | contracts/cw-bitcoin/src/checkpoint.rs:250-304 | The survivors are affordable and contain every affordable set, each can pay more than its share, each pays exactly the equal share and keeps its script, and each ends above dust |
| `FeeDeduction.SurvivorsUnique` | contracts/cw-bitcoin/src/checkpoint.rs:250-304 | Any two cut-offs that are settled and lose no affordable set keep the same outputs, so the survivors are unique |
| `Recovery.CreateValid` | contracts/cw-bitcoin/src/recovery.rs:48-93 | A recovery transaction spends exactly the expired outpoint, to be signed by the old set under the old redeem script for the sighash of this very transaction; its only output is locked by the script of the new set for the same destination and worth the deposit less the fee, and is missing exactly when that would be dust; the fee is the rate times the estimated size |
| `Recovery.SignAllCorrect` | contracts/cw-bitcoin/src/recovery.rs:95-170 | Signing recovery transactions succeeds exactly when the signatures are not empty and answer to_sign one for one; transactions without a listed task are not touched |
| `RecoveryStore.CreateRecoveryTx` | contracts/cw-bitcoin/src/recovery.rs:48-93 | The stored deque grows by exactly the created transaction or stays as it was on failure; what is created is `Recovery.CreateValid` |
| `RecoveryStore.SignRecoveryTxs` | contracts/cw-bitcoin/src/recovery.rs:115-170 | Reading, signing and writing back each position computes the specification on the stored deque |
| `Recoveries.RunRecovers` | contracts/cw-bitcoin/src/recovery.rs:48-93 | Over every run, every stored recovery transaction still has one input under the script of its old set for its destination, to be signed for the sighash of this transaction and with verified signatures only, and one output, worth the deposit less the fee at some rate and locked for its new set and the same destination, or none when that would be dust |
| `Payouts.SplitConserves` | contracts/cw-bitcoin/src/fee.rs:15-59 | The three shares of a coin add up to the coin |
| `Payouts.ProcessDeductFee` | contracts/cw-bitcoin/src/fee.rs:15-59 | Overwriting the fee data step by step computes the three-way split |
| `Payouts.DeductTokenFee` | contracts/cw-bitcoin/src/fee.rs:88-96 | What is left and the fee add up to the amount |
| `Payouts.TransferMints` | contracts/cw-bitcoin/src/interface.rs:125-230 | A transfer mints its whole coin except the share a skipped destination drops |
| `Payouts.PayoutMints` | contracts/cw-bitcoin/src/entrypoints/sudo.rs:31-66 | All messages of a block mint the taken transfers less what skipped destinations drop |
| `Payouts.PayOut` | contracts/cw-bitcoin/src/entrypoints/sudo.rs:31-66 | The payout loop emits the specified messages; whom they pay is `Receivers.PayoutPays` |
| `Receivers.SplitMeans` | contracts/cw-bitcoin/src/fee.rs:15-96 | A coin is split if and only if the token fee fits and is at most the amount; the token fee is the ratio of the amount, the relayer fee is taken from the rest, and the receiver gets what is left |
| `Receivers.PayoutPays` | contracts/cw-bitcoin/src/interface.rs:125-206 | For every address: the messages of a block mint to it the receiver shares of the transfers whose receiver it is (the address, the sender when no swap is possible, the bridge contract when the same amount is swapped), all relayer shares if it is the relayer fee receiver and all token fees if it is the token fee receiver; what is swapped is what was minted for swapping |
| `Receivers.RunPaysEveryone` | contracts/cw-bitcoin/src/entrypoints/sudo.rs:25-73 | Over every run and for every address, what was minted to it is what the transfers paid so far owe it |
| `IndexViews.Completed` | contracts/cw-bitcoin/src/checkpoint.rs:1038-1064 | completed(limit) is the last min(limit, count) Complete checkpoints in order on every well-shaped queue, with no underflow |
| `IndexViews.UnconfirmedLoop` | contracts/cw-bitcoin/src/checkpoint.rs:1594-1609 | The loop of unconfirmed computes the specified view |
| `IndexViews.UnconfirmedIsFilter` | contracts/cw-bitcoin/src/checkpoint.rs:1564-1609 | unconfirmed succeeds exactly when nothing above the confirmed index was pruned, and then is exactly the Complete checkpoints above it, in order |
| `IndexViews.RunUnconfirmedIsFilter` | contracts/cw-bitcoin/src/checkpoint.rs:1564-1609 | After every run unconfirmed succeeds and is exactly the Complete checkpoints above the confirmed index |
| `CheckpointQueue.PutThenGet` | contracts/cw-bitcoin/src/checkpoint.rs:956-995 | A write by index succeeds exactly where a read does, is read back at its index, and changes no other read |
| `CheckpointQueue.PruneCount` | contracts/cw-bitcoin/src/checkpoint.rs:1296-1314 | Pruning never leaves fewer than ten checkpoints |
| `Deques.SetIsUpdate` | contracts/cw-bitcoin/src/interface.rs:67-82 | Writing the key of the bare position is the update at that position exactly when the head is 0, or the value is already there and where the write lands |
| `Deques.SetLands` | contracts/cw-bitcoin/src/interface.rs:67-82 | Where the write lands: head positions too early, or outside the queue |
| `Deques.SetThenGet` | contracts/cw-bitcoin/src/interface.rs:67-82 | After a pop, reading a position back returns the old value |
| `Deques.Deque.Set` | contracts/cw-bitcoin/src/interface.rs:78-82 | In range the value lands as many positions too early as the addressing lags, and as written the slot of the bare position is overwritten |
| `Deques.Deque.Clear` | contracts/cw-bitcoin/src/interface.rs:57-65 | clear empties the deque |
| `Deques.Deque.PopFront` | contracts/cw-bitcoin/src/checkpoint.rs:1309-1309 | pop_front returns and removes the first element and moves the head |
| `QueueStore.Store.Get` | contracts/cw-bitcoin/src/checkpoint.rs:956-995 | Reading by index from the stored deque |
| `QueueStore.Store.Set` | contracts/cw-bitcoin/src/checkpoint.rs:963-995 | Writing by index lands as many positions too early as the addressing lags; while aligned it replaces exactly that checkpoint, otherwise the checkpoint read at that index stays as it was |
| `QueueStore.LagLosesWrite` | contracts/cw-bitcoin/src/interface.rs:67-82 | With a lag, what is read at the index just written is what was there before |
| `QueueStore.Store.Prune` | contracts/cw-bitcoin/src/checkpoint.rs:1296-1314 | The prune loop computes the specified suffix |
| `QueueStore.Store.MaybePush` | contracts/cw-bitcoin/src/checkpoint.rs:1453-1490 | Pushing moves the index and appends a new building checkpoint when the set is usable; with a lag, whether it takes deposits is written elsewhere. When a push is due is `Guards.PushIsDue` |
| `QueueStore.Store.Handover` | contracts/cw-bitcoin/src/checkpoint.rs:1207-1289 | While aligned, freezing and handing over in place computes the specified handover |
| `QueueStore.Store.MaybeStep` | contracts/cw-bitcoin/src/checkpoint.rs:1181-1292 | While aligned, maybe_step in place computes the specified step, failures included. When it pushes is `Guards.PushIsDue` |
| `QueueStore.Store.Sign` | contracts/cw-bitcoin/src/checkpoint.rs:1513-1545 | sign in place computes the specified queue, failures included; with a lag the signed checkpoint lands elsewhere and the one at its index stays as it was |
| `QueueStore.Store.TakePendingConfirmed` | contracts/cw-bitcoin/src/app.rs:681-703 | The loop over confirmed indices computes the specified result, and with a lag the result of the same writes landing elsewhere |
| `QueueStore.Store.TakePendingCompleted` | contracts/cw-bitcoin/src/app.rs:711-740 | The two loops compute the specified result, and with a lag the result of the same writes landing elsewhere |
| `QueueStore.TakenAgain` | contracts/cw-bitcoin/src/app.rs:711-740 | With a lag of at least the number of completed checkpoints to take, taking pending transfers returns the right transfers but clears none of them, and the next call returns all of them once more |
| `QueueStore.RefreshLoop` | contracts/cw-bitcoin/src/checkpoint.rs:1278-1283 | The loop over excess inputs rebuilds each signing state |
| `BridgeContract.Contract.Execute` | contracts/cw-bitcoin/src/entrypoints/execute.rs:142-177 | A failing entry point leaves the state as it was; with position-relative set every entry point does exactly what its event does, and as written it does so whenever it succeeds and the head is still 0 |
| `BridgeContract.Serve` | contracts/cw-bitcoin/src/entrypoints/sudo.rs:12-75 | A contract with position-relative set that serves any sequence of events goes through the states of the run and so satisfies the run invariants |
| `BridgeContract.ServeAsWritten` | contracts/cw-bitcoin/src/interface.rs:67-82 | A contract with the addressing as written that serves any sequence of events is, as long as its head is 0 at the end, in the state of the run of the events it accepted, and so satisfies the run invariants |
| `BridgeContract.Contract.RelayDeposit` | contracts/cw-bitcoin/src/app.rs:243-340 | relay_deposit in place, failures included; with a lag an accepted deposit still enters the replay set while the building checkpoint reads as before |
| `BridgeContract.Contract.AddWithdrawal` | contracts/cw-bitcoin/src/app.rs:409-470 | add_withdrawal in place, failures included; with a lag the building checkpoint reads as before |
| `BridgeContract.Contract.Withdraw` | contracts/cw-bitcoin/src/entrypoints/execute.rs:142-177 | The loop over funds withdraws and burns each matching coin |
| `BridgeContract.Contract.RelayCheckpoint` | contracts/cw-bitcoin/src/app.rs:347-404 | relay_checkpoint in place, failures included |
| `BridgeContract.Contract.GiveMinerFee` | contracts/cw-bitcoin/src/app.rs:742-763 | give_miner_fee in place, failures included; with a lag the building checkpoint reads as before |
| `BridgeContract.Contract.ClockEndBlock` | contracts/cw-bitcoin/src/entrypoints/sudo.rs:12-75 | clock_end_block in place: take pending, pay, step, record the hash |
| `ScriptMeaning.ScriptMeans` | contracts/cw-bitcoin/src/signatory.rs:350-415 | Script compiler correctness: for a well-formed set and any witness, the compiled script leaves one true element exactly when the witness has one element per signatory and the truncated power of signatures valid for their own keys exceeds the truncated threshold |
| `ScriptMeaning.CodeRuns` | contracts/cw-bitcoin/src/signatory.rs:363-398 | After the code of n signatories the accumulator is the truncated power of their valid signatures |
| `Witnesses.WitnessMeans` | contracts/cw-bitcoin/src/threshold_sig.rs:292-319 | The to_witness stack is accepted exactly when the signature is signed and the signers' truncated power exceeds the truncated threshold; below 2^23 acceptance equals signed |
| `Witnesses.WitnessPairs` | contracts/cw-bitcoin/src/threshold_sig.rs:292-319 | to_witness puts every signature where the script meets its own key |
| `Witnesses.AcceptedIsBacked` | contracts/cw-bitcoin/src/signatory.rs:350-415 | Acceptance always implies real signed power above the threshold |
| `Witnesses.MarginIsAccepted` | contracts/cw-bitcoin/src/signatory.rs:429-432 | A margin of one truncation unit per signer above the threshold is always accepted |
| `Witnesses.SignedButRejected` | contracts/cw-bitcoin/src/signatory.rs:429-432 | For any three 33-byte keys in ascending order there is a set above 2^23 and an input that is signed while the script rejects it |
| `Witnesses.SignKeepsVerified` | contracts/cw-bitcoin/src/threshold_sig.rs:241-259 | sign only stores signatures valid for their own key |
| `RedeemScripts.RedeemScript` | contracts/cw-bitcoin/src/signatory.rs:350-415 | Appending the parts to one buffer assembles the compiled instructions |
| `RedeemScripts.FirstRuns` | contracts/cw-bitcoin/src/signatory.rs:372-380 | The first part leaves the signatory's weight or zero |
| `RedeemScripts.NextRuns` | contracts/cw-bitcoin/src/signatory.rs:389-397 | Every further part adds the signatory's weight if its signature is valid |
| `RedeemScripts.EndRuns` | contracts/cw-bitcoin/src/signatory.rs:400-415 | The end compares with the threshold and drops the commitment |
| `ScriptNums.TruncatedFits` | contracts/cw-bitcoin/src/signatory.rs:429-432 | The truncated total fits 23 bits, nothing is truncated exactly below 2^23, and from there on all 23 bits are used |
| `ScriptNums.NumRoundTrip` | contracts/cw-bitcoin/src/signatory.rs:157-160 | read_scriptint inverts the number encoding up to 31 bits |
| `Scripts.AssemblyRoundTrip` | contracts/cw-bitcoin/src/signatory.rs:229-244 | Reading the instructions of an assembled script returns them |
| `ScriptRoundTrip.ScriptRoundTrips` | contracts/cw-bitcoin/src/signatory.rs:123-281 | from_script inverts redeem_script exactly when every truncated number is 0 or above 16 and twice the power is below (2^24 - 1) truncation units; otherwise it fails |
| `ParsedScripts.ParsesExactly` | contracts/cw-bitcoin/src/signatory.rs:123-281 | Over all byte strings: from_script returns a set and a commitment if and only if the string is what redeem_script compiles from them and the set is canonical: valid keys, powers and threshold pushed as bytes, a total below 2^23 within a hundred of the sum of the powers and the closest one with its threshold |
| `ParsedScripts.SearchExactly` | contracts/cw-bitcoin/src/signatory.rs:259-272 | The bounded search ends at a total with the expected threshold if and only if that is the closest such total and near enough |
| `ScriptRoundTrip.ResolvedKeeps` | contracts/cw-bitcoin/src/signatory.rs:250-281 | The parsed set has the same keys, the truncated powers, the same threshold, and a total found within as many steps as there are signatories |
| `ScriptRoundTrip.SmallPowerFails` | contracts/cw-bitcoin/src/signatory.rs:157-160 | A power of one is pushed by an opcode the parser rejects |
| `ScriptRoundTrip.FullSetFails` | contracts/cw-bitcoin/src/signatory.rs:259-281 | A total of 2^24 - 1 is taken for 2^23 and the final comparison fails |
| `ScriptRoundTrip.SearchFinds` | contracts/cw-bitcoin/src/signatory.rs:259-272 | From below, the search stops at the least total with the expected threshold |
| `FromScripts.ReadScript` | contracts/cw-bitcoin/src/signatory.rs:123-281 | The parser loop, the search loop and the final checks compute the specification; an accepted script is the compiled one |
| `FromScripts.SearchLoop` | contracts/cw-bitcoin/src/signatory.rs:259-272 | The bounded search loop computes the specified total |
| `FromScripts.TakeRestLoop` | contracts/cw-bitcoin/src/signatory.rs:231-243 | The loop over further signatories computes the specified list |
| `HeaderRuns.RunOk` | contracts/cw-bitcoin/src/header.rs:249-379 | After any sequence of batches: consecutive heights, hash links, median times, targets by the retarget rule over the measured timespan, proof of work for every header but the trusted one, bounded length, and CURRENT_WORK = queued work plus all work ever popped by reorganisations |
| `HeaderRuns.ExtendedOk` | contracts/cw-bitcoin/src/header.rs:249-279 | An accepted batch strictly increases the total work before pruning and never replaces the first header |
| `HeaderRuns.PruneOk` | contracts/cw-bitcoin/src/header.rs:281-297 | Pruning keeps the chain valid and bounded and its subtraction never underflows |
| `HeaderRuns.RelayOk` | contracts/cw-bitcoin/src/header.rs:249-297 | Every batch keeps the invariant, and pruning never makes an accepted batch fail |
| `HeaderRuns.KeepBelowIs` | contracts/cw-bitcoin/src/header.rs:471-483 | Popping back to a height leaves exactly the headers below it |
| `HeaderAccepts.AddExactly` | contracts/cw-bitcoin/src/header.rs:249-379 | A batch is accepted if and only if it starts right above a queued header, differs from what it replaces, brings strictly more work than it removes, and every header of it rightly follows: next height, hash link, time above the median, the expected target, proof of work. Then the queue is the kept headers and the new ones, cut to the maximum length, with the accumulated work |
| `HeaderAccepts.RunMined` | contracts/cw-bitcoin/src/header.rs:302-379 | After any batches every queued header but the trusted one meets its own target |
| `HeaderInvariants.AddOneExactly` | contracts/cw-bitcoin/src/header.rs:302-379 | One header is accepted on a good chain if and only if its height, hash link, time, target and proof of work are right, all stated by positions |
| `HeaderInvariants.GetIsSearch` | contracts/cw-bitcoin/src/header.rs:583-604 | get_by_height agrees with a linear search by height and fails below the first header |
| `HeaderInvariants.MedianMeans` | contracts/cw-bitcoin/src/header.rs:486-535 | Exceeding the sixth of eleven sorted times means exceeding more than half of them |
| `HeaderInvariants.TargetBounds` | contracts/cw-bitcoin/src/header.rs:383-399 | Off retarget heights the target is unchanged; on them it is the one before times the measured timespan, cut to a factor of four each way, over the intended one, before rounding to the compact form and capping at the maximum |
| `Targets.RetargetBounds` | contracts/cw-bitcoin/src/header.rs:431-467 | No 256-bit overflow, at most four times the target, at least a quarter before rounding, never above the maximum, and before rounding the quotient of target times timespan by the intended timespan |
| `Targets.WorkMeans` | contracts/cw-bitcoin/src/header.rs:70-73 | The work of a target is 2^256 divided by the target plus one, rounded down |
| `Targets.CompactRoundsDown` | contracts/cw-bitcoin/src/header.rs:459-466 | Going through the compact form rounds down |
| `Targets.CompactKeeps` | contracts/cw-bitcoin/src/header.rs:459-466 | It loses less than one step of the mantissa, which has three bytes with a clear sign bit and no leading zero byte to spare |
| `Targets.MainnetIsMainnet` | contracts/cw-bitcoin/src/constants.rs:21-24 | The mainnet constants satisfy the hypotheses of the retarget bounds, and their maximum target is 0xffff times 2^208 |
| `HeaderStore.HeaderQueue.AddIntoIter` | contracts/cw-bitcoin/src/header.rs:249-297 | The in-place add computes the specified chain, failures included; what that chain is and when there is one is `HeaderAccepts.AddExactly` |
| `HeaderStore.HeaderQueue.VerifyAndAdd` | contracts/cw-bitcoin/src/header.rs:302-379 | The loop over new headers computes the specified chain and their work; each header is accepted as `HeaderInvariants.AddOneExactly` says |
| `HeaderStore.HeaderQueue.PopBackTo` | contracts/cw-bitcoin/src/header.rs:471-483 | The pop loop computes the specified prefix and the work taken off |
| `HeaderStore.HeaderQueue.ValidateTime` | contracts/cw-bitcoin/src/header.rs:486-535 | Collecting by height, sorting and comparing decides the median rule |
| `HeaderStore.HeaderQueue.PopFront` | contracts/cw-bitcoin/src/header.rs:281-297 | The prune loop drops the surplus and its work |
| `HeaderStore.HeaderQueue.constructor` | contracts/cw-bitcoin/src/header.rs:614-633 | The queue starts with the trusted header and its work |
| `HeaderStore.Serve` | contracts/cw-bitcoin/src/header.rs:223-240 | A queue fed with any sequence of batches goes through the states of the run and satisfies the invariant |

## Left out

- QueueStore.Store.Handover: once a checkpoint has been pruned under the addressing as written, the frozen and the next checkpoint land elsewhere; `Store.Set` says where, and the queue after the whole handover is not spelled out.
- QueueStore.Store.MaybeStep: the same, for a step that hands over after a prune.
- BridgeContract.Contract.Execute: as written, the state after a call that prunes or follows a prune is not spelled out; only that a failing call restores the state and that the head never moves back.
- BridgeContract.Contract.RelayDeposit: as written and after a prune, only the replay set and what the building checkpoint reads are stated, not the whole state.
- BridgeContract.Contract.AddWithdrawal: as written and after a prune, only what the building checkpoint reads is stated.
- BridgeContract.Contract.Withdraw: as written and after a prune, nothing is stated beyond its single withdrawals.
- BridgeContract.Contract.GiveMinerFee: as written and after a prune, only what the building checkpoint reads is stated.
- BridgeContract.Contract.ClockEndBlock: as written and after a prune, only `TakePendingCompleted`, which it starts with, is exact.
- BridgeContract.Serve: position-relative addressing only; `BridgeContract.ServeAsWritten` is the theorem for the addressing as written, up to the first prune.
- HeaderRuns.RunOk: accumulated work is an unbounded number; a wrap of the 256-bit counter is not modelled.
- Witnesses.WitnessMeans: the DER conversion of a stored signature is total, so its error path is not modelled.
- ScriptMeaning.ScriptMeans: script size and element size limits of Bitcoin are not modelled.
- Positions of stored deques are unbounded; the wrap of 32-bit deque positions is not modelled.
- The redeem scripts of the bridge are a parameter; `Spendable` relates each input to the set and commitment its script was made for, and the compiler is what to put for the parameter.
- Header, confirmation and Merkle checks of relayed transactions enter as one proven flag.
- The validator set, submitted keys, block time and the Bitcoin height enter each block as parameters; that block time is monotone is not needed.
- Offline signers and their punishment: only the read of the weakest signatory that can abort the step is modelled.
- The min-difficulty branch of the target computation, which is off on mainnet.
- `change_rates`, which is floating point and a query.
- `remove_expired` of the outpoint set, which nothing calls.
- The order in which excess inputs and outputs are carried over; only the multisets are claimed.
- Configuration updates, message and query dispatch, swap simulation, IBC memo building and schema generation: they only forward, store or format values and take part in none of the invariants.
- Cryptography and encodings: secp256k1, key derivation, the sighash algorithm, base64 and JSON.
- The wasm crate, which repeats the signatory and threshold code.
