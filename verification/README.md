# Dafny model of the ev-rs block pipeline

This project models the deterministic core of ev-rs and proves properties of it: the execution state
with its undo log, the invoker that runs nested calls between accounts, gas metering, the block loop,
the mempool and the block producer, committing to storage, the cache over the authenticated store,
and the chain index with its cache and its log queries.

`dafny verify dfyconfig.toml` checks all of it.

## How it is built

| module | models |
|---|---|
| Types, Gas, Programs | bytes, ids, errors; the gas counter; keys, scopes and unique ids; account code |
| ExecState | the overlay, the undo log, checkpoints and batches |
| Snapshot | what a call means when every call works on a private copy of the state |
| Invoker | the same calls on one shared, mutable state with one undo log |
| CallInduction, CallTree, CodeChanges | induction over every call tree; what a call tree can change; who can change an account's code |
| CallLaws, Payments, SystemCalls, Ownership | whose code a call runs and what it is told; what storage calls store; what funds do; registration and migration; whose code changes whose storage |
| Blocks, StfMachine, Phases, BlockLaws, SkipCount | transactions and blocks: meaning, the loops of the code, what each phase's failure does, laws; when the skip count adds up |
| Ordering, Pool, Mempool | priorities; the pool as a value and over whole runs; the pool as the code keeps it |
| Commit, Replay, Chain | state changes, commits, and why a commit between blocks cannot be noticed |
| Producer | producing blocks from the pool |
| StorageCache | the sharded read cache over the key-value database |
| ChainTables, ChainRuns | index rows and tables; listings and runs of stores |
| ChainIndex, StaleReads, Logs | the LRU cache over the tables; two reads it gets wrong; log queries |

Account code is an arbitrary deterministic strategy: a function from the replies it has received so far
to its next action, which returns after finitely many actions. Code is looked up in a table on every
call, so codes may call themselves and each other. Exec calls end because the call depth is limited to 64.

Main results, each for every account code, block, pool or run:

- The shared undo log refines private copies. A failed call, however deep and whichever transfer failed
  first, leaves overlay, undo log, events and id counter exactly as they were; only gas stays spent. The
  restore that `do_exec` cannot survive never fails.
- A storage key of an account changes only through writes that account made itself, and only after the
  account's own code, the one stored for it, has begun to run; ids handed out in a block by calls that
  were not rolled back all differ.
- The code of a called account is told who it is and who calls it; what it puts reads back from its own
  storage and from nowhere else, its events carry its name, and every storage charge is exact.
- Funds reach the called account: each asset account is told so by the payer, one after the other, and
  the first that fails stops the rest and undoes the call.
- The first phase of a transaction that fails gives the response, with what was done until then; a
  failing hook after the call gives the response while the call's writes stay.
- An account whose id is below the next account number changes its code only by a migration it asks
  for. An id that is not below it can be registered first and is then taken over when
  `create_account` arrives there: the exact condition is stated for every init code, and a lemma
  registers an account and creates over it.
- A proposal made for a gas limit above zero fits its block. The block then runs a prefix of the
  proposal, with the results of running those transactions one after the other; the producer
  finalizes exactly these, and the index pairs each with its own result. For a limit of zero this is
  false: a transaction that did not run leaves the pool and is indexed with the result of the one that
  did, which stays in the pool. The exact condition is stated.
- The executed and the skipped transactions add up to the block's for every use of gas within the limits
  exactly when no two of the limits can make the loop miscount; the condition is on the limits alone.
- Proposals go from the highest gas price down, and for one price from the lowest nonce up; ordered by
  age, from the oldest on. What is left waiting ranks lower or does not fit.
- Running blocks with a commit after each gives the same results as one long overlay run, as long as
  that one overlay has room; when it has not, the results can differ.
- The storage cache agrees with the database through every operation. The chain cache agrees with the
  tables through every read. Through a store it does so exactly when it holds nothing of that number
  that the block does not have, every cached receipt of the block finds no logs of its transaction in
  the tables but its own, and no other cached receipt loses logs. Two stores break it, each with its
  stale read: one over a used number, and one under a new number whose transaction was stored before.
- Blocks with new numbers, hashes and transactions all read back after any run of them.
- The log query, read through the cache, is the simple "number, then filter" of `eth_getLogs`
  (EIP-1474) over the tables whenever the cache agrees with them.

Where code and comments disagree the code is followed:

- `txs_skipped` counts a transaction passed over a second time when the loop later stops at the gas
  limit (`crates/app/stf/src/lib.rs:1083`, `1102`); `BlockLaws.SkipCountLaw` says by how
  much, `BlockLaws.SkippedTwice` and `SkipCount.FilledAfterSkip` show it.
- The environment's documentation speaks of a counter per transaction
  (`crates/app/sdk/core/src/lib.rs:134-141`); the counter runs through the whole block.
- A block gas limit of zero admits only transactions with gas limit zero, while the pool takes zero for
  "no limit" (`crates/app/mempool/src/pool.rs:230-267`).

## Model

| member | source | states |
|---|---|---|
| Gas.GasCounter.ConsumeGas | crates/app/stf/src/gas.rs:146-163 | charges with saturation; a refused charge leaves the counter as it was and is always out-of-gas |
| Gas.GasCounter.ConsumeGetGas | crates/app/stf/src/gas.rs:176-198 | charges a read by key and value size |
| Gas.GasCounter.ConsumeSetGas | crates/app/stf/src/gas.rs:210-228 | charges a write by key and value size |
| Gas.GasCounter.ConsumeRemoveGas | crates/app/stf/src/gas.rs:240-255 | charges a removal by key size |
| Gas.StorageChargesAreExact | crates/app/stf/src/gas.rs:146-255 | the true-number meaning of every storage charge, for keys and values of any length: refused if and only if the true sum is above a limit below the maximum, else rate times size is added; the maximal limit refuses nothing |
| Gas.SaturatesOnce | crates/app/stf/src/gas.rs:176-255 | saturating at each step equals saturating once at the end |
| ExecState.ExecutionState.Get | crates/app/stf/src/execution_state.rs:330-344 | overlay first, then the base |
| ExecState.ExecutionState.Set | crates/app/stf/src/execution_state.rs:347-390 | the new overlay and log entry, or an error that changes nothing; the cap counts new keys only |
| ExecState.ExecutionState.Remove | crates/app/stf/src/execution_state.rs:393-430 | a tombstone and its log entry, or an error that changes nothing |
| ExecState.ExecutionState.EmitEvent | crates/app/stf/src/execution_state.rs:234-241 | appends the event or refuses at the cap |
| ExecState.ExecutionState.PopEvents | crates/app/stf/src/execution_state.rs:244-251 | hands over the events and keeps the rest |
| ExecState.ExecutionState.NextUniqueObjectId | crates/app/stf/src/execution_state.rs:254-257 | counts from one |
| ExecState.ExecutionState.TakeCheckpoint | crates/app/stf/src/execution_state.rs:433-440 | marks lengths and counter without changing the state |
| ExecState.ExecutionState.Restore | crates/app/stf/src/execution_state.rs:443-464 | unwinds the log suffix, or refuses a mark beyond the present and changes nothing |
| ExecState.ExecutionState.ApplyBatch | crates/app/stf/src/execution_state.rs:471-547 | all operations or none |
| ExecState.RestoreUndoes | crates/app/stf/src/execution_state.rs:75-110 | restoring an earlier mark gives back the identical overlay, log, events and counter |
| ExecState.UndoesTransitive | crates/app/stf/src/execution_state.rs:443-464 | what can be undone step by step can be undone at once |
| ExecState.CheckpointsAreCopies | crates/app/stf/src/execution_state.rs:347-464 | over every sequence of sets, removes, batches, events, ids and nested checkpoints and restores, marks behave exactly as full copies of the state would |
| ExecState.AcceptedBatchIsOneByOne | crates/app/stf/src/execution_state.rs:471-547 | an accepted batch equals setting and removing one by one, repeated keys included |
| ExecState.OneByOneAcceptedIff | crates/app/stf/src/execution_state.rs:347-430 | one by one, all operations succeed if and only if the sizes are right and the distinct new keys find room |
| ExecState.BatchAcceptedAlikeIff | crates/app/stf/src/execution_state.rs:471-547 | the batch is accepted as one by one would be, if and only if there is a fault, or the count with repetitions fits, or the distinct keys do not fit |
| ExecState.NewKeysOnce | crates/app/stf/src/execution_state.rs:471-547 | without a repeated new key the two counts are equal |
| ExecState.RepeatedKeyRejected | crates/app/stf/src/execution_state.rs:471-547 | a repeated new key is counted twice: with one entry free a batch is refused that would succeed one by one |
| ExecState.BatchUndoes | crates/app/stf/src/execution_state.rs:471-547 | a batch can be undone; a refused one changes nothing |
| ExecState.OverlayNeverExceedsCap | crates/app/stf/src/execution_state.rs:347-547 | in every reachable state, restores included, the overlay stays within its cap |
| Programs.UniqueIdLayout | crates/app/stf/src/execution_scope.rs:39-67 | the 32 bytes: height, counter and zeros for a block, the transaction's own id with the counter in the last two bytes, all big-endian |
| Programs.UniqueIdsEqualIff | crates/app/stf/src/execution_scope.rs:39-67 | two ids are equal if and only if the counters are and both come from transactions with the same first 30 bytes or both from blocks of one height |
| Programs.NamespacesAreDisjoint | crates/app/stf/src/handlers.rs:115-146 | namespaces of different accounts never overlap and never meet code or number keys |
| Programs.IncreaseAddsOne | crates/app/sdk/core/src/lib.rs:84-94 | the byte loop adds one to the big-endian number and wraps at the end |
| Types.AccountDenotes | crates/app/sdk/core/src/lib.rs:65-71 | the account of a number is that number, big-endian |
| Invoker.Invoker.DoExec | crates/app/stf/src/invoker.rs:82-119 | refines the call on a private copy; on error the storage is identical to before; ends for every account code; the restore succeeds |
| Invoker.Invoker.HandleTransfers | crates/app/stf/src/invoker.rs:301-326 | all transfers in order through the asset accounts, stopping at the first error |
| Invoker.Invoker.ExecWithoutTransfers | crates/app/stf/src/invoker.rs:275-299 | refines the dispatch to system, storage or account code, one level deeper |
| Invoker.Invoker.Run | crates/app/stf/src/invoker.rs:81-136 | refines running account code that may catch errors and go on |
| Invoker.Invoker.Perform | crates/app/stf/src/invoker.rs:45-136 | refines one action: exec, query, event or unique id |
| Invoker.Invoker.DoQuery | crates/app/stf/src/invoker.rs:62-78 | a query answers as on a private copy and changes nothing but gas |
| Invoker.Invoker.RunQuery | crates/app/stf/src/invoker.rs:62-78 | refines running query code |
| Invoker.Invoker.EmitEvent | crates/app/stf/src/invoker.rs:121-130 | refines emitting under the executing account |
| Invoker.Invoker.IssueId | crates/app/stf/src/invoker.rs:132-135 | refines issuing an id; the counter moves even when the id is refused |
| Invoker.Invoker.CreateAccount | crates/app/stf/src/invoker.rs:328-360 | refines creating an account under the next number |
| Invoker.Invoker.RegisterAccountAtId | crates/app/stf/src/invoker.rs:367-400 | refines registering at a given id, charged, and nothing at all when the account already has code |
| Invoker.Invoker.SystemExec | crates/app/stf/src/handlers.rs:42-109 | refines the system calls |
| Invoker.Invoker.Migrate | crates/app/stf/src/handlers.rs:65-105 | refines switching the code of the sender and running the migration |
| Invoker.Invoker.StorageExec | crates/app/stf/src/handlers.rs:115-146 | charges first, then writes under the executing account |
| Invoker.Invoker.ReadStorage | crates/app/stf/src/handlers.rs:148-168 | reads any account's namespace, then charges |
| Invoker.Invoker.CodeIdOf | crates/app/stf/src/runtime_api_impl.rs:9-19 | the code id an account has in the state |
| Invoker.Invoker.NextAccountNumber | crates/app/stf/src/runtime_api_impl.rs:36-50 | reads, increases and writes the last account number |
| CallInduction.DoExecIn | crates/app/stf/src/invoker.rs:82-119 | any relation closed under the single effects and rollback holds across every call tree |
| CallInduction.RunIn | crates/app/stf/src/invoker.rs:81-136 | the same across any account code |
| CallInduction.DoQueryGrows | crates/app/stf/src/invoker.rs:62-78 | queries only add to the gas used |
| CallTree.EvolutionIsClosed | crates/app/stf/src/invoker.rs:82-119 | across every call tree gas only grows and every change is explained by effects that were not rolled back |
| CallTree.OnlyTheOwnerWrites | crates/app/stf/src/handlers.rs:115-146 | a key in an account's namespace that reads differently was written by that account while it was executing |
| CallTree.SurvivingIdsDiffer | crates/app/stf/src/invoker.rs:132-135 | ids issued by calls that were not rolled back are pairwise distinct |
| CodeChanges.CallKeepsCode | crates/app/stf/src/handlers.rs:42-109 | whatever a call does, an account with code and an id below the next number keeps its code unless it asked for a migration that survived or the numbers went round |
| CodeChanges.BlockKeepsCode | crates/app/stf/src/handlers.rs:42-109 | the same over a whole block |
| CodeChanges.CreateSetsCode | crates/app/stf/src/invoker.rs:328-360 | creation gives its code to the account of the next number, whether or not that account has code, and to no other; then that code's init runs for the account |
| CodeChanges.CreateTakesCodeIff | crates/app/stf/src/invoker.rs:328-360 | an existing account loses its code to a creation, whatever the init code, if and only if its id is the next account number |
| CodeChanges.CreatedKeepsCode | crates/app/stf/src/invoker.rs:328-360 | whatever the init code does, the account of the next number ends with the created code unless it migrated or the numbers went round |
| CodeChanges.RegisteredThenTaken | crates/app/stf/src/invoker.rs:328-400 | an account registered at the next number with one code ends with another one once the creation arrives there |
| CallLaws.DispatchRuns | crates/app/stf/src/invoker.rs:250-299 | a call runs the code stored for the called account, told that it is that account, that the caller sent it and with which funds, one level deeper; without code the call fails and changes nothing |
| CallLaws.CalleePuts | crates/app/stf/src/invoker.rs:250-299 | what the code of a called account puts reads back from that account's storage; every key of the caller, and every other, reads as before |
| CallLaws.CalleeEmits | crates/app/stf/src/invoker.rs:121-130 | an event carries the name of the account whose code emits it, after those before it |
| CallLaws.CalleeGetsId | crates/app/stf/src/invoker.rs:132-135 | code gets the id of the next counter value in the scope of the call tree |
| CallLaws.PutLaw | crates/app/stf/src/handlers.rs:119-132 | a put succeeds if and only if it comes without funds, is affordable and finds room; then the caller's key reads the value, all else reads as before and the charge is exact; else nothing changes but gas |
| CallLaws.DeleteLaw | crates/app/stf/src/handlers.rs:133-142 | the same for a delete, after which the key reads as absent |
| CallLaws.FetchLaw | crates/app/stf/src/handlers.rs:148-168 | a read replies with what is stored under the account's key if and only if its exact charge is affordable |
| CallLaws.PutThenFetch | crates/app/stf/src/handlers.rs:115-168 | what an account puts, any account fetches |
| CallLaws.QueryRuns | crates/app/stf/src/invoker.rs:62-78 | a query runs the query code of the account, told that the runtime sent it without funds |
| CallLaws.QueryReads | crates/app/stf/src/invoker.rs:62-78 | query code that reads a key gets what is stored there |
| Payments.ReporterLaw | crates/app/stf/src/invoker.rs:275-299 | an asset account that reports what it is told reports the caller and the request, or fails exactly when no event can be made |
| Payments.TransfersReport | crates/app/stf/src/invoker.rs:301-326 | with asset accounts that report, the transfers succeed if and only if all reports can be made; then there is one for each fund, in order, from its asset account, told by the payer to pay the account that is called |
| Payments.TransfersStop | crates/app/stf/src/invoker.rs:301-326 | the transfer that fails is the last: no asset account after it is told anything, and its error is the outcome |
| Payments.PaymentsArrive | crates/app/stf/src/invoker.rs:82-119 | after a successful call, whatever the callee did, all its funds have been reported so |
| Payments.UnpaidCallFails | crates/app/stf/src/invoker.rs:82-119 | a call whose funds cannot all be paid fails and changes nothing but gas |
| SystemCalls.CreationCall | crates/app/stf/src/handlers.rs:47-59 | creation by a call sets the code of the account of the next number, runs that code's init told of account, caller and funds, and replies with both |
| SystemCalls.RegisteredStays | crates/app/stf/src/invoker.rs:373-379 | registering an account that has code does nothing |
| SystemCalls.RegistrationRuns | crates/app/stf/src/invoker.rs:367-400 | registering one that has none charges exactly, sets its code and nothing else, and runs the given code's init told of account and caller |
| SystemCalls.RegistrationCall | crates/app/stf/src/handlers.rs:60-64 | the call registers the account, code and message it names |
| SystemCalls.MigrationRefused | crates/app/stf/src/handlers.rs:65-97 | the error for another account, a missing account, a missing code and the same code; nothing changes |
| SystemCalls.MigrationRuns | crates/app/stf/src/handlers.rs:65-105 | the asking account's code is switched, nothing else, and the runtime then calls it with message and funds |
| SystemCalls.MigrationCall | crates/app/stf/src/handlers.rs:65-105 | so the new code runs the message, sent by the runtime |
| SystemCalls.ForeignMigrationCall | crates/app/stf/src/handlers.rs:73-75 | nobody migrates another account |
| Ownership.CallRunsOwner | crates/app/stf/src/invoker.rs:82-119 | a call that changes an account's storage has run code of that account before, even when the account itself is the caller |
| Ownership.CallRunsOwnersCode | crates/app/stf/src/invoker.rs:82-119 | for an account with code and an id below the next number it was the very code the account had, unless it migrated or the numbers went round |
| Ownership.BlockRunsOwner | crates/app/stf/src/lib.rs:1059-1119 | the same over a whole block for every account that is no system account and sends none of its transactions |
| Phases.SenderFails | crates/app/stf/src/lib.rs:1324-1328 | a sender that cannot be resolved: its error is the response, with the events, gas and state of the resolution |
| Phases.BootstrapFails | crates/app/stf/src/lib.rs:1266-1334 | a bootstrap that fails, in the registration or in the hook after it, likewise |
| Phases.ValidationFails | crates/app/stf/src/lib.rs:1336-1343 | a validation that fails likewise: nothing is executed; it started from the resolved sender, or from a bootstrap without its events |
| Phases.RecipientFails | crates/app/stf/src/lib.rs:1298-1305 | a recipient that cannot be resolved likewise: nothing is called |
| Phases.CallAnswers | crates/app/stf/src/lib.rs:1298-1355 | the sender makes the call; the response is the call's, or the error of the hook after it; the state is what the hook left |
| Phases.RefusedCallStays | crates/app/stf/src/lib.rs:1306-1312 | a hook that only refuses replaces the response while the call's writes, events and gas stay |
| Phases.BlockEnds | crates/app/stf/src/lib.rs:1059-1119 | the hooks run as the runtime around the transactions, without gas; each one's events are its own |
| StfMachine.BootstrapSenderPhase | crates/app/stf/src/lib.rs:1266-1288 | refines the bootstrap, which is not rolled back and whose events are dropped |
| StfMachine.PreparePhases | crates/app/stf/src/lib.rs:1254-1296 | refines resolving, bootstrapping and validating the sender |
| StfMachine.ExecuteTxPhase | crates/app/stf/src/lib.rs:1298-1313 | refines the call and the hook after it; a failing hook replaces the response and rolls nothing back |
| StfMachine.ApplyTx | crates/app/stf/src/lib.rs:1315-1355 | refines one transaction with its own gas limit |
| StfMachine.ApplyTxs | crates/app/stf/src/lib.rs:1071-1105 | the imperative loop is the recursive block loop, skips and early stop included |
| StfMachine.ApplyTxsWithMetrics | crates/app/stf/src/lib.rs:1135-1176 | the second loop is the same recursive loop, with one metric for each executed transaction |
| StfMachine.RunHook | crates/app/stf/src/lib.rs:1207-1240 | refines the hooks at the two ends of a block |
| StfMachine.ApplyBlock | crates/app/stf/src/lib.rs:1059-1119 | refines the block on private copies |
| StfMachine.ApplyBlockWithMetrics | crates/app/stf/src/lib.rs:1121-1205 | the same result and state as without metrics, and one metric for each executed transaction |
| BlockLaws.ApplyTxLaw | crates/app/stf/src/lib.rs:1315-1355 | no transaction uses more gas than its limit; all its changes are explained |
| BlockLaws.BlockGasLaw | crates/app/stf/src/lib.rs:1071-1105 | an increasing selection runs, each within its limit; the block total is within the block limit, and exact below the maximum |
| BlockLaws.ResultSumsFit | crates/app/server/src/dev.rs:409 | below the maximal block limit the plain sums of the results' gas equal the block's count and stay within its limit |
| BlockLaws.ResultSumOverflows | crates/app/server/src/dev.rs:409 | at the maximal limit the plain sum of two results can pass `u64::MAX` |
| BlockLaws.SkipCountLaw | crates/app/stf/src/lib.rs:1082-1105 | the exact skip count; executed plus skipped is the total if and only if the loop did not stop after passing one over |
| BlockLaws.SkippedTwice | crates/app/stf/src/lib.rs:1082-1105 | of two transactions one runs, one is passed over, and two count as skipped |
| BlockLaws.ZeroLimitCountIff | crates/app/stf/src/lib.rs:1082-1105 | with limit zero executed plus skipped is the total if and only if none is free or the first is |
| SkipCount.AddsUpForAllIff | crates/app/stf/src/lib.rs:1078-1105 | for a limit above zero, executed plus skipped is the total for every executor that keeps transactions within their limits if and only if no transaction can be passed over and one behind it, with a smaller limit, then use up the block's gas, which is decided by sums of the limits |
| SkipCount.AddsUpUnless | crates/app/stf/src/lib.rs:1078-1105 | one half, for each executor and starting state |
| SkipCount.MiscountsFor | crates/app/stf/src/lib.rs:1078-1105 | the other half: two such limits and the gas use that makes the loop miscount |
| SkipCount.BlockAddsUp | crates/app/stf/src/lib.rs:1078-1105 | the same for the results of a block |
| SkipCount.FilledAfterSkip | crates/app/stf/src/lib.rs:1082-1105 | above zero too: a transaction too large and one behind it that fills the block give one result and two skips |
| BlockLaws.RunAllAt | crates/app/stf/src/lib.rs:1078-1097 | running in turn gives each transaction its own result on what the earlier ones left |
| BlockLaws.FittingBlockRunsPrefix | crates/app/stf/src/lib.rs:1078-1105 | when the limits fit, a prefix runs with the results and state of running it in turn, and the rest is the skip count |
| BlockLaws.ZeroLimitRuns | crates/app/stf/src/lib.rs:1078-1105 | with limit zero exactly the first free transaction runs, on the state the block started from |
| BlockLaws.ZeroLimitPrefixIff | crates/app/stf/src/lib.rs:1078-1105 | with limit zero a prefix runs if and only if none is free or the first is |
| BlockLaws.BlockEvolves | crates/app/stf/src/lib.rs:1059-1119 | every change a whole block makes is explained by surviving effects |
| BlockLaws.BlockIdsDiffer | crates/app/stf/src/execution_scope.rs:39-67 | all surviving ids of a block differ across begin, transactions and end |
| BlockLaws.BlockFrame | crates/app/stf/src/handlers.rs:115-146 | what a block changes in an account's namespace that account wrote |
| Ordering.OrderingsAreTotal | crates/app/mempool/src/traits.rs:150-205 | both priority orders are total; which way they go is stated by `Pool.DearestFirst` and `Pool.OldestFirst` |
| Mempool.Mempool.Add | crates/app/mempool/src/pool.rs:100-136 | refuses a known hash, else queues, indexes and numbers the transaction |
| Mempool.Mempool.NextSenderSequence | crates/app/mempool/src/pool.rs:141-147 | hands out the sender's next number |
| Mempool.Mempool.Remove | crates/app/mempool/src/pool.rs:162-182 | forgets the hash and its sender entry; the queue keeps a stale entry |
| Mempool.Mempool.RemoveMany | crates/app/mempool/src/pool.rs:185-189 | removes one after the other |
| Mempool.Mempool.SelectWithGasBudget | crates/app/mempool/src/pool.rs:230-267 | priority order within both limits; live entries are conserved; what outranks the last one taken did not fit; if there was room, nothing left fits |
| Mempool.Mempool.Propose | crates/app/mempool/src/pool.rs:279-285 | a selection, marked as in flight |
| Mempool.Mempool.Finalize | crates/app/mempool/src/pool.rs:292-310 | removes the executed ones and queues the other ones in flight again |
| Mempool.Mempool.GetSenderTxs | crates/app/mempool/src/pool.rs:320-325 | exactly the sender's live hashes, once each |
| Mempool.Mempool.Clear | crates/app/mempool/src/pool.rs:328-335 | empties everything |
| Pool.RunsLoseNothing | crates/app/mempool/src/pool.rs:162-310 | in every run, with removals and finalizations of any hashes, each live transaction is queued or in flight and the sender index is exact |
| Pool.SenderTxsFollowHistory | crates/app/mempool/src/pool.rs:123-325 | in every run a sender's list is its accepted adds in order, less what was removed or finalized since, and nothing after a clear |
| Pool.OrderlyRunsAreExact | crates/app/mempool/src/pool.rs:100-310 | in every run without removals the live hashes are the disjoint union of queued and in-flight ones, one entry each |
| Pool.InFlightUntilFinalized | crates/app/mempool/src/pool.rs:279-310 | a proposed transaction stays in flight until finalize or clear |
| Pool.NeverProposedTwice | crates/app/mempool/src/pool.rs:279-310 | in every careful run, removals included, two proposals without a finalize between them share no transaction |
| Pool.CarefulRunsAreLiveOnce | crates/app/mempool/src/pool.rs:100-310 | in every run that adds nothing still queued or in flight, each live hash has at most one queue entry and none while in flight |
| Pool.StepKeepsLiveOnce | crates/app/mempool/src/pool.rs:100-310 | a step keeps that if and only if it is careful |
| Pool.OrderlyRunsAreCareful | crates/app/mempool/src/pool.rs:100-310 | runs without removals that finalize in-flight hashes only are careful |
| Pool.ProposalIsNew | crates/app/mempool/src/pool.rs:279-285 | a proposal names each transaction once and none that is in flight |
| Pool.UnlimitedProposalTakesAll | crates/app/mempool/src/pool.rs:230-285 | without limits exactly the waiting transactions are proposed and the queue is empty |
| Pool.ProposalFollowsPriority | crates/app/mempool/src/pool.rs:230-267 | transactions are proposed in priority order when entries carry their keys |
| Pool.CarefulRunsMatchKeys | crates/app/mempool/src/pool.rs:100-310 | in every careful run queued entries carry the keys of their transactions |
| Pool.RunsFollowPriority | crates/app/mempool/src/pool.rs:100-310 | every proposal of a careful run is in the order of its transactions' priorities |
| Pool.DearestFirst | crates/app/mempool/src/traits.rs:150-185 | ordered by gas price, every proposal of a careful run goes from the highest price down and for one price from the lowest nonce up |
| Pool.OldestFirst | crates/app/mempool/src/traits.rs:187-205 | ordered by age, from the oldest timestamp up |
| Pool.LeftOutIsCheaper | crates/app/mempool/src/pool.rs:230-267 | without a gas limit nothing left waiting has a higher price than anything proposed |
| Pool.LeftOutIsNewer | crates/app/mempool/src/pool.rs:230-267 | nor, ordered by age, an older timestamp |
| Pool.LeftOutDoesNotFit | crates/app/mempool/src/pool.rs:230-267 | with room for more transactions, what is left waiting would pass the gas budget |
| Pool.FinalizedKeepsExact | crates/app/mempool/src/pool.rs:292-310 | finalizing in-flight hashes keeps the disjoint union |
| Pool.FinalizedKeepsNoneLost | crates/app/mempool/src/pool.rs:292-310 | finalizing any hashes loses no live transaction |
| Pool.SenderTxsExact | crates/app/mempool/src/pool.rs:320-325 | the sender's list has precisely the sender's live hashes, each once |
| Pool.AddedSenderTxs | crates/app/mempool/src/pool.rs:123-147 | an added transaction goes to the end of its sender's list, under an unused number although the counter resets |
| Pool.RemovedSenderTxs | crates/app/mempool/src/pool.rs:162-182 | a removed one leaves its sender's list; the order of the others stays |
| Pool.AddKeepsLiveOnceIff | crates/app/mempool/src/pool.rs:100-136 | adding keeps one queue entry for each live hash if and only if no entry of that hash is left over and it is not in flight |
| Pool.ReaddedTwice | crates/app/mempool/src/pool.rs:177-179 | removing and adding again leaves two queue entries for one hash |
| Commit.IntoChanges | crates/app/stf/src/execution_state.rs:276-296 | strictly sorted by key, exactly the overlay |
| Commit.ChangesAreDetermined | crates/app/stf/src/execution_state.rs:276-296 | the change list is a function of the overlay, whatever the iteration order |
| Commit.LessIff | crates/app/stf/src/execution_state.rs:276-296 | the order of the changes is the lexicographic one of their keys |
| Commit.MockStorage.Batch | crates/storage/src/mock.rs:34-52 | applies the operations in order |
| Commit.LastOperationWins | crates/storage/src/mock.rs:34-52 | after a batch a key reads as its last operation says, else as before |
| Commit.CommitAnswersAsOverlay | crates/app/server/src/dev.rs:858-866 | after a commit the base answers every read as the overlay did |
| Replay.DoExecAlike | crates/app/stf/src/invoker.rs:82-119 | from states that read alike a call gives the same reply, gas, events, ids and again states that read alike |
| Chain.BlockAlike | crates/app/stf/src/lib.rs:1059-1119 | from states that read alike a block gives the same results and again states that read alike, unless the larger overlay runs full |
| Chain.BatchCommits | crates/app/server/src/dev.rs:858-866 | the committed batch is the overlay laid over the store |
| Chain.CommitsAreInvisible | crates/app/stf/src/execution_state.rs:276-344 | a chain of blocks with commits gives, block by block, the results of one overlay carried through, and ends in a store that reads like that overlay; it never runs out of overlay room unless the carried overlay does |
| Chain.FullOverlayShows | crates/app/stf/src/execution_state.rs:347-390 | once the carried overlay is full the results can differ: a write that the chain takes is refused |
| Producer.DevConsensus.ProduceBlockWithTxs | crates/app/server/src/dev.rs:380-526 | runs the block and commits its overlay; the height advances even on failure, the hash only on success; a commit that fails after the batch leaves the changes in the storage; the gas reported is the sum of the results and within a limit below the maximum |
| Producer.DevConsensus.ProduceBlockFromMempool | crates/app/server/src/dev.rs:603-652 | exactly the first `tx_count` of the proposal leave the pool, and with a gas limit above zero they are the ones that ran; the rest is queued again, on failure all of it, even when its changes are stored already; no live transaction is lost |
| Producer.ProposalFits | crates/app/mempool/src/pool.rs:230-285 | a proposal for a gas limit above zero, saturating or not, fits a block of that limit |
| Producer.DeliveryLaw | crates/app/server/src/dev.rs:617-649 | the block of a proposal runs no more than was proposed, and a prefix when the limit is above zero |
| Producer.ZeroLimitRunsAnother | crates/app/server/src/dev.rs:617-649 | with gas limit zero and paid transactions before the first free one of a proposal, that one runs alone and stays in the pool, and the first of the proposal leaves the pool without having run |
| StorageCache.CreateStorageKey | crates/storage/src/types.rs:170-181 | keys of at most 254 bytes get a 256-byte storage key, longer ones an error |
| StorageCache.StorageKeyLayout | crates/storage/src/types.rs:170-181 | length in two bytes, low byte first, then the key, then zeros |
| StorageCache.StorageKeysAreInjective | crates/storage/src/types.rs:170-181 | different keys never share a storage key, padding notwithstanding |
| StorageCache.ShardedDbCache.Get | crates/storage/src/cache.rs:208-210 | reads the shard chosen by the first byte |
| StorageCache.ShardedDbCache.Insert | crates/storage/src/cache.rs:137-149 | inserts after dropping half of a full shard, any half |
| StorageCache.ShardedDbCache.Invalidate | crates/storage/src/cache.rs:230-232 | drops the key from its shard |
| StorageCache.CapacityHoldsIff | crates/storage/src/cache.rs:137-149 | insertion keeps every shard within its capacity if and only if the capacity is at least two |
| StorageCache.QmdbStorage.Get | crates/storage/src/qmdb_impl.rs:505-544 | answers as the uncached read, leaves the key cached, and keeps the cache right, absent entries included |
| StorageCache.QmdbStorage.GetMany | crates/storage/src/qmdb_impl.rs:276-324 | every answer is the uncached one, in order; too many keys or a long key are refused |
| StorageCache.QmdbStorage.PrepareBatch | crates/storage/src/qmdb_impl.rs:341-385 | the first fault in order, or one update for each operation |
| StorageCache.QmdbStorage.ApplyBatch | crates/storage/src/qmdb_impl.rs:420-464 | writes all or nothing and keeps the cache right by dropping what was written |
| StorageCache.QmdbStorage.PrefetchKeys | crates/storage/src/cache.rs:260-293 | fills the cache with what the database holds and keeps it right; with room for the keys every key that can be fetched is cached and nothing goes |
| StorageCache.BatchReadsLikeStore | crates/storage/src/qmdb_impl.rs:420-464 | after a batch the database reads as the plain store after the same operations |
| StorageCache.BatchKeepsOthers | crates/storage/src/qmdb_impl.rs:420-464 | a batch leaves the keys it does not name as they were |
| StorageCache.InvalidateAgrees | crates/storage/src/cache.rs:230-232 | each key dropped from the cache leaves one key fewer stale |
| ChainTables.BuildIndexData | crates/rpc/chain-index/src/integration.rs:179-250 | row i is made of transaction i and result i with the running gas total; as many rows as the shorter list has |
| ChainTables.RowLogs | crates/rpc/chain-index/src/integration.rs:200-227 | log j of row i is made of event j of result i, and there are no others |
| ChainTables.RowsPairOwnResults | crates/rpc/chain-index/src/integration.rs:200-227 | in a block whose limits fit, each receipt carries gas, logs and status of its own transaction |
| ChainTables.ZeroLimitRow | crates/rpc/chain-index/src/integration.rs:200-227 | with limit zero the row of the first transaction carries gas, logs and status of the first free one |
| ChainTables.RowSumsFit | crates/rpc/chain-index/src/integration.rs:192-202 | below the maximal block limit the running and the total gas of the rows stay within the limit |
| ChainTables.RowsAreConsistent | crates/rpc/chain-index/src/integration.rs:179-250 | built rows have the block's number and hash, indexes in order and one receipt for each transaction |
| ChainTables.StoredBlocks | crates/rpc/chain-index/src/index.rs:575-613 | a stored block reads back, other blocks as before |
| ChainTables.StoredTxs | crates/rpc/chain-index/src/index.rs:575-651 | stored transactions read back with the joined block hash, those stored earlier under that number are gone, all others read as before |
| ChainTables.StoredReceipts | crates/rpc/chain-index/src/index.rs:575-651 | stored receipts read back with joined hash and gas price, and with all the logs the tables have of the transaction; other receipts lose the logs they had under that number |
| ChainTables.StoredLogs | crates/rpc/chain-index/src/index.rs:741-758 | the logs read for a transaction are those it left under other numbers, then those of all its receipts in the block |
| ChainTables.LogsMatchIff | crates/rpc/chain-index/src/index.rs:741-758 | a stored receipt reads back with its own logs if and only if its transaction has no logs under another number and no earlier receipt of it in the block has any |
| ChainTables.StoredLogsKeptIff | crates/rpc/chain-index/src/index.rs:587-600 | every log stays in the block of its transaction if and only if no transaction of the block has logs under another number |
| ChainTables.StoredWellKept | crates/rpc/chain-index/src/index.rs:575-651 | every store keeps the tables consistent, repeated transactions included |
| ChainRuns.StoredLists | crates/rpc/chain-index/src/index.rs:460-474 | a stored block lists its transactions in order, a repeated one where it stands last |
| ChainRuns.StoredListsOthers | crates/rpc/chain-index/src/index.rs:460-474 | other blocks list what they listed, less the transactions the stored block took over |
| ChainRuns.ListingIsUnique | crates/rpc/chain-index/src/index.rs:460-474 | a block has one listing |
| ChainRuns.RunsReadBack | crates/rpc/chain-index/src/index.rs:396-652 | after any run of new blocks every one of them reads back as stored, listing included |
| ChainIndex.Put | crates/rpc/chain-index/src/cache.rs:96-104 | the entry is in and the size stays within capacity; some other entry may go, but none while there is room |
| ChainIndex.PutEach | crates/rpc/chain-index/src/cache.rs:145-158 | each entry left was put last under its key or was there before; with room for all of them none goes |
| ChainIndex.ChainCache.SetLatestBlockNumber | crates/rpc/chain-index/src/cache.rs:88-93 | keeps the greatest number seen |
| ChainIndex.ChainCache.InsertBlock | crates/rpc/chain-index/src/cache.rs:96-104 | block and number are in under their keys, nothing goes while there is room, latest raised |
| ChainIndex.ChainCache.InsertBlockWithData | crates/rpc/chain-index/src/cache.rs:145-158 | the block and the last transaction and receipt are in; every entry is the last one put under its key or was there before; with room nothing goes |
| ChainIndex.PersistentChainIndex.Initialize | crates/rpc/chain-index/src/index.rs:148-156 | a fresh cache learns the latest block from the tables |
| ChainIndex.PersistentChainIndex.LatestBlockNumber | crates/rpc/chain-index/src/index.rs:397-402 | the table's latest when the cache is current |
| ChainIndex.PersistentChainIndex.GetBlock | crates/rpc/chain-index/src/index.rs:404-426 | equals the table read under any eviction and keeps the cache right; how it moves the cached latest |
| ChainIndex.PersistentChainIndex.GetBlockByHash | crates/rpc/chain-index/src/index.rs:428-439 | the block with that hash if and only if one is stored |
| ChainIndex.PersistentChainIndex.GetBlockNumber | crates/rpc/chain-index/src/index.rs:441-458 | the number of the block with that hash if and only if one is stored |
| ChainIndex.PersistentChainIndex.GetBlockTransactions | crates/rpc/chain-index/src/index.rs:460-474 | exactly the block's transactions, each once, in the order of their indexes |
| ChainIndex.PersistentChainIndex.GetTransaction | crates/rpc/chain-index/src/index.rs:476-501 | equals the joined table read and keeps the cache right |
| ChainIndex.PersistentChainIndex.GetReceipt | crates/rpc/chain-index/src/index.rs:521-552 | equals the joined table read with logs and keeps the cache right |
| ChainIndex.PersistentChainIndex.StoreBlock | crates/rpc/chain-index/src/index.rs:575-651 | writes the rows and keeps them consistent; afterwards the cache is right if and only if it holds nothing of that number that the block does not have and every cached receipt has just the logs the tables have; with room in the cache that is so if and only if it held nothing such before and the block's receipts read back with their own logs; the latest block stays known if and only if the number does not go back |
| ChainIndex.PersistentChainIndex.IndexBlock | crates/rpc/chain-index/src/integration.rs:408-421 | building and storing a block with a new number, hash and transactions keeps the cache right and the block reads back; the latest block stays known if and only if the number is above all others |
| StaleReads.StaleRead | crates/rpc/chain-index/src/index.rs:575-651 | two blocks stored under one number: the first one's transaction is served from the cache although no table has it |
| StaleReads.StaleReceipt | crates/rpc/chain-index/src/index.rs:587-651 | a transaction stored again under a new number and hash, now without logs: the cache serves none, the tables have those of the first block |
| ChainIndex.NewNumberIsNotStaleIff | crates/rpc/chain-index/src/index.rs:587-600 | under a block number not stored before nothing in the cache is stale if and only if the cached receipts of the block's transactions find no logs but their own |
| ChainIndex.TxsAgreeIff | crates/rpc/chain-index/src/index.rs:644-646 | after the cache is filled its transactions are right if and only if those of that number are all in the block |
| ChainIndex.ReceiptsAgreeIff | crates/rpc/chain-index/src/index.rs:644-646 | its receipts are right if and only if each is of the block and finds just its own logs in the tables, or is of another block and none of its logs is deleted |
| ChainIndex.NumbersAgreeIff | crates/rpc/chain-index/src/index.rs:644-646 | the numbers by hash are right if and only if only the block's own hash leads to its number |
| ChainIndex.LatestStaysGreatest | crates/rpc/chain-index/src/index.rs:636-640 | the recorded latest block is the greatest if and only if no stored number is above the new one |
| Logs.ChainStateProvider.GetLogsForBlockRange | crates/rpc/chain-index/src/provider.rs:640-746 | reading blocks and receipts through a cache that is right, the nested loops return exactly the numbered logs of the range in the tables that match, or the error for an inverted range, a range above 1000 blocks or more than 10000 matches; the cache stays right |
| Logs.ChainStateProvider.ScanBlock | crates/rpc/chain-index/src/provider.rs:667-743 | one block: its matching logs appended, or more than the limit would match |
| Logs.ScanReceipt | crates/rpc/chain-index/src/provider.rs:680-740 | one receipt: the index counts every log, matching or not; its matching logs appended, or more than the limit would match |
| Logs.Accepts | crates/rpc/chain-index/src/provider.rs:681-724 | address and topic filters as a predicate |
| Logs.TopicsMatchLoop | crates/rpc/chain-index/src/provider.rs:698-719 | every topic position asked for exists and matches |
| Logs.FilterKeepsNumbers | crates/rpc/chain-index/src/provider.rs:640-746 | a filter keeps exactly the matching logs, with the index they have without it |
| Logs.ReturnedIff | crates/rpc/chain-index/src/provider.rs:681-724 | a log is returned if and only if its address is asked for and at every position asked for it has the one topic, or one of the topics |
| Logs.NoFilterKeepsAll | crates/rpc/chain-index/src/provider.rs:640-746 | without a filter every log is returned |
| Logs.StoredLogAt | crates/rpc/chain-index/src/provider.rs:667-743 | log j of transaction i comes after all logs of the transactions before it, with its place as its index, and names block, transaction and contents |
| Logs.StoredBlockLogs | crates/rpc/chain-index/src/provider.rs:667-743 | the logs of a stored block are those of the receipts it was stored with, numbered in order |

## Left out

- Account code: the SDK, its macros, collections and standard modules; account code is an arbitrary strategy that halts.
- Codecs of messages and requests, hashing (block hash, keccak, Merkle roots), validation of code ids: parameters of the model.
- Invoker.Invoker.DoQuery: a query is one program of reads; nested queries are flattened because the code puts no bound on their depth.
- Invoker.Invoker.RunQuery: queries to other accounts are code look-ups and reads, for the same reason.
- ExecState.ExecutionState.NextUniqueObjectId: the counter does not overflow in the model.
- CallTree.SurvivingIdsDiffer: assumes the id counter has not passed 2^64 - 1; the overflow of the counter is not modelled.
- BlockLaws.BlockIdsDiffer: assumes the same of the counter at the end of the block.
- Ownership.BlockRunsOwner: says nothing of accounts that send a transaction of the block; the programs that resolve its recipient and follow its call act as the sender without being its code.
- Ownership.CallRunsOwnersCode: assumes that code ids survive their encoding, and says nothing once the account migrated or the account numbers went round.
- Chain.CommitsAreInvisible: says nothing once the carried overlay has run out of room; `FullOverlayShows` is why.
- Mempool.Mempool.NextSenderSequence: the sender's counter does not overflow in the model.
- Mempool.Mempool.SelectWithGasBudget: the binary heap is a multiset from which some greatest entry is taken; entries of equal priority come in any order.
- `select`, `peek` and the plain lookups of the pool, the shared lock around it, and senders' byte keys.
- StfMachine.ApplyBlockWithMetrics: timers and counters of the metrics other than index and gas.
- Genesis, system execution outside blocks, simulation and the query interface of the state transition function.
- Producer.DevConsensus.ProduceBlockWithTxs: archive, subscriptions, indexing in the background and the clock; the timestamp and the outcomes of the storage batch and commit are parameters. The gas sum is a true sum: its `u64` overflow in a block of the maximal gas limit is not modelled.
- Pool.RunsFollowPriority: speaks of runs that add nothing still queued or in flight; after `Pool.ReaddedTwice` a left-over entry may carry an old key.
- StorageCache.QmdbStorage.Get: every storage operation is one atomic step; locks, the runtime, metrics and concurrent fills of the cache are not modelled.
- The authenticated database, its roots and pruning; it is a map from storage keys to values. The single-lock cache and the wrapper around any store, which work like one shard.
- SQLite: connections, row decoding, foreign keys and migration; tables are maps and sequences, and database errors do not occur.
- ChainIndex.Put: recency is not kept; when the cache is full any other entry may go.
- ChainTables.BuildIndexData: columns that are only copied are one field; the gas sums are true sums. In a block of the maximal gas limit the code's plain `u64` sums can overflow (`BlockLaws.ResultSumOverflows`), which is not modelled; below it they cannot (`ChainTables.RowSumsFit`).
- ChainIndex.PersistentChainIndex.StoreBlock: says nothing of a block whose hash another block number already has.
- Logs.ChainStateProvider.GetLogsForBlockRange: errors of the index itself are not modelled.
- RPC handlers, transaction types, signatures, the gRPC and peer-to-peer layers, the command line.
