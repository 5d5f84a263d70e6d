# A verified model of the DMC scheduler

The scheduler of fisco-smart executes the transactions of a block as interleaved calls
between contracts. Each contract has a pool of messages (`ExecutivePool`, `DmcExecutor`);
keys that a contract has touched are locked in a wait-for graph (`GraphKeyLocks`); execution
goes on in rounds, each a serial preparation followed by a parallel exchange with the
executors (`BlockExecutive`). When all transactions have their receipts the block is hashed
and committed in two phases. This project models that scheduler and proves what it relies on:
that a stuck round always contains a deadlock that is found, that the outcome of a round does
not depend on the order of callbacks, that no exception or assertion of these steps can be
reached while there is an executor to dispatch to, that every transaction ends with one
receipt, and that the two-phase commit is safe.
Three smaller parts stand beside it: the assignment of contracts to executors through a heap,
the 16-way Merkle tree over transactions and receipts, and leader election with the scheduler
terms.

## How the model is built

`Dmc` states each step of the scheduler as a function on values (`State`), one function per
operation of `DmcExecutor` and `BlockExecutive`; exceptions, failed assertions and null
messages are values of `Fault`. `BlockExecution` is the same code in place: the classes
`ExecutivePool` and `BlockExecutive` with mutable fields and loops, each method proved to
change its `Snapshot` exactly as the function of `Dmc` says. `KeyLocks.GraphKeyLocks` is the
lock graph in place, with its vertex index and an edge list, proved against the edge set of
`LockGraph`; `DepthFirst` is the graph search with its colour map, its own stack and its early
end. `DmcInvariant` holds the invariant: a map from every context to the place it is at
(waiting to be prepared, ready, locked, on its way, done with a receipt), from which pools, call
stacks, locks and receipts are determined. The other `Dmc` modules prove that each step keeps it,
and `DmcTheorems` states the results over every run. What the steps do is stated a second time
without them: `DmcTurns` says field by field what becomes of an executive and of the lock edges
when its message is handled, `DmcUnlock.Retried` and `FirstCome` what a retry gets,
`DmcSchedule.Reverted` what a revert is, `DmcInvariant.Describes` what a receipt says and
`DmcExchange` what a round sends and takes back; the steps are proved to do just that, one by one
and over every run.

A run starts from the first messages of a block, optionally after DAG execution, and each step
is a serial preparation or a whole round. A round is played as any legal sequence of events:
the `go` call of an executor, the handling of one output, the increment of a counter and the
check of the join, so that callbacks may arrive while other executors have not been called.

The executors are the environment; at least one is registered while a block is executed.
`DmcRoundInvariant.EnvOk` and `DmcRun.DagOutputsOk` say what is asked of them:

- one output for each message, for the same context and with the frame that ran;
- keys reported as held are not held by another context and not reported by two contexts at
  once;
- a refusal (SEND_BACK) comes from a context that holds and waits for nothing and reports no
  keys;
- an address made for a new contract is not empty and is not the contract the message has just
  left;
- the outputs of a contract depend only on the batches sent to it so far (`Env.run`).

`DmcContract.ContractCanBeMet` shows that these demands can be met from every scheduled state,
and `DmcTheorems.RunsGoOn` that a run in which they are met goes on until the block is finished.

The commit protocol, the joins of hashes and of DAG batches, and the election are state
machines whose events are the responses of the other parties in any order. The hash function,
the clocks, the store and the parties' answers are parameters.

## Model

| member | source | states |
|---|---|---|
| LockGraph.AcquireKeepsWellFormed | fisco-smart/bcos-scheduler/src/GraphKeyLocks.cpp:41-79 | acquiring keeps the graph bipartite, every key with one owner, and nobody waiting for a key it holds |
| LockGraph.ReleaseKeepsWellFormed | fisco-smart/bcos-scheduler/src/GraphKeyLocks.cpp:110-165 | releasing a frame keeps the same |
| LockGraph.ReachableIsWellFormed | fisco-smart/bcos-scheduler/src/GraphKeyLocks.cpp:41-165 | exclusive ownership after every sequence of acquires and releases |
| LockGraph.AcquireAgrees | fisco-smart/bcos-scheduler/src/GraphKeyLocks.cpp:41-79 | acquire on the graph is acquire on a table of owners, frames and waits: granted exactly if the key is free or already owned by the caller |
| LockGraph.ReleaseAgrees | fisco-smart/bcos-scheduler/src/GraphKeyLocks.cpp:110-165 | release on the graph drops from the table exactly the holds and waits of that context and frame |
| LockGraph.GraphRefinesTable | fisco-smart/bcos-scheduler/src/GraphKeyLocks.cpp:41-165 | for every sequence of operations the graph and the table agree and give the same answers |
| LockGraph.CycleSpansTwo | fisco-smart/bcos-scheduler/src/GraphKeyLocks.cpp:47-78 | every cycle of a reachable lock graph runs through two contexts and two keys |
| LockGraph.BlockedSetHasVictim | fisco-smart/bcos-scheduler/src/GraphKeyLocks.cpp:167-214 | a non-empty set of contexts that all wait for keys owned inside the set contains one that detection reports |
| DepthFirst.DepthFirstVisit | fisco-smart/bcos-scheduler/src/GraphKeyLocks.cpp:206-213 | the search that stops descending at the first back edge reports one exactly when a cycle can be reached from its start |
| DepthFirst.TopologicalHasNoCycle | fisco-smart/bcos-scheduler/src/GraphKeyLocks.cpp:206-213 | an order of finished vertices in which edges only lead back rules out a reachable cycle |
| KeyLocks.GraphKeyLocks.Touch | fisco-smart/bcos-scheduler/src/GraphKeyLocks.cpp:216-243 | the index stays a bijection onto the graph's vertices and the edges do not change |
| KeyLocks.GraphKeyLocks.AddEdge | fisco-smart/bcos-scheduler/src/GraphKeyLocks.cpp:245-263 | adds the edge to the edge set and stores no edge twice |
| KeyLocks.GraphKeyLocks.AcquireKeyLock | fisco-smart/bcos-scheduler/src/GraphKeyLocks.cpp:41-79 | the graph in place changes as the edge set does, the answer is the same, and every context vertex keeps an edge |
| KeyLocks.GraphKeyLocks.BatchAcquireKeyLock | fisco-smart/bcos-scheduler/src/GraphKeyLocks.cpp:19-39 | acquires the keys in order up to the first refusal, which is the exception of the source |
| KeyLocks.GraphKeyLocks.GetKeyLocksNotHoldingByContext | fisco-smart/bcos-scheduler/src/GraphKeyLocks.cpp:82-108 | the keys of the contract held by other contexts, each once and in ascending order |
| KeyLocks.GraphKeyLocks.ReleaseKeyLocks | fisco-smart/bcos-scheduler/src/GraphKeyLocks.cpp:110-165 | removes exactly the context's edges with that frame, and the vertex with its last edge |
| KeyLocks.GraphKeyLocks.DetectDeadLock | fisco-smart/bcos-scheduler/src/GraphKeyLocks.cpp:167-214 | true exactly when the context holds a key and a cycle can be reached from it |
| DmcSerial.CallKeeps | fisco-smart/bcos-scheduler/src/DmcExecutor.cpp:335-347 | handling a request keeps the invariant; afterwards the context holds exactly the reported keys of the sender for the reporting frame, waits for none of them, and no other lock edge came or went; a frame with the next number is pushed and the message is unchanged but for it, its target and, after a refusal, its type |
| DmcSerial.ReturnKeeps | fisco-smart/bcos-scheduler/src/DmcExecutor.cpp:349-365 | handling a return inside a transaction keeps the invariant: the frame is popped after its locks are gone, the message carries the frame below and no create flag, and is otherwise unchanged |
| DmcSerial.EndKeeps | fisco-smart/bcos-scheduler/src/DmcExecutor.cpp:349-358 | handling the last return keeps the invariant: the transaction holds no lock and its slot gets a receipt that describes the message, no gas for a system sender and otherwise gas used and gas left making up the limit modulo two to the power 64, with its contract, logs, status and output; no other slot changes |
| DmcSerial.WaitKeeps | fisco-smart/bcos-scheduler/src/DmcExecutor.cpp:367-375 | handling a wait for a key keeps the invariant; afterwards the context holds exactly the reported keys for its frame, no other lock edge came or went, and its executive is unchanged |
| DmcSerial.OutKeeps | fisco-smart/bcos-scheduler/src/DmcExecutor.cpp:271-330 | a message for another contract keeps the invariant; its address is filled in if it creates a contract, a refused one is a call again with an empty stack, and nothing else of it changes |
| DmcSerial.HandlingTakesTurn | fisco-smart/bcos-scheduler/src/DmcExecutor.cpp:271-388 | from any state, reachable or not, handling a message raises an exception or forwards the message or gives it its turn: target, type, stack, frame, create flag, keys taken, receipt written and hint, field by field; nothing else changes |
| DmcSerial.FinishWrites | fisco-smart/bcos-scheduler/src/BlockExecutive.cpp:1418-1438 | from any state, a finished transaction either has no slot or gets there a receipt that describes its message; gas used and the record of written slots grow by it and no other slot changes |
| DmcSerial.AcquireAllTakes | fisco-smart/bcos-scheduler/src/GraphKeyLocks.cpp:19-39 | keys that are granted together are all held afterwards for the frame, none is waited for, and no other edge came or went |
| DmcPrepare.PrepareKeeps | fisco-smart/bcos-scheduler/src/DmcExecutor.cpp:23-56 | one executor's preparation keeps the invariant, settles its pool, moves out exactly the contexts whose destination is elsewhere, and gives every other one of its messages one turn and no other message any |
| DmcPass.ReleaseAllReleases | fisco-smart/bcos-scheduler/src/DmcExecutor.cpp:9-21 | the edges that go are exactly those of the frames that FINISHED and REVERT messages still to be prepared return from; nothing but locks has changed |
| DmcPass.PassKeeps | fisco-smart/bcos-scheduler/src/BlockExecutive.cpp:1450-1471 | a turn of the loop keeps the invariant, leaves every context at its destination if something moved, and settles all pools if nothing did |
| DmcSchedule.LoopStep | fisco-smart/bcos-scheduler/src/BlockExecutive.cpp:1449-1472 | a turn that moves something started with a misplaced executive and leaves none |
| DmcSchedule.AtMostTwoTurns | fisco-smart/bcos-scheduler/src/BlockExecutive.cpp:1449-1472 | the loop turns at most twice |
| DmcSchedule.SerialLoopKeeps | fisco-smart/bcos-scheduler/src/BlockExecutive.cpp:1448-1472 | when the loop exits every unfinished context is ready or locked and every pool is settled; each message has had exactly one turn, whatever the pools it went through |
| DmcUnlock.UnlockAllKeeps | fisco-smart/bcos-scheduler/src/DmcExecutor.cpp:58-94 | unlocking keeps the invariant; a locked context gets its key exactly if no other context held it before and none ahead of it gets it, and then holds it alone and waits for it no more; any other waits for a key that somebody holds; no other lock edge came or went |
| DmcUnlock.UnlockOneRetries | fisco-smart/bcos-scheduler/src/DmcExecutor.cpp:60-89 | from any state, a retry succeeds exactly if no other context holds the key that the message waits for at its contract; it takes the key for the frame of the message and drops the requests for it, or adds a request, and changes no other edge; the context is marked to be sent exactly on success |
| DmcSchedule.DeadlockExists | fisco-smart/bcos-scheduler/src/BlockExecutive.cpp:1475-1520 | if something is unfinished and nothing can be sent, some locked context is deadlocked |
| DmcSchedule.DetectFinds | fisco-smart/bcos-scheduler/src/BlockExecutive.cpp:1500-1513 | whenever there is a deadlocked locked context the search over the executors reverts one, the first in the order of contracts and contexts |
| DmcSchedule.FirstVictimFound | fisco-smart/bcos-scheduler/src/DmcExecutor.cpp:96-126 | from any state, the search of one pool finds its first locked and deadlocked context, or none is deadlocked |
| DmcSchedule.RevertReverts | fisco-smart/bcos-scheduler/src/DmcExecutor.cpp:103-115 | from any state, the reverted message is a REVERT without create flag and key locks and otherwise as it was, its context is marked to be sent, and no other executive, pool, lock or result changes |
| DmcSchedule.DetectionIsStall | fisco-smart/bcos-scheduler/src/BlockExecutive.cpp:1477-1498 | deadlocks are searched for exactly if something is pending and no pool has anything to send |
| DmcSchedule.HandleLockedKeeps | fisco-smart/bcos-scheduler/src/BlockExecutive.cpp:1475-1521 | after the unlocking, if something is pending and nothing can be sent, the first deadlocked context is reverted and nothing else changes, and otherwise nothing changes; the "no deadlock detected" exception is never raised |
| DmcSchedule.SerialPrepareKeeps | fisco-smart/bcos-scheduler/src/BlockExecutive.cpp:1441-1521 | from every state of the invariant the whole preparation succeeds and leaves something to send unless all is finished |
| DmcConfluence.GoStep | fisco-smart/bcos-scheduler/src/DmcExecutor.cpp:151-196 | a go call, at whatever moment of the round, sends what the scheduled state determines |
| DmcConfluence.ReceiveStep | fisco-smart/bcos-scheduler/src/DmcExecutor.cpp:390-417 | an output, at whatever moment of the round, has the effect the scheduled state determines |
| DmcExchange.OutgoingIsSent | fisco-smart/bcos-scheduler/src/DmcExecutor.cpp:180-193 | the message that is sent is the one of its executive with, as key locks, exactly the keys of the contract it is for that other contexts hold, in ascending order |
| DmcExchange.RoundExchanges | fisco-smart/bcos-scheduler/src/DmcExecutor.cpp:151-196 | whatever its interleaving, a round sends each pool with something to send one batch, one message for each of its contexts in their order; each output replaces the message and waits in the pool of the contract it is for; no other executive, no lock and no receipt changes |
| DmcJoin.PlayKeeps | fisco-smart/bcos-scheduler/src/BlockExecutive.cpp:830-870 | after any legal events the state is a function of which calls and outputs have happened, and the counters count them |
| DmcJoin.RoundIsDeterministic | fisco-smart/bcos-scheduler/src/BlockExecutive.cpp:783-935 | for every interleaving the continuation runs once, after all callbacks, in the one state and with the one decision that the start of the round determines |
| DmcJoin.RoundGoesOn | fisco-smart/bcos-scheduler/src/BlockExecutive.cpp:783-935 | a round cannot hang: it has at most three events for each executor and one for each message sent, and until the continuation has run there is a next one |
| DmcJoin.RoundCompletes | fisco-smart/bcos-scheduler/src/BlockExecutive.cpp:783-935 | every beginning of a round can be played to its continuation |
| DmcRoundInvariant.RoundKeeps | fisco-smart/bcos-scheduler/src/DmcExecutor.cpp:390-417 | whatever the executors answer within their contract, the round ends in a state of the invariant |
| DmcContract.ContractCanBeMet | fisco-smart/bcos-scheduler/src/DmcExecutor.cpp:198-269 | from every scheduled state executors that just return meet what is asked of them |
| DmcRun.StartKeeps | fisco-smart/bcos-scheduler/src/BlockExecutive.cpp:48-88 | a block starts in a state of the invariant, with or without DAG execution |
| DmcRun.StartIsFresh | fisco-smart/bcos-scheduler/src/BlockExecutive.cpp:255-281 | a block starts with one executive for each transaction, holding its first message or its DAG output in frame 0, to be prepared in the pool of the contract of the first message and in no other; no lock, no receipt, no gas used |
| DmcTheorems.RunKeepsInvariant | fisco-smart/bcos-scheduler/src/BlockExecutive.cpp:783-935 | every state of every run satisfies the invariant |
| DmcTheorems.RoundExists | fisco-smart/bcos-scheduler/src/BlockExecutive.cpp:783-935 | with executors that keep their contract a round from any unfinished state can be played to its end |
| DmcTheorems.RunsGoOn | fisco-smart/bcos-scheduler/src/BlockExecutive.cpp:783-935 | with executors that just return every unfinished state has a next one, so that the runs spoken of exist |
| DmcTheorems.RunIsSafe | fisco-smart/bcos-scheduler/src/DmcExecutor.cpp:319-388 | over every run: no exception, failed assertion or null message; one owner for each key; lock edges carry frames still on their context's stack and belong to unfinished transactions; stacks strictly increase below currentSeq; gas used is the sum over the receipts and no slot is written twice |
| DmcTheorems.EveryRoundSends | fisco-smart/bcos-scheduler/src/BlockExecutive.cpp:1475-1521 | over every run the preparation succeeds, the "no deadlock detected" exception included, each message it hands over carries the frame on top of its stack, and unless all executors are finished at least one message is sent |
| DmcTheorems.PoolsArePartitioned | fisco-smart/bcos-scheduler/src/ExecutivePool.cpp:64-88 | over every run, when the loop exits each unfinished context is in one pool and there either to be sent or locked, no other hint is left, and every locked message is a KEY_LOCK |
| DmcTheorems.FinishedBlockIsComplete | fisco-smart/bcos-scheduler/src/BlockExecutive.cpp:1418-1438 | over every run, when all executors are finished each transaction has in its own slot a receipt that describes its last message, each slot was written once, gas used is the sum over all, and no lock is left |
| DmcTheorems.ReceiptsTellTheOutcome | fisco-smart/bcos-scheduler/src/BlockExecutive.cpp:1418-1438 | over every run a receipt that the preparation writes describes the message its executor returned last: gas, contract, logs, status and output |
| DmcTheorems.ReceiptsAreFinal | fisco-smart/bcos-scheduler/src/BlockExecutive.cpp:1429-1430 | over every run a written receipt is never changed, and describes the message its transaction ended with in every later state |
| DmcTheorems.EveryMessageIsHandled | fisco-smart/bcos-scheduler/src/DmcExecutor.cpp:271-388 | over every run the loop gives each message still to be prepared one turn at the contract it is for, files it where its type and stack say, and leaves its context holding every key it reports; other transactions and their lock edges stay as they are |
| DmcTheorems.LockedContextsRetry | fisco-smart/bcos-scheduler/src/BlockExecutive.cpp:1475-1521 | over every run: unlocking gives each locked context its key by the lock priority or leaves it waiting behind an owner, changing no other edge; and if nothing can be sent then, exactly one context changes, the first deadlocked one in the order of contracts and contexts, whose KEY_LOCK becomes a REVERT that is sent |
| DmcTheorems.EveryRoundExchanges | fisco-smart/bcos-scheduler/src/DmcExecutor.cpp:151-196 | over every run each round sends the batches and takes back the outputs as RoundExchanges says |
| DmcTheorems.FramesAreNeverReused | fisco-smart/bcos-scheduler/src/DmcExecutor.cpp:332-365 | over every run a frame on a stack was there before or has a number not given out before |
| DmcStacks.SerialPrepareCarries | fisco-smart/bcos-scheduler/src/DmcExecutor.cpp:271-375 | the preparation only pushes frames with numbers from currentSeq on, resets included; changes a result slot only by writing it; and leaves every field of a message that only executors set |
| DmcTheorems.BlockIsDeterministic | fisco-smart/bcos-scheduler/src/BlockExecutive.cpp:783-935 | two executions of a block with the same executors go through the same states, whatever the interleavings, and take the same number of rounds |
| BlockExecution.ExecutivePool.Add | fisco-smart/bcos-scheduler/src/ExecutivePool.cpp:9-13 | the context is pending and to be prepared; the result says whether it was not to be prepared before |
| BlockExecution.ExecutivePool.MarkAs | fisco-smart/bcos-scheduler/src/ExecutivePool.cpp:29-62 | the context enters the hint set of the type and nothing else changes |
| BlockExecution.ExecutivePool.Refresh | fisco-smart/bcos-scheduler/src/ExecutivePool.cpp:64-88 | contexts to be sent are no longer locked; departed and finished ones are in no set |
| BlockExecution.ExecutivePool.Empty | fisco-smart/bcos-scheduler/src/ExecutivePool.h:55-55 | true exactly for a finished executor |
| BlockExecution.BlockExecutive.constructor | fisco-smart/bcos-scheduler/src/BlockExecutive.cpp:163-172 | a block with empty result slots, no pools and no locks |
| BlockExecution.BlockExecutive.SaveMessage | fisco-smart/bcos-scheduler/src/DmcExecutor.cpp:128-142 | the message becomes an executive with an empty stack in the pool of its contract |
| BlockExecution.BlockExecutive.BuildExecutives | fisco-smart/bcos-scheduler/src/BlockExecutive.cpp:255-281 | saving the messages of the transactions in any order gives the one initial state |
| BlockExecution.BlockExecutive.ScheduleExecutive | fisco-smart/bcos-scheduler/src/BlockExecutive.cpp:1360-1416 | the pool of the message's contract exists and has the context to prepare |
| BlockExecution.BlockExecutive.OnTxFinish | fisco-smart/bcos-scheduler/src/BlockExecutive.cpp:1418-1438 | in place what Dmc.OnTxFinish does on values, out-of-range slots included; DmcSerial.FinishWrites says what that is |
| BlockExecution.BlockExecutive.HandleExecutiveMessage | fisco-smart/bcos-scheduler/src/DmcExecutor.cpp:319-388 | in place what Dmc.HandleExecutiveMessage does on values, exceptions and hint included; DmcSerial.HandlingTakesTurn says what that is |
| BlockExecution.BlockExecutive.ReleaseOutdatedLock | fisco-smart/bcos-scheduler/src/DmcExecutor.cpp:9-21 | exactly the locks of the frames that return to this pool are released |
| BlockExecution.BlockExecutive.Prepare | fisco-smart/bcos-scheduler/src/DmcExecutor.cpp:23-56 | the two loops over the live hint sets do what the function on values does with sorted copies |
| BlockExecution.FileOneSkips | fisco-smart/bcos-scheduler/src/ExecutivePool.cpp:123-189 | clearing the walked set after the loop is as good as removing each context from it |
| BlockExecution.BlockExecutive.UnlockPrepare | fisco-smart/bcos-scheduler/src/DmcExecutor.cpp:58-94 | in place, the locked contexts retry in ascending order as Dmc.UnlockOne says, and the answer says whether nothing can be sent; DmcUnlock.UnlockOneRetries and UnlockAllKeeps say what that is |
| BlockExecution.BlockExecutive.FindVictim | fisco-smart/bcos-scheduler/src/DmcExecutor.cpp:96-126 | the answer of Dmc.FirstVictim, by searching the graph in place; DmcSchedule.FirstVictimFound says which context that is |
| BlockExecution.BlockExecutive.DetectLockAndRevert | fisco-smart/bcos-scheduler/src/DmcExecutor.cpp:96-126 | true exactly if that context exists, whose message changes in place as Dmc.RevertVictim says and DmcSchedule.RevertReverts spells out; otherwise nothing changes |
| BlockExecution.BlockExecutive.UnlockAll | fisco-smart/bcos-scheduler/src/BlockExecutive.cpp:1477-1496 | the two flags the loop computes say that nothing can be sent and that all executors are finished |
| BlockExecution.BlockExecutive.SerialPrepareExecutor | fisco-smart/bcos-scheduler/src/BlockExecutive.cpp:1441-1521 | the loop ends and the block is as SerialPrepare says |
| BlockExecution.BlockExecutive.PrepareBlock | fisco-smart/bcos-scheduler/src/BlockExecutive.cpp:48-88 | preparing a block without DAG execution cannot fail and leaves it ready to send |
| BlockExecution.BlockExecutive.Go | fisco-smart/bcos-scheduler/src/DmcExecutor.cpp:151-196 | hands over the messages to be sent, in order of contexts, each with the keys of its contract that others hold, and the status to be reported |
| BlockExecution.BlockExecutive.HandleExecutiveOutputs | fisco-smart/bcos-scheduler/src/DmcExecutor.cpp:390-417 | each output becomes its executive's message, to be prepared here or in the pool it is for |
| DagJoin.JoinRunsOnce | fisco-smart/bcos-scheduler/src/BlockExecutive.cpp:682-779 | the callback runs once, when the last group has been answered, with success exactly if no group failed |
| DagJoin.JoinGivesDagResult | fisco-smart/bcos-scheduler/src/BlockExecutive.cpp:689-756 | after a successful join every flagged executive has its output and a pushed frame, whatever the order of answers |
| FanOut.CountTallies | fisco-smart/bcos-scheduler/src/BlockExecutive.cpp:1063-1088 | one more answer reaches the total exactly when it is the last, and something failed exactly when some answer is an error |
| BatchJoin.JoinRunsOnce | fisco-smart/bcos-scheduler/src/BlockExecutive.cpp:1032-1090 | for parties of any kind and answers in any order the continuation runs once, after the last answer and never without a party, with an error exactly if one failed, unless the block was stopped |
| StateHash.HashesAreGathered | fisco-smart/bcos-scheduler/src/BlockExecutive.cpp:1093-1153 | the callback runs once, after the last executor has answered (never with no executor), with an error if one failed and otherwise the hash whose bits are those that an odd number of executors have |
| StateHash.XorAny | fisco-smart/bcos-scheduler/src/BlockExecutive.cpp:1142-1142 | the exclusive or does not depend on the order in which hashes arrive |
| StateHash.XorIsParity | fisco-smart/bcos-scheduler/src/BlockExecutive.cpp:1142-1142 | a bit of the exclusive or of all hashes is set exactly if an odd number of executors have it |
| StateHash.RootIsDeterministic | fisco-smart/bcos-scheduler/src/BlockExecutive.cpp:1093-1153 | the same answers in any order give the same root |
| TwoPhaseCommit.RunKeeps | fisco-smart/bcos-scheduler/src/BlockExecutive.cpp:445-587 | over every run the requests made are exactly those the answers so far call for, and the counters count the answers |
| TwoPhaseCommit.CommitNeedsEveryone | fisco-smart/bcos-scheduler/src/BlockExecutive.cpp:463-521 | storage is asked to commit only after it and every executor prepared, an executor only after storage committed; a rollback only after a failure, and never beside an executor's commit |
| TwoPhaseCommit.CallbackAtMostOnce | fisco-smart/bcos-scheduler/src/BlockExecutive.cpp:1155-1261 | the callback runs at most once, and success means that storage committed and all executors answered |
| TwoPhaseCommit.EveryRunCallsBack | fisco-smart/bcos-scheduler/src/BlockExecutive.cpp:463-583 | when everything is answered the callback has run exactly once if and only if there is an executor or prewrite or storage prepare failed |
| TwoPhaseCommit.RunIsBounded | fisco-smart/bcos-scheduler/src/BlockExecutive.cpp:445-587 | no run makes more than four plus three times the number of executors requests, each answered once, and until all are answered there is a next event |
| TwoPhaseCommit.NobodyToAsk | fisco-smart/bcos-scheduler/src/BlockExecutive.cpp:545-583 | with no executor a run in which storage prepares never calls back |
| TwoPhaseCommit.OutcomeIsExact | fisco-smart/bcos-scheduler/src/BlockExecutive.cpp:1155-1357 | the outcome of a complete run: success exactly if storage committed, errors that tell a failed rollback from a clean one; a stop can only turn a join's outcome into Stopped |
| TwoPhaseCommit.RollbackVerdict | fisco-smart/bcos-scheduler/src/BlockExecutive.cpp:1291-1345 | the rollback join counts a failure exactly if the storage answered with any error or an executor with one that is not about its term |
| TwoPhaseCommit.OrderDoesNotMatter | fisco-smart/bcos-scheduler/src/BlockExecutive.cpp:1155-1357 | two complete runs with the same answers make the same requests and report the same outcome |
| Executors.ExecutorManager.AddExecutor | fisco-smart/bcos-scheduler/src/ExecutorManager.cpp:15-37 | an unknown executor joins with no contracts, a known one changes nothing; the heap holds each executor once and in order of the loads they have now |
| PriorityQueue.Push | fisco-smart/bcos-scheduler/src/ExecutorManager.cpp:37-37 | sifting up keeps the heap in order and adds exactly the element |
| PriorityQueue.Pop | fisco-smart/bcos-scheduler/src/ExecutorManager.cpp:55-55 | sifting down keeps the heap in order and removes exactly the top |
| PriorityQueue.TopIsLeast | fisco-smart/bcos-scheduler/src/ExecutorManager.h:124-130 | the top of a heap is least |
| Executors.ChangeOutside | fisco-smart/bcos-scheduler/src/ExecutorManager.cpp:54-62 | an executor may change its load while it is not in the heap |
| Executors.ExecutorManager.Top | fisco-smart/bcos-scheduler/src/ExecutorManager.cpp:54-54 | the top of the heap is least loaded now, because no executor has changed its load inside the heap |
| Executors.ExecutorManager.DispatchExecutor | fisco-smart/bcos-scheduler/src/ExecutorManager.cpp:39-66 | a known contract keeps its executor, a new one goes to a least loaded executor, and the insertion exception cannot happen |
| Executors.ExecutorManager.GetExecutorInfo | fisco-smart/bcos-scheduler/src/ExecutorManager.cpp:68-82 | the executor a contract was dispatched to, which is present |
| Executors.ExecutorManager.RemoveExecutor | fisco-smart/bcos-scheduler/src/ExecutorManager.cpp:84-117 | exactly the executor and its contracts go; an unknown name is the error and changes nothing; the missing-contract exception cannot happen |
| Executors.ExecutorManager.ClearAll | fisco-smart/bcos-scheduler/src/ExecutorManager.h:77-84 | no executor and no contract is left |
| Executors.AddKeepsBalance | fisco-smart/bcos-scheduler/src/ExecutorManager.cpp:15-37 | a newcomer keeps the spread of loads within one exactly if nobody has more than one contract |
| Executors.RunIsBalanced | fisco-smart/bcos-scheduler/src/ExecutorManager.cpp:39-66 | over every run in which executors join under that condition, loads differ by at most one |
| Executors.LateJoinerIsUnbalanced | fisco-smart/bcos-scheduler/src/ExecutorManager.cpp:15-37 | a run in which a late joiner leaves a spread of two |
| Executors.OwnerIsSticky | fisco-smart/bcos-scheduler/src/ExecutorManager.cpp:47-51 | over every run a contract stays with its executor until that executor is removed or all are cleared |
| Merkle.CollectGroup | fisco-smart/bcos-protocol/bcos-protocol/ParallelMerkleProof.cpp:53-63 | the children of a parent and their concatenation, the last group being short |
| Merkle.CalculateMerkleProofRoot | fisco-smart/bcos-protocol/bcos-protocol/ParallelMerkleProof.cpp:32-69 | the level loop ends and computes Root, with the groups of a level hashed in any order |
| Merkle.LevelOfNodes | fisco-smart/bcos-protocol/bcos-protocol/ParallelMerkleProof.cpp:44-67 | hashing the nodes of one height gives the nodes of the next |
| Merkle.RootIsTree | fisco-smart/bcos-protocol/bcos-protocol/ParallelMerkleProof.cpp:44-68 | Root is the hash of the 16-way tree built recursively from the top |
| MerkleBinding.SameDepthBinds | fisco-smart/bcos-protocol/bcos-protocol/ParallelMerkleProof.cpp:32-69 | trees of the same depth over leaves of one width have the same root exactly if they have the same leaves, whatever the numbers of leaves, unless the hash collides on something hashed for them |
| MerkleBinding.SameLengthBinds | fisco-smart/bcos-protocol/bcos-protocol/ParallelMerkleProof.cpp:32-69 | in particular lists of the same length, for leaves of any width |
| MerkleBinding.LevelsShareTheRoot | fisco-smart/bcos-protocol/bcos-protocol/ParallelMerkleProof.cpp:44-68 | every level of a tree, taken as leaves, has the root of the tree |
| MerkleBinding.RootBindsUpToLevels | fisco-smart/bcos-protocol/bcos-protocol/ParallelMerkleProof.cpp:32-69 | for leaves as wide as a hash, lists of any lengths have the same root exactly if one is a level of the tree over the other |
| MerkleBinding.RootBinds | fisco-smart/bcos-protocol/bcos-protocol/ParallelMerkleProof.cpp:32-69 | for leaves of any other width, lists of any lengths, empty ones included, have the same root exactly if they are equal or the leaves of the smaller, put together, are the nodes of the one-group level of the larger, put together |
| MerkleBinding.DeeperMeets | fisco-smart/bcos-protocol/bcos-protocol/ParallelMerkleProof.cpp:44-68 | trees of different depths with the same root meet in that way and in no other |
| MerkleBinding.MeetingSharesTheRoot | fisco-smart/bcos-protocol/bcos-protocol/ParallelMerkleProof.cpp:44-68 | lists that meet so have the same root |
| MerkleBinding.LittleEndianValue | fisco-smart/bcos-codec/bcos-codec/scale/FixedWidthIntegerCodec.h:40-52 | the value of the encoded bytes is the encoded number, if it fits |
| MerkleBinding.LeavesAreDistinct | fisco-smart/bcos-protocol/bcos-protocol/Common.h:70-87 | the leaves of a block are distinct, even where the hashes are not |
| MerkleBinding.BlockRootBinds | fisco-smart/bcos-protocol/bcos-protocol/Common.h:70-87 | blocks of any sizes have the same root exactly if they have the same transaction hashes in the same order, or meet as above |
| MerkleBinding.MeetingSizes | fisco-smart/bcos-protocol/bcos-protocol/Common.h:70-87 | blocks only meet if the smaller has 4, 8 or 12 transactions and the level of the larger 5, 10 or 15 nodes, so that all others are told apart |
| MerkleBinding.MeetingHappens | fisco-smart/bcos-protocol/bcos-protocol/ParallelMerkleProof.cpp:32-69 | a hash without collisions and two blocks, of 4 and of 65 transactions, that do have the same root |
| MerkleProof.CalculateMerkleProof | fisco-smart/bcos-protocol/bcos-protocol/ParallelMerkleProof.cpp:71-119 | the map is what recording all parents of the tree level by level gives, each level in some order |
| MerkleProof.EveryLeafClimbs | fisco-smart/bcos-protocol/bcos-protocol/ParallelMerkleProof.cpp:84-118 | every leaf climbs through the recorded map to the root that CalculateMerkleProofRoot returns |
| MerkleProof.RecordedChildren | fisco-smart/bcos-protocol/bcos-protocol/ParallelMerkleProof.cpp:105-111 | what the map holds under a parent is the children of its entries in order of recording, and nothing else |
| MerkleProof.ProofsCheck | fisco-smart/bcos-protocol/bcos-protocol/ParallelMerkleProof.cpp:92-112 | if no two nodes share a hash, hashing the children recorded under a parent gives the parent |
| Leader.RunKeeps | fisco-smart/bcos-leader-election/src/LeaderElection.cpp:80-155 | over every run of any members, with transactions, answers and watch events interleaved at will, the key names the owner of its lease at every revision, and every belief was once true; the Outcome lemmas say what each event brings about |
| Leader.ElectionsAreSeparated | fisco-smart/bcos-leader-election/src/LeaderElection.cpp:97-122 | between two won campaigns the key was released, the later one has the larger sequence, and only the last can have a live lease; TwoElections is a run with two |
| Leader.GrantOutcome | fisco-smart/bcos-leader-election/src/LeaderElection.cpp:63-78 | a granted lease is new, alive and belongs to the member that asked; nothing else changes |
| Leader.CampaignOutcome | fisco-smart/bcos-leader-election/src/LeaderElection.cpp:97-102 | in every run a campaign succeeds exactly if the key is absent and its lease alive: then the key carries the member, its configuration, its lease and the revision of this write, one election is recorded and the member has that answer; otherwise nothing changes |
| Leader.InstallOutcome | fisco-smart/bcos-leader-election/src/LeaderElection.cpp:144-144 | the winner believes in itself with the lease and revision it won with; nothing else changes |
| Leader.DraftOutcome | fisco-smart/bcos-leader-election/src/LeaderElection.cpp:222-229 | only a member that believes it leads reads a lease, the one it believes it leads with |
| Leader.UpdateSelfOutcome | fisco-smart/bcos-leader-election/src/LeaderElection.cpp:229-237 | if the lease read before is still attached the member is the leader and replaces its configuration under the same lease, with a new revision and without an election; otherwise nothing changes |
| Leader.ExpireOutcome | fisco-smart/bcos-leader-election/src/LeaderElection.cpp:141-143 | the end of a lease removes the key if it is attached to it, and nothing else |
| Leader.OtherKeyOutcome | fisco-smart/bcos-leader-election/src/CampaignConfig.cpp:109-109 | a write to another key takes a revision of the store and leaves the leader key as it is |
| Leader.WatchOutcome | fisco-smart/bcos-leader-election/src/CampaignConfig.cpp:75-126 | a watch event tells one revision more, and the member believes what the key says there if it changed there |
| Leader.FetchOutcome | fisco-smart/bcos-leader-election/src/CampaignConfig.cpp:45-60 | a fetch makes the member believe what the key says now |
| Leader.WatcherFollowsTheKey | fisco-smart/bcos-leader-election/src/CampaignConfig.cpp:120-126 | over every run a member that only watches believes exactly what the key said at the revision it was told of, and knows the leader when it was told everything |
| Leader.ElectionIsAlwaysPossible | fisco-smart/bcos-leader-election/src/LeaderElection.cpp:80-155 | from every state of every run any member can be elected next, with a new lease, once the present lease has ended |
| Leader.TwoElections | fisco-smart/bcos-leader-election/src/LeaderElection.cpp:80-155 | a run with two elections, one after the other |
| Leader.KeyNamesTheLeader | fisco-smart/bcos-leader-election/src/LeaderElection.cpp:215-247 | the stored value belongs to the owner of the attached live lease, the winner of the last election, although leaders rewrite it |
| Leader.LiveBeliefIsTrue | fisco-smart/bcos-leader-election/src/CampaignConfig.cpp:75-118 | a cached leader whose lease is live is the present leader, however late its watch events are |
| Leader.TermIsExact | fisco-smart/bcos-scheduler/src/SchedulerManager.h:75-90 | the term ID does not wrap exactly for sequences below two to the power 31 |
| Leader.TermOverflows | fisco-smart/bcos-scheduler/src/SchedulerManager.h:77-84 | at two to the power 31 the term ID is negative |
| Leader.LaterLeaderHasLargerTerm | fisco-smart/bcos-scheduler/src/SchedulerManager.h:75-90 | over every run a later leader whose sequence is below two to the power 31 has the larger positive term, whatever the clocks and however many revisions other keys take |

## Left out

- Contract execution (EVM and WASM, dmcExecuteTransactions, dagExecuteTransactions): the executors are the environment described above.
- Building messages from transactions and the m_hasDAG flag: the first messages and the DAG outputs are inputs.
- Executor errors inside a DMC round and stop() during a round: the code reports the last callback's error and goes on, so the join and determinism results are about rounds without errors.
- ExecutorNotEstablishedError: registerAndGetDmcExecutor raises it when no executor is registered; a block is modelled with at least one.
- The zero hash that a block without transactions or receipts reports as its root: calculateMerkleProofRoot is not called then.
- Data races and the memory model: counters and pools change in atomic steps; the counter increment and the check of the DMC join are separate steps.
- dmcCall for static calls: it differs from dmcExecuteTransactions only in sending a single message.
- DmcStepRecorder: checksums for debugging.
- ExecutorManager.getExecutorInfoByName: it may insert a null entry, and nothing modelled here calls it.
- Executors.ExecutorManager.Top: executors are known by name rather than by object, so that the sharing of an ExecutorInfo between the two maps and the heap is not modelled; the heap of std::priority_queue is a sequence that push and pop rearrange.
- TwoPhaseCommit.RunKeeps: the callbacks work on a value rather than on shared CommitStatus objects, because the property is about the order of messages and not about aliasing.
- Leader.RunKeeps: the members' cached leaders, the store and its leases are one value that events change; timers, keep-alive threads and watcher reconnection are not modelled, and nothing is claimed about what members believe after a lease has expired.
- DagJoin.JoinRunsOnce: the executives are a map of values; what the executors answer for a failed group is not modelled beyond the failure.
- MerkleProof.CalculateMerkleProof: hexadecimal strings are the byte strings they stand for, and index arithmetic does not wrap at 32 bits.
- BlockExecution.BlockExecutive.SerialPrepareExecutor: requires the invariant, without which its loop need not end; DmcTheorems.RunKeepsInvariant provides it for every state of a run.
- Gas: contract-level gas accounting is the executors' business; only the sum over receipts is modelled, modulo two to the power 64.
