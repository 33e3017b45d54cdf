# Block synchronisation of a blockchain node, in Dafny

A model of the block synchronisation module (`bcos-sync`) and proofs of what it keeps over every run.

A node that is behind asks its peers for the blocks it lacks. What arrives waits in a buffer, moves to a
queue ordered by block number, is executed by the scheduler, waits in a commit queue, is checked by the
consensus, has its transactions stored by the ledger, is committed by the scheduler, and so becomes the
node's new block number. Every arrow is an asynchronous callback that can succeed, fail, come late or come
twice. At the same time the node answers the requests of its own peers.

## How the model is built

| module | what it holds |
|---|---|
| `SyncTypes`, `Words` | blocks, hashes, node ids; the 64-bit conversions |
| `SyncConfig`, `PeerTracking` | the height counters and the peer records, as classes, and the random traversal |
| `BlockQueues`, `BlockBuffer` | the min-number queues and the flush of the buffer |
| `RequestPlanner` | splitting a range into shards and spreading them over the peers |
| `DownloadRequests`, `BlockServer`, `EndToEnd`, `BatchReplies` | merging requests, answering them, and planner and server together |
| `SyncProtocol` | the state of a node and its steps, as functions; the environment chooses outcomes |
| `Downloads`, `BlockSync` | the two main classes; each method takes exactly the step of the protocol it stands for |
| `SyncInvariants`, `StepEffects`, `NoHoles` | what every single step keeps and does |
| `RequestLaws`, `QueueLaws`, `PeerLaws`, `FullQueue` | what each step does, said without the functions that compute it |
| `SyncRuns`, `RunHistory`, `LateExecution` | statements over whole runs |
| `Convergence`, `Delivery` | the worker's rounds among callbacks and replies that arrive in any order |
| `Pipeline`, `WorkerRound`, `CatchUp`, `LateReplies` | catching up, with any number of blocks between download and commit, and how much room it takes |

The objects and the protocol are tied together by their contracts: a method ends in the state that the
step of `SyncProtocol` computes from the state it started in, and everything proved about steps and runs is
about those functions. Priority queues are multisets with a relational top, so no result depends on how the
heap orders equal block numbers; where two blocks tie, the step says which one was taken (`pick`, `next`)
and the theorems hold for either.

## Assumptions

- The configuration's methods and the steps of the module are atomic. `setExecutedBlock` tests and writes
  without the mutex (`bcos-sync/BlockSyncConfig.cpp:127-133`).
- A callback is delivered as a later step, not from inside the call that asks for it; otherwise
  `tryToCommitBlockToLedger` would take `x_commitQueue` twice.
- Runs start after `init()`: before it the next block number is 0 (`bcos-sync/BlockSyncConfig.h:130`).
- The ledger configuration delivered for a committed block carries that block's number, and block numbers
  announced from outside are not negative.
- `maxRequestBlocks` is positive; the source divides by it.
- Pending callbacks do not throw, except in the block server, where a thrown exception is a step.
- For convergence the queue limit has room for a batch and as many blocks more as the replies and callbacks
  may be late, in rounds: while a block is executed and not yet committed, every round may ask for it again.
- Peers are told apart by node id, not by address.
- Block numbers are unbounded integers, except in the planner, the request queue and the serving loop, which
  follow the 64-bit arithmetic of the source. For the shards that are sent and for the serving loop the
  condition under which it equals the integer version is an equivalence; for merging it is sufficient.

## What does not hold

- *No hole below the execution point* is not an invariant of all runs. If the check of block 1 fails while
  block 2 is still executing, the late success of block 2 lifts the execution point over the missing block 1
  (`LateExecution.LateSuccessStrands` gives the run). `NoHoles.ExecuteSuccessNoHole` states exactly when a
  success is safe, `SyncRuns.HoleFreeRuns` that over a whole run nothing else matters,
  `SyncRuns.InOrderRunsHaveNoHole` that it is enough if no success is for a block beyond the one after the
  execution point, `SyncRuns.PromptRunsHaveNoHole` that prompt execution ensures this, and
  `LateExecution.StrandedUntilFreed` that such a node then stays where it is and requests nothing until a
  new block comes from outside or another execution fails.
- A block without transactions is committed twice: the branch for it does not return
  (`bcos-sync/state/DownloadingQueue.cpp:416-419`). The model keeps both commits;
  `SyncInvariants.CompletionIsHarmless` shows the second one changes no counter.
- The 64-bit shard plan is not always the integer plan: `RequestPlanner.PlanFitsWords` gives the condition
  for the shards that are sent as an equivalence, `RequestPlanner.PlanCanWrap` a range that breaks it.
- A merged range that reaches 2^63 is not served in part but not at all
  (`BlockServer.FetchedWholeOrNotAtAll`), and that happens exactly when one of the requests merged into it
  reaches 2^63 (`DownloadRequests.MergeFits`): it takes the requests it touches with it
  (`DownloadRequests.MergedAway`).
- The comment in `topAndPop` lists equal first numbers by increasing size, while the comparison puts the
  larger size first. The model follows the comparison; `DownloadRequests.MergeIsUnique` shows that the
  result depends on neither.
- A download queue that a message has taken beyond its limit is never cleared: the source clears a queue that
  is exactly full (`bcos-sync/state/DownloadingQueue.cpp:181`), not one that is fuller. If the next block is not in
  it, every message that brings that block is popped and lost. `FullQueue.NextIsQueued` gives the exact
  condition under which a flush takes the next block in, `FullQueue.QueueJams` a run that jams the queue, and
  `FullQueue.JammedForGood` shows that, through timeouts and new requests, the node then stays where it is until
  a block comes from outside or it is no longer behind.
- Live rounds alone do not bring a node up. `LateReplies.RoomIsNeeded` gives, for every delay of d rounds, a run
  from an idle node with room for a batch and d - 1 blocks more, in which late replies for an executed block
  fill the buffer and the needed block is dropped; `LateReplies.LostForGood` shows that without a timeout the
  node never moves again. With room for d blocks more it always arrives (`CatchUp.IdleCatchesUp`).

## Main results

- Safety of the pipeline over every run: `SyncRuns.CommitSafety`, `SyncRuns.RunInv`,
  `SyncInvariants.CompletionIsHarmless`, `SyncRuns.HoleFreeRuns`, `LateExecution.StrandedUntilFreed`.
- Convergence: `CatchUp.CatchesUp`, `CatchUp.IdleCatchesUp`, `CatchUp.PromptCatchesUp`,
  `LateReplies.RoomIsNeeded`. A worker round waits for nothing. A round is live if the replies outstanding at
  its start come in and, when callbacks were pending, at least one callback does. If among any d rounds in a
  row one is live, and the queue limit has room for a batch and d blocks more, 9 * d rounds per missing block
  are enough: in any order of arrivals, with blocks executing while others are checked, stored and committed,
  the water mark stopping the execution, and the commit queue holding back the requests. With room for d - 1
  blocks it is not true.
- The steps: `RequestLaws.RequestLaw` and `RequestLaws.MessagesAsk` (a batch asks for exactly the blocks worth asking
  for), `RequestLaws.FailedBlockIsAskedAgain`, `RequestLaws.QuietFromNotice`, `QueueLaws.QueueLaw` and the laws of the
  callbacks, `FullQueue.FlushLaw`, `FullQueue.JammedForGood`, `PeerLaws.StatusLaw`, `PeerLaws.TellingIsRecorded`.
- History: `RunHistory.KnownIsRunningMaximum`, `RunHistory.BatchesDoNotOverlap`, `RunHistory.NeverAsksItself`,
  `RunHistory.QueuesStayBounded`.
- Requests and answers: `RequestPlanner.RequestExactly`, `DownloadRequests.DrainIsExact`,
  `DownloadRequests.DrainIsUnique`, `BlockServer.ServingConserves`, `BlockServer.ServingEnds`,
  `EndToEnd.RequestAndServe`, `BatchReplies.ServeAsked`.

The methods of `SyncConfig`, `PeerTracking`, `Downloads` and `BlockSync` are proved against the functions of
the step system, and the laws of the steps say what those functions compute. The contracts of the methods tie
the objects to the results above; they are not results themselves.

## Model

| member | source | states |
|---|---|---|
| `SyncRuns.CommitSafety` | bcos-sync/state/DownloadingQueue.cpp:251-533 | In every run and at every step the head stays, is replaced by an outside notice, or moves by exactly one to a block that was executed to its own header hash, then passed the check, and then, if it has transactions, had them stored; the head hash is the one that came with the block |
| `SyncRuns.RunInv` | bcos-sync/state/DownloadingQueue.cpp:251-548 | Every reachable state is within the execution window, has all commit-stage work at most one above the block number, fresh queues and good peer records |
| `SyncRuns.RunProvenance` | bcos-sync/state/DownloadingQueue.cpp:289-464 | In every run, whatever is queued, checked, stored or committed has passed all stages before, in order |
| `SyncRuns.PromptRunsHaveNoHole` | bcos-sync/state/DownloadingQueue.cpp:289-309 | When execute callbacks arrive before anything else, every number between block number and execution point is on its way to commit in every reachable state, through all failures, duplicates and outside blocks |
| `SyncRuns.HoleFreeRuns` | bcos-sync/state/DownloadingQueue.cpp:289-309 | With execute callbacks as late as they like, a run is free of holes so far if and only if no successful execution so far jumped over a block that was not on its way |
| `SyncRuns.InOrderRunsHaveNoHole` | bcos-sync/state/DownloadingQueue.cpp:297-297 | No hole if no success callback is for a block beyond the one after the execution point |
| `NoHoles.ExecuteSuccessNoHole` | bcos-sync/state/DownloadingQueue.cpp:297-309 | A successful execution leaves no hole if and only if every number it jumps over is on its way already |
| `NoHoles.StepNoHole` | bcos-sync/state/DownloadingQueue.cpp:345-533 | Every other step keeps the absence of holes, whatever its outcome |
| `NoHoles.FailureNoHole` | bcos-sync/state/DownloadingQueue.cpp:352-360 | A failed check, store or commit either falls back to the block number or concerns a block already overtaken, so it opens no hole |
| `NoHoles.AfterExecuted` | bcos-sync/state/DownloadingQueue.cpp:297-309 | After a successful execution exactly the executed block has joined what is on its way |
| `LateExecution.LateSuccessStrands` | bcos-sync/state/DownloadingQueue.cpp:297-360 | A concrete run of eight steps that ends with a hole and a stranded node |
| `LateExecution.StrandedStep` | bcos-sync/BlockSync.cpp:471-508 | Only an outside block or a failed execution frees a stranded node; no other step moves its block number, and it starts no batch |
| `LateExecution.StrandedUntilFreed` | bcos-sync/BlockSync.cpp:471-508 | The same over every run |
| `SyncInvariants.InitialInv` | bcos-sync/BlockSync.cpp:59-75 | The state after initialisation satisfies the invariant and has nothing executed ahead |
| `SyncInvariants.StepKeepsInv` | bcos-sync/BlockSync.cpp:279-763 | Every step, with every outcome the environment can choose, keeps the window, the commit-stage bound, the freshness of both queues and the peer records |
| `SyncInvariants.CompletionIsHarmless` | bcos-sync/state/DownloadingQueue.cpp:345-507 | A failed check, store or commit leaves the counters alone or resets the execution point to the block number; once the block number has reached the block no completion changes a counter, so the second commit of an empty block does nothing |
| `SyncInvariants.BatchIsGapOnly` | bcos-sync/BlockSync.cpp:484-508 | A batch covers a non-empty range from the next block, ends at or below the known height and below everything queued beyond the next block, and its shard count is exact |
| `SyncInvariants.TryCommitKeeps` | bcos-sync/state/DownloadingQueue.cpp:385-406 | A pass over the commit queue restores its freshness, moves no counter, and keeps the invariant |
| `SyncInvariants.TryCommitMoves` | bcos-sync/state/DownloadingQueue.cpp:385-406 | The pass loses no live block: queue and check together stay the same, and only the next block moves |
| `SyncInvariants.OnNewBlockKeeps` | bcos-sync/BlockSync.cpp:394-399 | A new ledger block raises the block number to the maximum, pulls the execution point along, and a stale one changes nothing |
| `SyncInvariants.MaintainPeersKeeps` | bcos-sync/BlockSync.cpp:705-763 | Maintaining the peers keeps the invariant and no counter moves |
| `SyncInvariants.RollbackKeeps` | bcos-sync/BlockSyncConfig.cpp:127-133 | Rolling back below a commit-stage block moves the execution point to the block number or not at all |
| `StepEffects.StepEffect` | bcos-sync/BlockSync.cpp:279-763 | For every step: where the blocks of each stage come from, how the block number and the known height move, what may end a batch, and what stays untouched |
| `RequestLaws.RequestLaw` | bcos-sync/BlockSync.cpp:471-508 | The whole request step: it waits only while executed blocks wait for an earlier one, ends a batch that is executed, and opens one exactly when the node is behind and none is open; what was requested then ends at the largest block worth asking for |
| `RequestLaws.AsksExactly` | bcos-sync/BlockSync.cpp:484-531 | A batch covers a block if and only if it is above the block number, known to exist, not behind a queued gap, and within the peers' shards |
| `RequestLaws.MessagesAsk` | bcos-sync/BlockSync.cpp:510-565 | The messages of a batch ask for exactly those blocks |
| `RequestLaws.FailedBlockIsAskedAgain` | bcos-sync/BlockSync.cpp:458-508 | In every run: after a failed check, store or commit of the next block and a timeout, the next request round asks for that block |
| `RequestLaws.FailureResets` | bcos-sync/state/DownloadingQueue.cpp:345-493 | A failure of the next block takes the execution point back to the block number and changes nothing else of the counters |
| `RequestLaws.NotBehindRests` | bcos-sync/BlockSync.cpp:256-292 | A node that is not behind, be it only because of the consensus, requests nothing, executes nothing and empties its queues |
| `RequestLaws.QuietFromNotice` | bcos-sync/BlockSync.h:54-63 | In every run: from a notice of the consensus on, while the known height does not exceed it, nothing is requested and nothing new is executed |
| `QueueLaws.QueueLaw` | bcos-sync/BlockSync.cpp:567-627 | The worker's pass: one commit pass, and the block after the execution point is executed if and only if it is queued and the water mark leaves room |
| `QueueLaws.PassLaw` | bcos-sync/state/DownloadingQueue.cpp:385-406 | A commit pass moves one block to the check if and only if the next block is queued, drops what has expired, and keeps the rest |
| `QueueLaws.HandOverLaw` | bcos-sync/state/DownloadingQueue.cpp:251-336 | A block that is not new, or not the next, is turned away and resets the execution point |
| `QueueLaws.ExecuteLaw` | bcos-sync/state/DownloadingQueue.cpp:269-318 | The execute callback, success and failure, field by field |
| `QueueLaws.CheckLaw` | bcos-sync/state/DownloadingQueue.cpp:337-440 | The check callback: what is stored, what is committed at once, and which counter moves |
| `QueueLaws.StoreLaw` | bcos-sync/state/DownloadingQueue.cpp:441-471 | The store callback likewise |
| `QueueLaws.EmptyBlockCommitsTwice` | bcos-sync/state/DownloadingQueue.cpp:416-464 | A block without transactions is committed after its check and again after its store, another only after its store |
| `QueueLaws.CommitLaw` | bcos-sync/state/DownloadingQueue.cpp:481-533 | The commit callback: rollback, new head, or a repeated commit that moves no counter |
| `QueueLaws.HeadLaw` | bcos-sync/BlockSyncConfig.cpp:29-86 | A new head sets number, next number and hash, pulls execution point and known height along, and drops expired blocks |
| `QueueLaws.NewBlockLaw` | bcos-sync/BlockSync.cpp:374-399 | The same for a notice from outside, which is ignored when it is not newer |
| `QueueLaws.ReceiveBlocksLaw` | bcos-sync/state/DownloadingQueue.cpp:31-44 | A message is appended exactly when the buffer has room |
| `QueueLaws.InitialLaw` | bcos-sync/BlockSyncConfig.cpp:29-86 | After initialisation all counters are at the ledger's head |
| `PeerLaws.StatusLaw` | bcos-sync/state/SyncPeerStatus.cpp:46-152 | A status of the node's chain is stored with its number and hash, no other record changes, and the known pair becomes the higher one; a status of another chain changes nothing |
| `PeerLaws.ReceiveStatusLaw` | bcos-sync/BlockSync.cpp:401-412 | The same of the whole step; an outsider is only heard when it is ahead |
| `PeerLaws.ReceiveRequestLaw` | bcos-sync/BlockSync.cpp:424-450 | Only an unrecorded group member gets a record from a request, at block 0 |
| `PeerLaws.PeersLaw` | bcos-sync/BlockSync.cpp:705-734 | A group member stays recorded if and only if it is connected, an outsider if it is connected and ahead; a node outside the group changes nothing |
| `PeerLaws.AskablePeersStay` | bcos-sync/BlockSync.cpp:711-729 | A node that is behind keeps exactly the connected ones of the peers it could ask |
| `PeerLaws.OwnRecordIsHead` | bcos-sync/BlockSync.cpp:750-752 | Once the node has told anyone, its own record is its head |
| `PeerLaws.ReceiversAre` | bcos-sync/BlockSync.cpp:735-762 | The receivers are the connected members other than the node, as often as they are listed, and all are told the same |
| `PeerLaws.TellingIsRecorded` | bcos-sync/BlockSync.cpp:749-761 | What a node tells its group makes every member of the same chain record it at its head |
| `FullQueue.NewerIs` | bcos-sync/state/DownloadingQueue.cpp:127-152 | Of a message exactly the entries that decode and are newer count, wherever they stand |
| `FullQueue.FlushLaw` | bcos-sync/BlockSync.cpp:279-292 | The whole flush: where it starts, which messages it takes, which one it loses and what stays |
| `FullQueue.NextIsQueued` | bcos-sync/state/DownloadingQueue.cpp:176-191 | With the next block in the front message, the queue holds it afterwards if and only if it held it before or was not beyond its limit |
| `FullQueue.JammedStep` | bcos-sync/state/DownloadingQueue.cpp:112-191 | A queue beyond its limit that lacks the next block stays as it is through every step of a node that is behind, except a block from outside |
| `FullQueue.JammedForGood` | bcos-sync/state/DownloadingQueue.cpp:112-191 | The same over every run |
| `FullQueue.QueueJams` | bcos-sync/state/DownloadingQueue.cpp:112-163 | A run that jams the queue |
| `RunHistory.KnownIsRunningMaximum` | bcos-sync/state/SyncPeerStatus.cpp:102-152 | At every point of a run the known height is the maximum of all block numbers so far and of all statuses of the node's chain that were let in, its hash arrived together with it, and every peer record is of the node's chain or blank, at or below it |
| `RunHistory.BatchesDoNotOverlap` | bcos-sync/BlockSync.cpp:458-508 | Between two batches of a run there was a timeout, or the consensus reached the known height, or block number or execution point reached the end of what was requested; and that end is at most the known height |
| `RunHistory.NeverAsksItself` | bcos-sync/BlockSync.cpp:750-752 | If no status from the network carries the node's own id, its own record never exceeds its block number and no batch goes to the node itself |
| `RunHistory.QueuesStayBounded` | bcos-sync/state/DownloadingQueue.cpp:31-163 | If messages carry at most L blocks, the buffer stays within its limit and the download queue within the limit plus L - 1, in every run |
| `CatchUp.CatchesUp` | bcos-sync/BlockSync.cpp:196-254 | From a pipeline in any stage with at most k replies for executed blocks on their way, a live round among any d in a row and room for a batch and k + d blocks more: d times the measure many rounds end with the block number at the known height, for every order of arrivals |
| `CatchUp.IdleCatchesUp` | bcos-sync/BlockSync.cpp:196-254 | From an idle node with empty queues behind a fixed known height, with a live round among any d in a row and room for a batch and d blocks more, 9 * d rounds per missing block end at that height |
| `CatchUp.PromptCatchesUp` | bcos-sync/BlockSync.cpp:196-254 | The case d = 1: if every round is live, room for one block beyond a batch and nine rounds per missing block are enough |
| `CatchUp.RoundFlow` | bcos-sync/BlockSync.cpp:204-213 | A round that starts with no more replies for executed blocks than there is room for keeps the pipeline in order, adds nothing to what is left to do, and never lowers the block number |
| `CatchUp.RoundProgress` | bcos-sync/BlockSync.cpp:204-213 | If such a round is live it takes something away from what is left, until the node is at the known height |
| `CatchUp.QuietRound` | bcos-sync/BlockSync.cpp:471-508 | With no callback pending, a live round executes the next block, or has it requested, or has it delivered |
| `CatchUp.PromptReplies` | bcos-sync/BlockSync.cpp:474-478 | A round that takes in the replies outstanding at its start leaves at most one for an executed block |
| `CatchUp.RoundStale` | bcos-sync/BlockSync.cpp:471-508 | A round adds at most one reply for an executed block to those on their way |
| `CatchUp.ArrivalStale` | bcos-sync/state/DownloadingQueue.cpp:268-533 | No arrival adds one: a block that is executed meanwhile is not on its way |
| `LateReplies.RoomIsNeeded` | bcos-sync/state/DownloadingQueue.cpp:31-44 | For every d there is a run from an idle node with a live round among any d in a row and room for a batch and d - 1 blocks, after which a needed block has been dropped and the node is lost |
| `LateReplies.LostForGood` | bcos-sync/BlockSync.cpp:479-487 | A lost node stays at its block number, round after round |
| `CatchUp.RoundsExist` | bcos-sync/BlockSync.cpp:235-254 | From every state there are sequences of live rounds of any length |
| `CatchUp.SomeNodeIsBehind` | bcos-sync/BlockSyncConfig.h:140-146 | A concrete idle node five blocks behind, with the source's default limits |
| `CatchUp.SomePipelineIsFull` | bcos-sync/BlockSync.cpp:588-596 | A pipeline with ten executed and uncommitted blocks, in which the water mark stops execution and the commit queue the requests |
| `Pipeline.ArrivalFlows` | bcos-sync/state/DownloadingQueue.cpp:268-533 | Whichever successful callback or reply arrives next: the executed blocks stay in order between execution and commit, and every requested block stays accounted for exactly once |
| `Pipeline.NextCommitShape` | bcos-sync/state/DownloadingQueue.cpp:525-533 | Committing the next block sends the one after it, if it is executed, to the check |
| `Pipeline.StaleCommitShape` | bcos-sync/state/DownloadingQueue.cpp:416-419 | The second commit of an empty block changes nothing else |
| `WorkerRound.WorkerFlow` | bcos-sync/BlockSync.cpp:279-627 | Flush and execution keep the pipeline in order; what is left to do falls unless the next block is not there or the water mark forbids it |
| `WorkerRound.ReadyIsNext` | bcos-sync/BlockSync.cpp:598-626 | The block taken for execution is the chain's next one, is not executing already, and is not on its way a second time |
| `WorkerRound.BatchStarts` | bcos-sync/BlockSync.cpp:474-487 | A batch starts only when all that was requested is executed, at most one executed block is uncommitted, and the download queue is empty |
| `WorkerRound.BatchOnEmpty` | bcos-sync/BlockSync.cpp:488-565 | A batch on an empty queue is not empty and not larger than the peers' shards |
| `Delivery.CallbackWork` | bcos-sync/state/DownloadingQueue.cpp:268-533 | Every successful callback lowers a bound on the callbacks still to come, in any state |
| `Delivery.EnvStepWork` | bcos-sync/state/DownloadingQueue.cpp:268-533 | Every successful callback and every reply lowers a bound on the ones still to come, in any state |
| `Delivery.EnvRunIsShort` | bcos-sync/state/DownloadingQueue.cpp:268-533 | So the callbacks and replies of a round are at most as many as that bound |
| `Delivery.Settles` | bcos-sync/state/DownloadingQueue.cpp:268-533 | From every state everything under way can be delivered |
| `Delivery.RoundExists` | bcos-sync/BlockSync.cpp:204-213 | A round exists from every state, so the convergence statement is about something |
| `RequestPlanner.ShardsPartition` | bcos-sync/BlockSync.cpp:515-531 | The first k shards are together exactly (from, min(to, from + k * B)], each number in one shard |
| `RequestPlanner.ShardsAdjacent` | bcos-sync/BlockSync.cpp:529-530 | Shards start at from + 1, follow each other without gap, and hold 1 to B blocks |
| `RequestPlanner.ShardTotalBounds` | bcos-sync/BlockSync.cpp:516-516 | The shard count is the ceiling: the last shard starts within the range and the rounded-up range is covered |
| `RequestPlanner.PlanFitsWords` | bcos-sync/BlockSync.cpp:515-539 | The first k shards of the 64-bit plan equal those of the integer plan if and only if from + k * B fits a block number, which to <= 2^63 - B ensures; the shard count is always right |
| `RequestPlanner.PlanCanWrap` | bcos-sync/BlockSync.cpp:529-530 | A range near the largest block number whose shard end becomes negative |
| `RequestPlanner.KeptCount` | bcos-sync/BlockSync.cpp:522-527 | In every order of the peers equally many qualify, and no peer appears twice |
| `RequestPlanner.AskPeers` | bcos-sync/BlockSync.cpp:522-554 | One traversal hands the next shards in order to different qualifying peers until shards or peers run out, and the second height test never refuses |
| `RequestPlanner.AskAll` | bcos-sync/BlockSync.cpp:519-564 | All traversals together send min(shards, peers * maxShardPerPeer) messages, at most maxShardPerPeer to one peer, for any random orders |
| `RequestPlanner.RequestShards` | bcos-sync/BlockSync.cpp:510-565 | The same for the 64-bit shards of a range, and the highest requested number is their maximum |
| `RequestPlanner.RequestExactly` | bcos-sync/BlockSync.cpp:510-565 | If the shards sent fit, their count is min(ceil((to - from) / B), E * maxShardPerPeer) and the highest requested number is the end of that part of the range |
| `PeerTracking.PeerStatus.Update` | bcos-sync/state/SyncPeerStatus.cpp:46-75 | Whether and how a peer record takes over a status |
| `PeerTracking.SyncPeerStatus.UpdatePeerStatus` | bcos-sync/state/SyncPeerStatus.cpp:102-138 | The records and the known pair after a status, and whether it was of the node's chain |
| `PeerTracking.SyncPeerStatus.UpdateKnownMaxBlockInfo` | bcos-sync/state/SyncPeerStatus.cpp:140-152 | The known pair rises with a higher status, number and hash together |
| `PeerTracking.SyncPeerStatus.InsertEmptyPeer` | bcos-sync/state/SyncPeerStatus.cpp:93-100 | A new blank record is returned, and inserted unless the peer has one |
| `PeerTracking.SyncPeerStatus.DeletePeer` | bcos-sync/state/SyncPeerStatus.cpp:154-162 | Exactly that peer's record goes |
| `PeerTracking.SyncPeerStatus.RandomOrder` | bcos-sync/state/SyncPeerStatus.cpp:172-184 | For any random choices the order is a permutation of the peers |
| `PeerTracking.SyncPeerStatus.ForeachPeerRandom` | bcos-sync/state/SyncPeerStatus.cpp:164-199 | The visitor sees a prefix of that permutation, which ends at its first refusal |
| `PeerTracking.Shuffle` | bcos-sync/state/SyncPeerStatus.cpp:180-184 | The in-place shuffle permutes, whatever the random choices |
| `PeerTracking.PermutationIsDuplicateFree` | bcos-sync/state/SyncPeerStatus.cpp:187-198 | A permutation of the keys visits every peer exactly once |
| `PeerTracking.StatusKeepsGood` | bcos-sync/state/SyncPeerStatus.cpp:102-152 | A status keeps every record of the node's chain or blank and at or below the known height, and the known pair is the maximum |
| `PeerTracking.StatusTwice` | bcos-sync/state/SyncPeerStatus.cpp:46-75 | The same status a second time changes nothing |
| `SyncConfig.BlockSyncConfig.SetExecutedBlock` | bcos-sync/BlockSyncConfig.cpp:127-133 | The execution point moves unless it would fall below the block number |
| `SyncConfig.BlockSyncConfig.SetGenesisHash` | bcos-sync/BlockSyncConfig.cpp:63-70 | The genesis hash, which is the known hash while there is none |
| `SyncConfig.BlockSyncConfig.ResetBlockInformation` | bcos-sync/BlockSyncConfig.cpp:72-86 | Block number, next block, hash, known pair and execution point after a new block |
| `SyncConfig.BlockSyncConfig.Reset` | bcos-sync/BlockSyncConfig.cpp:29-61 | A stale block is ignored unless the node is at block 0 |
| `BlockQueues.ClearExpired` | bcos-sync/state/DownloadingQueue.cpp:541-548 | Popping only the top leaves exactly the blocks above the given number |
| `BlockQueues.Top` | bcos-sync/state/DownloadingQueue.h:31-41 | The top is a block of least number |
| `BlockBuffer.FlushBuffer` | bcos-sync/state/DownloadingQueue.cpp:100-110 | The loop computes the specification of a flush: a prefix accepted, one message lost to a full queue, the rest kept in order |
| `BlockBuffer.FlushOneShard` | bcos-sync/state/DownloadingQueue.cpp:112-163 | Exactly the decodable newer blocks are added, or the message is refused as a whole by a full queue |
| `BlockBuffer.AcceptedIsFirstFull` | bcos-sync/state/DownloadingQueue.cpp:104-123 | The prefix accepted ends exactly at the first message that finds the queue full |
| `BlockBuffer.FlushCapacity` | bcos-sync/state/DownloadingQueue.cpp:100-163 | A flush overshoots the limit by less than one message and never lengthens the buffer |
| `Downloads.DownloadingQueue.Push` | bcos-sync/state/DownloadingQueue.cpp:31-44 | A message is appended unless the buffer is full |
| `Downloads.DownloadingQueue.Clear` | bcos-sync/state/DownloadingQueue.cpp:84-98 | Buffer and download queue are emptied, the commit queue is not |
| `Downloads.DownloadingQueue.FlushBufferToQueue` | bcos-sync/state/DownloadingQueue.cpp:100-110 | The buffer is flushed as specified |
| `Downloads.DownloadingQueue.ClearFullQueueIfNotHas` | bcos-sync/state/DownloadingQueue.cpp:176-191 | A full queue without the wanted block is emptied |
| `Downloads.DownloadingQueue.ClearExpiredQueueCache` | bcos-sync/state/DownloadingQueue.cpp:535-548 | Both queues keep exactly what is above the block number |
| `Downloads.DownloadingQueue.ApplyDownloaded` | bcos-sync/state/DownloadingQueue.cpp:251-268 | A block above the block number is handed to execution, another resets the execution point |
| `Downloads.DownloadingQueue.OnExecuted` | bcos-sync/state/DownloadingQueue.cpp:269-318 | The execute callback is the execute step: rollback on error or a different hash, otherwise execution point, commit queue and a commit pass |
| `Downloads.DownloadingQueue.UpdateCommitQueue` | bcos-sync/state/DownloadingQueue.cpp:376-383 | The block is queued for commit and a pass follows |
| `Downloads.DownloadingQueue.TryToCommitBlockToLedger` | bcos-sync/state/DownloadingQueue.cpp:385-406 | Expired blocks are dropped and the next block, if it is on top, goes to the check |
| `Downloads.DownloadingQueue.CheckAndCommitBlock` | bcos-sync/state/DownloadingQueue.cpp:321-336 | Only the next block goes to the check, another resets the execution point |
| `Downloads.DownloadingQueue.OnChecked` | bcos-sync/state/DownloadingQueue.cpp:337-372 | The check callback is the check step: commit, or rollback below the block |
| `Downloads.DownloadingQueue.CommitDownloaded` | bcos-sync/state/DownloadingQueue.cpp:409-440 | Storing always starts; for an empty block the commit starts as well |
| `Downloads.DownloadingQueue.OnStored` | bcos-sync/state/DownloadingQueue.cpp:441-471 | The store callback is the store step: commit, or rollback below the block |
| `Downloads.DownloadingQueue.OnCommitted` | bcos-sync/state/DownloadingQueue.cpp:481-521 | The commit callback is the commit step: finalize, or rollback below the block |
| `Downloads.DownloadingQueue.FinalizeBlock` | bcos-sync/state/DownloadingQueue.cpp:525-533 | The new head is adopted, expired blocks go, and a commit pass follows |
| `Downloads.DownloadingQueue.OnNewHead` | bcos-sync/BlockSync.cpp:394-399 | Counters and both queues after a new head |
| `BlockSync.Node.constructor` | bcos-sync/BlockSync.cpp:59-75 | An initialised node is in the initial state of the protocol for the given ledger head and genesis |
| `BlockSync.Node.ShouldSyncing` | bcos-sync/BlockSync.cpp:256-272 | True exactly while block number, committed proposal and execution point are all below the known height |
| `BlockSync.Node.MaintainDownloadingBuffer` | bcos-sync/BlockSync.cpp:279-292 | The buffer step of the protocol |
| `BlockSync.Node.MaintainDownloadingQueue` | bcos-sync/BlockSync.cpp:567-627 | The queue step of the protocol: a commit pass, then at most one block into execution |
| `BlockSync.Node.ExecuteTop` | bcos-sync/BlockSync.cpp:576-626 | Exactly the block after the execution point is executed, if it is on top and the water mark leaves room |
| `BlockSync.Node.TryToRequestBlocks` | bcos-sync/BlockSync.cpp:471-508 | The request step of the protocol, the messages being the exact plan for the gap |
| `BlockSync.Node.ReadyToRequest` | bcos-sync/BlockSync.cpp:474-487 | Waits while executed blocks await commit, ends a finished batch, and starts none while one is open |
| `BlockSync.Node.RequestTarget` | bcos-sync/BlockSync.cpp:488-500 | The last number worth asking for |
| `BlockSync.Node.RequestBlocks` | bcos-sync/BlockSync.cpp:510-565 | The messages of a batch, their exact number, and the new end of what was requested |
| `BlockSync.Node.AsyncNotifyNewBlock` | bcos-sync/BlockSync.cpp:374-392 | The new-block step of the protocol; a stale notice is ignored |
| `BlockSync.Node.AsyncNotifyCommittedIndex` | bcos-sync/BlockSync.h:54-63 | The committed-index step of the protocol |
| `BlockSync.Node.OnPeerStatus` | bcos-sync/BlockSync.cpp:401-412 | The status step of the protocol: a low status from outside the group is rejected |
| `BlockSync.Node.OnPeerBlocks` | bcos-sync/BlockSync.cpp:414-422 | The block-message step of the protocol |
| `BlockSync.Node.OnPeerBlocksRequest` | bcos-sync/BlockSync.cpp:431-444 | A group member without a record gets a blank one |
| `BlockSync.Node.OnDownloadTimeout` | bcos-sync/BlockSync.cpp:458-463 | The timeout step of the protocol |
| `BlockSync.Node.StalePeers` | bcos-sync/BlockSync.cpp:711-729 | Exactly the disconnected peers and the outsiders that are not ahead, never the node itself |
| `BlockSync.Node.AnnounceToGroup` | bcos-sync/BlockSync.cpp:735-762 | Exactly the connected members other than the node are told its status, in order, and recording it once per member is the same as recording it once |
| `BlockSync.Node.MaintainPeersConnection` | bcos-sync/BlockSync.cpp:705-763 | The peer-maintenance step of the protocol, and the status messages it sends |
| `BlockSync.BatchOutcome` | bcos-sync/BlockSync.cpp:507-544 | A batch of that many messages leaves the node as the protocol says |
| `DownloadRequests.MergeTop` | bcos-sync/state/DownloadRequestQueue.cpp:52-82 | In 64 bits every call makes progress; when the requests start at block numbers and end below 2^64, the result is the exact union of those removed, and exactly those starting strictly after its end are left |
| `DownloadRequests.First` | bcos-sync/state/DownloadRequestQueue.h:43-53 | The queue's order: least first number, then largest size |
| `DownloadRequests.MergeSplits` | bcos-sync/state/DownloadRequestQueue.cpp:52-82 | A merge moves each covered number from the queue to the range, none lost and none left behind |
| `DownloadRequests.MergeIsUnique` | bcos-sync/state/DownloadRequestQueue.cpp:68-77 | The queue alone determines the merged range and what is left, whatever the order of ties |
| `DownloadRequests.MergeFits` | bcos-sync/state/DownloadRequestQueue.cpp:68-81 | What is merged ends below 2^63 if and only if every request merged into it does |
| `DownloadRequests.MergedAway` | bcos-sync/state/DownloadRequestQueue.cpp:68-81 | A request for three blocks that is merged into a range beyond 2^63 |
| `DownloadRequests.MergeExists` | bcos-sync/state/DownloadRequestQueue.cpp:68-77 | Every queue that is not empty can be merged |
| `DownloadRequests.DrainIsExact` | bcos-sync/BlockSync.cpp:638-650 | Every drain of a queue consists of increasing ranges that do not touch and covers exactly the queued requests |
| `DownloadRequests.DrainRanges` | bcos-sync/BlockSync.cpp:638-650 | Draining yields increasing ranges that do not touch and cover exactly the queued requests |
| `DownloadRequests.DrainIsUnique` | bcos-sync/BlockSync.cpp:638-650 | A queue has only one drain |
| `DownloadRequests.SeparatedAreUnique` | bcos-sync/BlockSync.cpp:638-650 | Queues that ask for the same numbers drain to the same non-empty ranges |
| `DownloadRequests.DownloadRequestQueue.Push` | bcos-sync/state/DownloadRequestQueue.cpp:28-50 | A request is queued unless the queue is full |
| `DownloadRequests.DownloadRequestQueue.TopAndPop` | bcos-sync/state/DownloadRequestQueue.cpp:52-82 | Nothing from an empty queue, otherwise a merge of it |
| `BlockServer.StepConserves` | bcos-sync/BlockSync.cpp:638-702 | Popping, sending, failing and throwing keep every requested number in exactly one place exactly once |
| `BlockServer.ServingConserves` | bcos-sync/BlockSync.cpp:629-703 | Over every run nothing is sent twice or unasked, and a finished run has sent or lost every requested number |
| `BlockServer.ServingEnds` | bcos-sync/BlockSync.cpp:638-670 | With callbacks in any order a run is at most as long as requests, twice the failed fetches and the numbers asked for together |
| `BlockServer.FailureLaw` | bcos-sync/BlockSync.cpp:663-671 | A failed fetch is put back if and only if the queue has room, and lost otherwise |
| `BlockServer.SentLaw` | bcos-sync/BlockSync.cpp:672-701 | A number is sent exactly by a fetch that comes back with its block, not by one that fails or throws |
| `BlockServer.QueueStaysBounded` | bcos-sync/state/DownloadRequestQueue.cpp:28-42 | Failures never push the queue beyond its limit |
| `BlockServer.ServingGoesOn` | bcos-sync/BlockSync.cpp:638-702 | A run that is not finished can go on without another failure |
| `BlockServer.ServingCompletes` | bcos-sync/BlockSync.cpp:629-703 | A finished run without exceptions and with room for the failures has sent every requested number exactly once |
| `BlockServer.FetchedWholeOrNotAtAll` | bcos-sync/BlockSync.cpp:641-646 | A merged range is fetched to its end if and only if it ends below 2^63, and otherwise not at all |
| `BlockServer.FetchRange` | bcos-sync/BlockSync.cpp:641-702 | The inner loop conserves the numbers, and every failure either shows in the queue or is a drop on a full queue; of a range that reaches 2^63 nothing is sent |
| `BlockServer.ServePeer` | bcos-sync/BlockSync.cpp:638-650 | The loop empties the queue by (failures left, queue length); each requested number is sent or lost once, and none is lost when there is room |
| `EndToEnd.RequestAndServe` | bcos-sync/BlockSync.cpp:510-653 | A batch of k shards for (from, to] is answered with exactly (from, min(to, from + k * B)], every block once, for any random orders and any failed fetches |
| `BatchReplies.ServeAsked` | bcos-sync/BlockSync.cpp:484-653 | The numbers the peers serve for a batch are those of the blocks that the convergence results put on their way, each once |
| `EndToEnd.ServeBatch` | bcos-sync/BlockSync.cpp:629-653 | All peers together serve exactly the numbers their messages ask for |
| `EndToEnd.Receive` | bcos-sync/BlockSync.cpp:445-450 | A peer's queue holds exactly the messages sent to it |
| `EndToEnd.PlanIsDisjoint` | bcos-sync/BlockSync.cpp:529-539 | No number is asked for twice in a batch, and what is asked for is the range |

## Left out

- Message classes, the message factory and the protobuf encoding: datatypes stand for messages, and a block that does not decode is a missing entry of its message.
- Scheduler, ledger, consensus and front service: their answers are steps with a free outcome.
- Threads, timers, the condition variable and the worker loop: a run is any sequence of steps, and a timeout is one of them.
- Interleavings inside one method: methods are atomic.
- Exceptions thrown inside the execute, check, store and commit callbacks: the source logs and drops them, the model has no such step.
- Downloads.DownloadingQueue.ClearFullQueueIfNotHas: under a queue limit of 0 the source reads the top of an empty queue; the model leaves the queue alone.
- SyncConfig.BlockSyncConfig.Reset: the notification to the consensus and the node lists are not modelled.
- The node lists of the group and of the connected nodes: parameters of the steps that read them.
- Messages that carry no result in this module: status broadcasts, `notifyHighestSyncingNumber`.
- Logging, the JSON status and the factory: output and wiring only.
- Parallel encoding of transactions: an element-wise map; a block is its number, hash and number of transactions.
- BlockSync.Node.OnPeerBlocksRequest: records the peer only; the peer's request queue is the subject of `DownloadRequests`, `BlockServer` and `EndToEnd`, where the request is pushed.
- BlockServer.ServePeer: answers fetches in order; fetches that come back in any order are covered by `BlockServer.ServingConserves`, `BlockServer.ServingEnds` and `BlockServer.ServingCompletes`.
- Convergence.IsRound: in the rounds of the convergence results nothing arrives between the flush and the pass over the queues, and the peer maintenance that precedes them is left out, as is any change of the peers' records.
- CatchUp.CatchesUp: replies are one-block messages, each block of a batch once, as `BatchReplies.ServeAsked` says the peers send them, and callbacks succeed; lost replies, failures, timeouts and outside blocks are part of the safety results only.
- EndToEnd.RequestAndServe: each peer's queue starts empty and has room for its shards and for the failed fetches put back; the last number is below 2^63 - 1, since a range that ends at 2^63 is not served.
- BlockSync.Node.TryToRequestBlocks: stated where the shards it sends fit a block number; beyond that `RequestPlanner.RequestShards` says what is sent.
- DownloadRequests.MergeTop: for requests that end beyond an unsigned word it promises progress only.
