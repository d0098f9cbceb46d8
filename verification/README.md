# Verified model of the E2C replication library

This project models the steady state of the E2C replication protocol and the machinery under it, and
proves what the code keeps. It has three connected parts.

**The protocol.** `Blocks.dfy` has the data: a block's hash is an ideal hash, a term standing for the
content, so that equal hashes mean equal content and no block is among its own ancestors. One replica is
a class, `Core.E2CCore`, with the fields, loops and mutable blocks of the original; its methods are proved
against value-level functions (`Propose`, `Receive`, `Update`, `Commit`), and networks of replicas are
built from those functions: `FifoNet` (a correct proposer, FIFO links, timers in arming order),
`FloodNet` (a correct proposer, links that delay, reorder and duplicate) and `TimedNet` (a logical clock,
messages handled within a bound, a proposer that may equivocate). `Commits` takes one replica through
any timer order, `Tails` its set `tails` through any sequence of calls. `Commands` is the path of a client
command through batching, and `Batching` joins it to the network: from `exec_command` to every replica's log.

**The promise engine.** `PromiseMachine` is a promise graph with its callbacks as data; `PromiseInvariant`
and `PromiseOrder` say what every run keeps, `PromiseConfluence` what cannot depend on the order of
events. `PromiseEngine` is the default, recursive build as a class. `PromiseStack` is the explicit-stack
build as a value and `PromiseStackFree` its class. `PromiseLevels` lets callbacks and visits of that build change
places until it is recursion, `PromiseReasons` carries this over whole runs of both builds, and `PromiseBuilds`
says where they agree and where not. `Handles` is the reference counting of promise handles.

**Delivery and the data it rests on.** `Delivery` is fetching, verifying and delivering over the DAG of
hashes; `Codec` the wire format; `QuorumCert` quorum certificates and their two checks; `VeriPool` the
verification worker pool. `Basics` has what several modules need.

A method of a class is stated as a step of a value-level model (`Abs() == Step(old(Abs()), ...)`), and the
theorems are about runs of those steps. `dafny verify dfyconfig.toml` checks everything.

## What is false, and when it holds

* `commit_timer_cb` says "Commit this block and all parents" and commits height `ht` only
  (`src/consensus.cpp:208-216`). The code is modelled as it is; `Commits.ParentsCommittedIff` says when the
  comment holds, and two runs break it: `Commits.OutOfOrder`, and `Commits.UndecidedParent` with an
  equivocating proposer and timers in order. The walk it describes is a separate variant, `Blocks.Walk`,
  `Core.E2CCore.CommitTimerCbWalk` and `Commits.StepWalk`, that is not in the code.
* A block whose wire height is not one more than its first parent's changes its hash when forwarded, because
  delivery overwrites the height: `Blocks.ForwardedUnchangedIff`, `Core.ForwardIllHeighted`.
* `on_propose` erases tails before it can throw: `Tails.AlwaysExactIff` says which call sequences `tails`
  survives, `Tails.TailLostAndRegained` and `Core.LoseTail` are one that it does not.
* Order independence of promises fails for a rejection handler behind an `all` of different promises that picks
  the promise it hands over by the reason: `PromiseConfluence.OrderFreeIffBlind`, and `PromiseConfluence.OrderFreeIff`
  where the handler may hand over an input of that `all`. The reason of such an `all` depends on the order too,
  `PromiseConfluence.ReasonsDiffer`; reasons with no such `all` upstream do not.
* The two builds of the promise library can settle an `all` that lists a promise together with one derived from it
  with different reasons, on the same calls in the same order: `PromiseBuilds.BuildsAgreeIff`,
  `PromiseBuilds.BuildsDiffer`. With no such `all` upstream every promise ends equal in both, its reason included:
  `PromiseBuilds.RefinesRecursive`. An `all` over independent promises is never of that kind: `PromiseBuilds.ApartLevel`.
* In the explicit-stack build `then` or `fail` on a settled promise leaves the promise it makes in a `pre` state; so a
  run leaves none in such a state if and only if it makes no such call: `PromiseStack.NoneInPreIff`.
* `get_parents` reads the height map with `[]`: for a hole it returns a null block and stores one in the map, where
  `update` would use it: `Core.E2CCore.GetParents`.
* `nmajority` is computed from a counter that counts a repeated replica id again: `Core.CountIff`.
* A block's proposer field loses its upper half: `Codec.ReencodeIff`, `Codec.BlocksReencodeIff`. A negative
  decision does not carry its block hash: `Codec.FinalityRoundTripIff`.
* Parsing a certificate into an object that holds other signatures breaks the match of bits and signatures:
  `QuorumCert.ParseMatchIff`, `QuorumCert.StaleAccepted`. With no bit set the promise-based check throws where
  the loop accepts, and for an unknown replica where the loop rejects first: `QuorumCert.ChecksAgreeIff`.
* Copying a moved-from promise handle breaks its counter: `Handles.KeepsIffCareful`.

## Assumptions

* The hash is injective on content and a block cannot contain its own hash. Heights and indices in the
  protocol models are unbounded naturals; the code's are 32 bits wide.
* Blocks have parents down to the genesis block: `on_deliver_blk` reads `parents[0]` unguarded. In the
  network models received blocks have the height their first parent determines.
* Verification is an oracle. That a verified block was made by the proposer is an assumption: `Block::verify`
  checks the certificate, which is not bound to the block's hash. A block proposed here verifies, and is not
  at the same time being waited for by delivery.
* The proposer is fixed; handlers and callbacks are atomic steps.

## Model

| member | source | states |
|---|---|---|
| `Blocks.ForwardedUnchangedIff` | src/consensus.cpp:70-85 | a delivered block keeps its hash when it is serialised again if and only if its wire height is one more than its first parent's: delivery overwrites the height |
| `Blocks.Ancestor` | src/consensus.cpp:78-78 | following first parents passes every lower height: from a block of height n there is an ancestor of each height down to 0 |
| `Blocks.NewBlockHeight` | src/consensus.cpp:150-166 | a block built by `on_propose` has the height delivery will give it, so it is forwarded unchanged |
| `Blocks.ParentsFrom` | src/consensus.cpp:44-55 | over a gap-free map the parent list is the stored blocks in descending height followed by the genesis block |
| `Core.E2CCore.constructor` | src/consensus.cpp:25-42 | a new replica has a store of its own with the genesis block only, an empty height map, and the genesis block in `tails` |
| `Core.E2CCore.AddReplica` | include/libe2c/entity.h:55-58 | the first entry of an id stays and the counter goes up in any case |
| `Core.E2CCore.GetInfo` | include/libe2c/entity.h:60-66 | the entry of an id that was added, or an exception |
| `Core.CountIff` | include/libe2c/entity.h:55-58 | `nreplicas` is the number of replicas if and only if no id was added twice, and never less; the ids found are those added |
| `Core.FirstEntryStays` | include/libe2c/entity.h:55-58 | whatever is added later, an id keeps the entry it was first added with |
| `Core.E2CCore.OnInit` | src/consensus.cpp:201-204 | height 0 is stored and `nmajority` is the counter of replicas less the faulty ones, modulo 2^64; nothing else changes |
| `Core.E2CCore.AddBlk` | include/libe2c/entity.h:218-225 | the first object stored under a hash wins; what is added is new, delivered blocks and `tails` are untouched |
| `Core.E2CCore.GetDeliveredBlk` | src/consensus.cpp:63-68 | a stored and delivered block, or an exception |
| `Core.E2CCore.CollectParents` | src/consensus.cpp:75-77 | the loop yields the stored parent objects in order, or throws exactly when one is not delivered |
| `Core.E2CCore.EraseTails` | src/consensus.cpp:80-80 | the loop removes exactly the given blocks |
| `Core.E2CCore.OnDeliverBlk` | src/consensus.cpp:70-85 | delivery succeeds if and only if the block is new and all parents are delivered; it then links the stored parents in order and replaces them in `tails`; otherwise nothing changes |
| `Core.E2CCore.DeliverKeepsTails` | src/consensus.cpp:80-84 | erasing the parents and inserting the block is the step of `tails` that the theorems on call sequences are about |
| `Core.E2CCore.Update` | src/consensus.cpp:87-148 | the first block of a height is stored, may become `b_mark` and arms one timer; a second one changes nothing |
| `Core.E2CCore.OnPropose` | src/consensus.cpp:150-178 | with delivered parents the new block names this replica as its proposer, has the given commands, extra bytes and parents and the height after its first parent's, and is delivered, stored and broadcast; with no parent, or an undelivered one, the call throws, and in the second case the block is stored and the parents are gone from `tails` |
| `Core.E2CCore.OnReceiveProposal` | src/consensus.cpp:180-198 | an undelivered block throws; a block already stored is dropped; any other is stored if its height is free and is forwarded in either case |
| `Core.E2CCore.GetParents` | src/consensus.cpp:44-55 | the list has one entry for each height from that of `b_mark` down to 1 and then genesis, and a null block exactly where the map has a hole; each hole read gets a null entry in the map, and nothing else changes |
| `Core.E2CCore.ParentHashesFrom` | src/consensus.cpp:49-53 | without holes every entry is stored and delivered and has the hash the network models give it |
| `Core.E2CCore.CommitBlock` | src/consensus.cpp:212-228 | one round sets the decision and hands over the block's commands in index order |
| `Core.E2CCore.CommitTimerCb` | src/consensus.cpp:207-230 | as written the loop never changes `idx`: it commits the block at height `ht` only, once, and ends on its second round |
| `Core.E2CCore.Make` | src/consensus.cpp:70-230 | every call on stored blocks, one that throws too, is one step of the runs `Tails` is about |
| `Core.Serve` | src/consensus.cpp:70-230 | a client that makes any sequence of calls on one replica ends in the state the value model computes |
| `Core.LoseTail` | src/consensus.cpp:156-168 | a client reaches the failing `on_propose`: it throws and a delivered block that nothing extends is missing from `tails` |
| `Core.ReceiveAndForward` | src/consensus.cpp:70-198 | a received block goes out under its own hash if and only if its height on the wire is the one delivery computes |
| `Core.ForwardIllHeighted` | src/consensus.cpp:78-195 | a client receives a first block whose height is not 1 and broadcasts it under another hash |
| `Tails.TailsOverRuns` | src/consensus.cpp:70-178 | after any sequence of `add_blk`, `on_deliver_blk`, `on_propose`, `on_receive_proposal` and timers, `tails` is the delivered blocks no delivered block lists as parent, but for those that throwing proposals took away |
| `Tails.BuiltIsKnown` | src/consensus.cpp:158-162 | the one block a proposal adds to the store, a throwing one too, has these fields |
| `Tails.ExactIff` | src/consensus.cpp:80-81 | at the end it has no block missing if and only if each of those has been extended since |
| `Tails.AlwaysExactIff` | src/consensus.cpp:156-168 | it is exact all along if and only if no proposal with an undelivered parent names a tail |
| `Tails.TailLostAndRegained` | src/consensus.cpp:156-168 | a throwing proposal over genesis loses it from `tails`, and a later proposal over genesis makes up for it |
| `Core.E2CCore.CommitTimerCbWalk` | src/consensus.cpp:210-216 | a variant that is not the code: indexing by `i` walks down to the first decided block, and ends at genesis at the latest |
| `Commits.ExactlyOnce` | src/consensus.cpp:141-147 | as written, over any timer order and any blocks: each stored non-genesis block has one timer, armed or fired, and its commands are decided exactly once, when it fires |
| `Commits.FiringOrder` | src/consensus.cpp:222-228 | the log is the fired blocks in firing order, commands in index order |
| `Commits.ParentsCommittedIff` | src/consensus.cpp:210-210 | every parent of every decided block is decided too, throughout a run, if and only if timers fire for heights 1, 2, 3, ... in order and the parents of each block that fires are the blocks stored at their heights |
| `Commits.LogOrderIff` | src/consensus.cpp:207-230 | as written the log is lowest block first if and only if the timers of the blocks with commands fire in ascending order of height |
| `Commits.WriteOnce` | src/consensus.cpp:95-139 | over any events, an equivocating proposer's blocks included, the block stored at a height is never replaced, no decision is taken back and the log only grows |
| `Commits.StoresFirst` | src/consensus.cpp:87-198 | over any events a replica stores the first block of each height it was offered, `b_mark` is the highest of them, and it has broadcast, in order, each block it proposed as it is and each one it received with the height delivery gives, conflicting ones too, but for those it already stored |
| `Commits.WalkDecidesPrefix` | src/consensus.cpp:211-216 | variant: decided heights are always a prefix 0..c, so stopping at the first decided block skips nothing, and each command below is handed over once |
| `Commits.WalkOrderIff` | src/consensus.cpp:211-228 | variant: the log is lowest block first if and only if the walk reaches the blocks with commands in ascending order; where all have commands, if and only if no timer fires before that of the height below |
| `Commits.OutOfOrder` | src/consensus.cpp:210-213 | a run in which the timer of height 2 fires first and its block is decided without its parent |
| `Commits.UndecidedParent` | src/consensus.cpp:95-132 | a run with an equivocating proposer in which timers fire in order and a decided block has a parent that is never decided |
| `Commits.WalkBackwards` | src/consensus.cpp:211-228 | variant: the same out-of-order timer hands over block 2 before block 1 |
| `FifoNet.PlayKeeps` | src/consensus.cpp:158-198 | with a fixed correct proposer and FIFO links every event of a run keeps every replica a prefix of the proposer's chain |
| `FifoNet.GapFree` | src/consensus.cpp:44-55 | in every reachable state each map covers heights 0 to that of `b_mark`, each block's parents are the stored blocks below it in descending order, and each link's history is blocks 1 to `b_mark` in order |
| `FifoNet.ProposersBlocks` | src/consensus.cpp:158-162 | in every reachable state each block stored or broadcast, but genesis, names the proposer and has the right height |
| `FifoNet.LogSafety` | src/e2c.cpp:378-411 | every replica's decided commands are a prefix of the commands the proposer dequeued, in order |
| `FifoNet.LogsAgree` | src/e2c.cpp:338-347 | of any two replicas' logs one is a prefix of the other |
| `FifoNet.LogEntry` | src/consensus.cpp:225-228 | in every reachable state entry (k-1)*blk_size+i of a log is command i of the block stored at height k, which has blk_size commands, with those numbers in the decision |
| `FifoNet.LogLength` | src/e2c.cpp:393-403 | and a log has blk_size entries for each timer fired and no more |
| `TimedNet.PlayKeeps` | src/consensus.cpp:87-148 | every step of the clock, of links and of timers, with blocks injected at will, keeps: what was handled at t is handled everywhere by t + bound or in flight |
| `TimedNet.FiresIff` | src/consensus.cpp:141-147 | in every reachable state an armed timer can fire from 2*delta after its block was stored on and not before, and firing decides that block |
| `TimedNet.WriteOnce` | src/consensus.cpp:95-139 | nor does any replica of the network replace the block it stores at a height, in any run |
| `TimedNet.ConflictDetected` | src/consensus.cpp:95-132 | even with an equivocating proposer, a replica that holds another block than a correct peer at a height was shown the peer's block within twice the message bound of storing its own |
| `TimedNet.BothDetect` | src/consensus.cpp:141-147 | both of them know no later than their own 2*delta commit timers |
| `TimedNet.CommitKnows` | src/consensus.cpp:206-230 | with messages faster than delta, no commit timer fires at a height in conflict before the conflict was shown |
| `FloodNet.PlayKeeps` | src/consensus.cpp:158-198 | under delay, reordering and duplication, with a fixed correct proposer, the invariant holds in every run |
| `FloodNet.ProposersBlocks` | src/consensus.cpp:158-162 | the same under delay, reordering and duplication, for what is stored and what is in flight, so receivers that expect this proposer let it through |
| `FloodNet.Agreement` | src/consensus.cpp:95-139 | two replicas that hold a height hold the same block |
| `FloodNet.AgreementOverTime` | src/consensus.cpp:158-169 | and so do any two replicas at any two moments of a run |
| `FloodNet.Complete` | src/consensus.cpp:174-195 | when nothing is in flight every replica stores every proposed block |
| `FloodNet.ArriveDescends` | src/consensus.cpp:180-198 | each delivery lowers n times the unstored (replica, block) pairs plus the messages in flight |
| `FloodNet.FloodingEnds` | src/consensus.cpp:174-198 | without new proposals a run has at most that many deliveries, and at its end every replica stores every block and has broadcast each exactly once |
| `FloodNet.FloodingEndsEverywhere` | src/consensus.cpp:174-198 | from every reachable state |
| `Commands.CommandPool.HandleQueue` | src/e2c.cpp:378-411 | the handler loop does what its specification says, stops after one proposal and then asks to be called again |
| `Commands.CommandPool.PopBatch` | src/e2c.cpp:393-398 | the inner loop takes the first `blk_size` commands off the buffer |
| `Commands.CommandPool.ExecCommand` | src/e2c.cpp:73-75 | a call appends to the queue |
| `Commands.CommandPool.DoDecide` | src/e2c.cpp:338-347 | the callback that waits for the command is called with the decision and forgotten; nothing else changes |
| `Commands.CommandPool.constructor` | include/libe2c/e2c.h:198-201 | nothing queued, waiting or buffered |
| `Commands.HandleKeeps` | src/e2c.cpp:380-410 | one call of the handler proposes at most one block, and none only when the queue is drained |
| `Commands.AnsweredOnce` | src/e2c.cpp:384-388 | in every run each `exec_command` is answered at most once, with its own command, and is otherwise queued or awaiting a decision |
| `Commands.DecisionAnswers` | src/e2c.cpp:338-347 | in every run a decision answers the call that waits for its command, and it alone, with itself; nothing waits for that command afterwards |
| `Commands.AnsweredWithDue` | src/e2c.cpp:378-388 | in every run each call that has left the queue is answered once: with 0 if an earlier call for its command was taken and no decision on that command came in between, else with the first decision on it afterwards; as long as there is none it waits |
| `Commands.BatchedInOrder` | src/e2c.cpp:389-398 | in every run the proposer's blocks are the commands in call order, repeated ones too, in batches of `blk_size`, with less than a batch left over; other replicas propose nothing |
| `Batching.RunCut` | src/e2c.cpp:378-411 | in every run of the handler its proposals and its buffer are the commands taken, cut into batches as they come |
| `Batching.PlayCut` | src/e2c.cpp:389-403 | in every run of the network so are the proposer's blocks and buffer; links and timers touch neither |
| `Batching.SameProposals` | src/e2c.cpp:378-411 | so for any run of the handler and any run of the network fed with the commands it took, the broadcast blocks carry exactly the handler's proposals |
| `Batching.Feedable` | src/e2c.cpp:378-411 | and every run of the handler has such a run of the network |
| `Batching.DecidedInCallOrder` | src/e2c.cpp:73-75 | from call to log: what any replica has decided is, in order, the first commands `exec_command` was called with at the proposer |
| `Delivery.Deliverer.AsyncDeliverBlk` | src/e2c.cpp:147-159 | asking for a block: delivered or waiting blocks are left alone, stored ones continue at once, others are fetched |
| `Delivery.Deliverer.Fetched` | src/e2c.cpp:159-173 | the fetch callback verifies, asks for the parents in order and joins their promises |
| `Delivery.Deliverer.JoinAll` | include/libe2c/promise.hpp:601-623 | the join counts the parents still pending and subscribes to each as often as it is listed |
| `Delivery.Deliverer.Resolve` | include/libe2c/promise.hpp:471-475 | the callbacks of a delivery promise run in the order they were attached |
| `Delivery.Deliverer.Notify` | include/libe2c/promise.hpp:608-615 | a settled parent counts down its child's join, and the last one delivers a verified child |
| `Delivery.Deliverer.CheckParents` | src/e2c.cpp:93-94 | the sanity loop raises the alarm if and only if a parent is not delivered |
| `Delivery.Deliverer.ReqBlkHandler` | src/e2c.cpp:205-221 | a peer's request opens a fetch for each block not stored, with nothing of delivery attached; it is answered at once if all are stored, waits for the open ones otherwise, and the empty request throws |
| `Delivery.Deliverer.SendReplies` | src/e2c.cpp:212-220 | an arriving block counts down every request that waits for it, in order, and answers those it completes |
| `Delivery.RequestsAnswered` | src/e2c.cpp:205-221 | in every run each request of a peer is answered exactly once, with all its blocks stored, or waits for a block whose fetch is open; with no fetch open all are answered |
| `Delivery.RequestsInOrder` | src/e2c.cpp:210-220 | two requests that wait for one block are answered in the order they came in |
| `Delivery.Deliverer.DeliverOwn` | src/consensus.cpp:158-168 | a block proposed here is stored and delivered past the waiting map |
| `Delivery.Deliverer.OnDeliverBlk` | src/e2c.cpp:89-125 | a delivery checks the parents, marks the block, runs the waiting callbacks in order and erases the entry |
| `Delivery.Deliverer.OnFetchBlk` | src/e2c.cpp:77-87 | an answer resolves the fetch once and erases the entry after its callback |
| `Delivery.Deliverer.RespBlkHandler` | src/e2c.cpp:223-227 | all blocks of a message are stored before the first fetch is resolved, then each is answered in turn |
| `Delivery.Deliverer.ProposeHandler` | src/e2c.cpp:177-199 | the message is one input of the runs `Delivery.MessagesHandled` is about |
| `Delivery.RequestKeeps` | src/e2c.cpp:147-175 | the whole recursion over a block's ancestors keeps the invariant and adds fetches for blocks not stored only |
| `Delivery.OnDeliverKeeps` | src/e2c.cpp:89-125 | the whole cascade of wake-ups keeps the invariant, with the calls still owed accounted for |
| `Delivery.ResponseKeeps` | src/e2c.cpp:60-87 | a whole message keeps the invariant, stores all its blocks and closes all their fetches |
| `Delivery.RunKeeps` | src/e2c.cpp:60-227 | every run of proposals, passed or refused, messages of blocks, peers' requests and own blocks keeps the invariant |
| `Delivery.NoLostWakeup` | src/e2c.cpp:127-175 | a waiting block has an open fetch that will continue it, or a waiting parent, or failed verification |
| `Delivery.AncestorClosed` | src/consensus.cpp:75-83 | delivered blocks are stored, verified, have all parents delivered, and the height delivery gave them is one more than the one it gave their first parent; the parents check never fails |
| `Delivery.HandledOnce` | src/e2c.cpp:193-198 | each proposal received reaches `on_receive_proposal` exactly once, when its block is delivered and not before |
| `Delivery.MessagesHandled` | src/e2c.cpp:177-199 | in every run of messages, answers, requests and own blocks a delivered block was handed over once for each message that named the expected proposer and whose height, the delivered one if it was delivered on arrival, was not 0; an undelivered one never |
| `Delivery.MessagesSettle` | src/e2c.cpp:183-197 | only those messages and own blocks, with their ancestors, are ever delivered or waited for, and once fetches are answered all of them are, the sound ones delivered |
| `Delivery.OthersDropped` | src/e2c.cpp:181-191 | any other message has its block stored, and nothing else happens |
| `Delivery.HandledInOrder` | include/libe2c/promise.hpp:471-475 | two proposals that wait for one block are handed over in the order they came in |
| `Delivery.Settled` | src/e2c.cpp:147-175 | once all fetches made for delivery are answered the delivered blocks are the ancestors of what was asked for that verify down to genesis, whatever the order of events, and exactly the others wait |
| `Delivery.NothingWaits` | src/e2c.cpp:110-125 | so if all verify the waiting map is empty |
| `PromiseMachine.RunConcat` | include/libe2c/promise.hpp:471-481 | running two lists of subscriptions is running one and then the other |
| `PromiseInvariant.ExecKeeps` | include/libe2c/promise.hpp:488-598 | one subscription, queued or run at once, keeps the rules of every promise, with the subscriptions still due accounted for |
| `PromiseInvariant.RunKeeps` | include/libe2c/promise.hpp:466-598 | and so does everything a settlement sets off |
| `PromiseOrder.PlayKeeps` | include/libe2c/promise.hpp:485-598 | in every run of settlements and of `then`, `fail` and `all`, before or after settling, the rules hold and a settled promise never changes |
| `PromiseOrder.ThenMeaning` | include/libe2c/promise.hpp:234-373 | a derived promise follows its source through the handler: pending with it, else settled by the handler's value or as the promise it handed over |
| `PromiseOrder.FollowsSource` | include/libe2c/promise.hpp:234-373 | spelled out: the handler of the source's outcome gets its value or reason; what it returns settles the promise the way the source went, and a promise it hands over settles it as that one is |
| `PromiseOrder.PassesThrough` | include/libe2c/promise.hpp:519-574 | with only a `then` or only a `fail` handler the other outcome passes through unchanged |
| `PromiseOrder.AllSettles` | include/libe2c/promise.hpp:601-623 | `all` is fulfilled with every value in its place, or rejected with the first reason observed, or pending, exactly as its inputs are, repeated and settled ones included |
| `PromiseOrder.RunExactlyOnce` | include/libe2c/promise.hpp:471-481 | each callback of a wired promise has run once if its source is settled and never otherwise |
| `PromiseConfluence.OrderIndependence` | include/libe2c/promise.hpp:234-373 | two runs with the same edges and root outcomes settle every promise alike, and those with no `all` of different promises upstream equally, reasons included, whatever the order and whether callbacks were attached before or after settling; only a handler downstream of such an `all` must not pick the promise it hands over by the reason |
| `PromiseConfluence.OrderFreeIffBlind` | include/libe2c/promise.hpp:601-623 | that condition is exact in any graph that meets it elsewhere: a rejection handler on an `all` that lists two different roots, and hands over neither of them, is order independent if and only if it hands over one promise whatever the reason |
| `PromiseConfluence.OrderFreeIff` | include/libe2c/promise.hpp:601-623 | the exact condition on an `all` of roots when the handler may hand over any root, the rejected inputs among them: a root handed over for one reason is handed over for all, unless the inputs are that root and one other |
| `PromiseConfluence.ReasonsDiffer` | include/libe2c/promise.hpp:601-615 | in any graph two rejections of an `all` in either order leave it with either reason |
| `PromiseConfluence.ReasonIndependence` | include/libe2c/promise.hpp:477-481 | with blind handlers nothing but reasons depends on the reasons roots are rejected with |
| `PromiseConfluence.PlayInputs` | include/libe2c/promise.hpp:576-598 | what a run was given, the first outcome of each root, can be read off its events |
| `PromiseEngine.Engine.TriggerFulfill` | include/libe2c/promise.hpp:471-475 | the recursive settlement does what the machine does |
| `PromiseEngine.Engine.TriggerReject` | include/libe2c/promise.hpp:477-481 | the same for rejection |
| `PromiseEngine.Engine.Resolve` | include/libe2c/promise.hpp:584-590 | only a pending promise is settled |
| `PromiseEngine.Engine.Reject` | include/libe2c/promise.hpp:592-598 | only a pending promise is settled |
| `PromiseEngine.Engine.CallAll` | include/libe2c/promise.hpp:471-481 | the callback loop, recursion and all, runs the machine on the promise's subscriptions |
| `PromiseEngine.Engine.CallThen` | include/libe2c/promise.hpp:234-373 | the generated closures: run the handler, then settle or adopt |
| `PromiseEngine.Engine.CallAllSlot` | include/libe2c/promise.hpp:608-615 | one input of an `all`: store the value and count down, or reject |
| `PromiseEngine.Engine.Subscribe` | include/libe2c/promise.hpp:488-574 | queue a callback on a pending promise, run it at once on a settled one |
| `PromiseEngine.Engine.SettleRoot` | include/libe2c/promise.hpp:576-598 | settling a promise is one step of the run model; a second settlement changes nothing |
| `PromiseEngine.Engine.Attach` | include/libe2c/promise.hpp:488-623 | `then`, `fail` and `all` are one step of the run model |
| `PromiseStackFree.StackEngine.constructor` | include/libe2c/promise.hpp:418-426 | pending promises with nothing attached |
| `PromiseStackFree.StackEngine.Trigger` | include/libe2c/promise.hpp:376-416 | the explicit-stack loop ends, having settled the marked promise and, depth first, everything marked that follows from it |
| `PromiseStackFree.StackEngine.Mark` | include/libe2c/promise.hpp:450-464 | `_resolve` and `_reject` mark a pending promise and run nothing |
| `PromiseStackFree.StackEngine.Call` | include/libe2c/promise.hpp:234-373 | a closure runs the handler and marks the derived promise |
| `PromiseStackFree.StackEngine.CallAll` | include/libe2c/promise.hpp:385-385 | the callbacks of a promise run in order, each marking what it settles |
| `PromiseStackFree.StackEngine.PushFrame` | include/libe2c/promise.hpp:381-398 | a marked promise is settled, all its callbacks run, and its dependents are pushed: what is left on the stack is what visiting it leaves |
| `PromiseStackFree.StackEngine.Advance` | include/libe2c/promise.hpp:400-415 | one round of the loop leaves the work on the stack as it was, less what it has done |
| `PromiseStackFree.StackEngine.Clear` | include/libe2c/promise.hpp:408-412 | a finished frame empties its promise's vectors |
| `PromiseStackFree.StackEngine.Settle` | include/libe2c/promise.hpp:418-426 | settling a pending promise marks it and visits it; a settled one is left alone |
| `PromiseStackFree.StackEngine.Attach` | include/libe2c/promise.hpp:488-623 | `then`, `fail` and `all` are one step of the run model of this build, whether their sources are pending or settled |
| `PromiseStackFree.StackEngine.AttachInputs` | include/libe2c/promise.hpp:609-622 | the loop of `all` attaches to each input in turn, pending or settled |
| `PromiseStackFree.StackEngine.InputSettled` | include/libe2c/promise.hpp:436-448 | for a settled input the callback runs and the new promise is triggered twice, which settles it if it was marked |
| `PromiseStackFree.StackEngine.ThenOnSettled` | include/libe2c/promise.hpp:505-516 | on a settled promise `then` and `fail` run the handler and leave the new promise marked, in a `pre` state: nothing triggers it |
| `PromiseStack.CallHeap` | include/libe2c/promise.hpp:234-373 | one callback of this build is one step of the promise machine, with the promise it marks still to be visited |
| `PromiseStack.VisitKeeps` | include/libe2c/promise.hpp:376-416 | a visit keeps the rules of the machine and leaves no mark it can reach |
| `PromiseStack.StackPlayKeeps` | include/libe2c/promise.hpp:376-464 | in every run in which nothing is attached to a promise in a `pre` state, where the code throws, the rules of the promise machine hold after every call |
| `PromiseStack.AttachRuns` | include/libe2c/promise.hpp:488-623 | making a promise does what the machine does with its subscriptions, and an `all` leaves no mark, over settled inputs too |
| `PromiseStack.LeftInPre` | include/libe2c/promise.hpp:376-516 | the promises a run leaves in a `pre` state are those it found there and those it made by `then` or `fail` on a settled promise |
| `PromiseStack.NoneInPreIff` | include/libe2c/promise.hpp:376-516 | so a run from the start leaves none if and only if it makes no such call |
| `PromiseLevels.CommuteAll` | include/libe2c/promise.hpp:381-415 | a visit may go before or after callbacks with which it shares no promise upstream of the one looked at: that promise's whole ancestry is the same |
| `PromiseLevels.SameVisit` | include/libe2c/promise.hpp:376-481 | visiting a rejected promise after its callbacks, as the explicit stack does, or after each of them, as recursion does, leaves the same statuses and reasons upstream of any promise that has no `all` upstream of it which lists a promise and one derived from it |
| `PromiseReasons.SameReason` | include/libe2c/promise.hpp:376-481 | on the same calls in the same order both builds give such a promise the same status, its reason included |
| `PromiseBuilds.RefinesRecursive` | include/libe2c/promise.hpp:376-481 | on the same calls in the same order both builds settle every promise alike, equally, reasons included, where no `all` upstream lists a promise together with one that comes from it, and run the same callbacks equally often; the ones the explicit stack leaves in a `pre` state count as marked and are exactly those made by `then` or `fail` on a settled promise |
| `PromiseBuilds.ApartLevel` | include/libe2c/promise.hpp:601-623 | that covers every promise whose `all`s upstream join promises that come from different roots |
| `PromiseBuilds.ApartAgree` | include/libe2c/promise.hpp:376-481 | so on the same calls both builds give an `all` over independent promises, and what follows from it, the same reason |
| `PromiseBuilds.CleanLevel` | include/libe2c/promise.hpp:601-623 | and every promise with no `all` of different promises upstream |
| `PromiseBuilds.BuildsAgreeIff` | include/libe2c/promise.hpp:393-479 | on an `all` of a rejected root and a promise derived from it the recursive build reports the derived promise's reason and the explicit stack the root's, for every handler; so they agree if and only if the handler returns the reason itself |
| `PromiseBuilds.BuildsDiffer` | include/libe2c/promise.hpp:393-479 | a graph of three promises, an `all` of a root and of one derived from it, on which they do not |
| `Codec.Un32LE32` | src/entity.cpp:21-23 | a number written in 32 bits is read back modulo 2^32 |
| `Codec.WireFormat` | src/entity.cpp:20-30 | where each field of a block is, byte by byte: proposer, height, parent count and parents, command count and commands, extra count and bytes, numbers lowest byte first |
| `Codec.ParsedFormat` | src/entity.cpp:32-60 | parsing yields a block if and only if the stream starts with that layout, its counts fit, and its proposer is the low half of the first word |
| `Codec.HashListFormat` | src/e2c.cpp:40-44 | a list of hashes is its count and then hash i at byte 4 + 32*i |
| `Codec.BlockListFormat` | src/e2c.cpp:55-58 | a list of blocks is its count and then each block where those before it end |
| `Codec.FinalityFormat` | include/libe2c/consensus.h:308-313 | where each field of a decision is, and that its block hash is there only for decision 1 |
| `Codec.RoundTripIff` | src/entity.cpp:20-60 | parsing a serialised block followed by any bytes gives the block and those bytes back if and only if its counts fit in 32 bits |
| `Codec.PrefixFree` | src/entity.cpp:20-30 | no encoding is a prefix of another block's, so encodings are injective |
| `Codec.ReencodeIff` | src/entity.cpp:32-36 | writing a parsed block again gives the bytes consumed if and only if the 32-bit proposer field was below 2^16 |
| `Codec.BlocksRoundTripIff` | src/e2c.cpp:55-71 | a list of blocks parses back if and only if its count and all counts in it fit |
| `Codec.BlocksReencodeIff` | src/e2c.cpp:55-71 | writing a parsed list of blocks again gives the bytes consumed if and only if every proposer field in it was below 2^16 |
| `Codec.BlocksPrefixFree` | src/e2c.cpp:55-58 | no encoding of a list whose counts fit is a prefix of another's, so encodings are injective |
| `Codec.HashesRoundTripIff` | src/e2c.cpp:40-52 | a list of hashes parses back if and only if its count fits |
| `Codec.FinalityRoundTripIff` | include/libe2c/consensus.h:308-320 | a decision is read back as written if and only if it is 1 or the object read into had the same block hash |
| `Codec.BlockObject.Serialize` | src/entity.cpp:20-30 | the writing loops append exactly the encoding, laid out as `Codec.WireFormat` says |
| `Codec.BlockObject.Unserialize` | src/entity.cpp:32-60 | the resizing and filling loops accept exactly the parsable streams, those of `Codec.ParsedFormat`, and leave the parsed block and the rest |
| `Codec.PutHashes` | src/entity.cpp:23-25 | a count and the hashes in order |
| `Codec.TakeHashes` | src/entity.cpp:40-44 | the loop fills the resized vector, and fails exactly when the stream is short |
| `Codec.WriteBlocks` | src/e2c.cpp:55-58 | the message constructor appends the list's encoding |
| `Codec.ReadBlocks` | src/e2c.cpp:60-71 | the parsing loop accepts exactly the parsable lists and yields their blocks |
| `QuorumCert.AddPartKeeps` | include/libe2c/crypto.h:379-385 | `add_part` keeps the set bits and the signatures' keys equal and adds the signer |
| `QuorumCert.FirstSigStays` | include/libe2c/crypto.h:379-385 | whatever parts a new certificate is given, it holds for each replica the first signature given for its hash, and nothing else; the bits are those replicas |
| `QuorumCert.PartsAcceptedIff` | src/crypto.cpp:29-43 | so it is accepted if and only if at least `nmajority` distinct replicas gave a part for its hash and the first one each gave is valid |
| `QuorumCert.ParseMatchIff` | include/libe2c/crypto.h:404-408 | after a parse bits and keys are equal if and only if every signature held before is among the set bits, as for a fresh object |
| `QuorumCert.CertRoundTrip` | include/libe2c/crypto.h:398-408 | a matching certificate can be written and comes back equal in a fresh object |
| `QuorumCert.WrittenInOrder` | include/libe2c/crypto.h:398-402 | the signatures are written in ascending order of the replicas' ids |
| `QuorumCert.AcceptedIff` | src/crypto.cpp:29-43 | a matching certificate is accepted if and only if at least `nmajority` distinct replicas signed and every signature is valid |
| `QuorumCert.StaleAccepted` | include/libe2c/crypto.h:404-408 | without a match it can be accepted with no signer at all |
| `QuorumCert.QuorumSize` | src/e2c.cpp:370-373 | `nfaulty` is the greatest f with 2f + 2 <= n, and a quorum is n less that many |
| `QuorumCert.QuorumsMeet` | src/e2c.cpp:370-373 | two accepted certificates share at least n - 2 * nfaulty >= 2 signers, with nfaulty as `start` computes it |
| `QuorumCert.CheckRuns` | src/crypto.cpp:48-63 | in every run of the asynchronous check, whatever the order of answers and of `all` and `then`, it is settled with the conjunction of the answers once all are in, and pending before |
| `QuorumCert.CheckedSettles` | src/crypto.cpp:45-64 | so with the answers of this certificate's tasks it settles to what `Checked` says |
| `QuorumCert.ChecksAgreeIff` | src/crypto.cpp:29-64 | for any certificate the two checks agree if and only if there are too few signatures, or a replica is unknown and no known one's signature is bad, or all are known and a bit is set: `all` of nothing throws |
| `QuorumCert.KnownAgreeIff` | src/crypto.cpp:29-64 | for a matching certificate of known replicas that is: if and only if `nmajority` is at least 1 or there is a signature |
| `QuorumCert.Certificate.Add` | include/libe2c/crypto.h:379-385 | a part for another hash throws and changes nothing; the first signature of a replica is stored as given and stays |
| `QuorumCert.Certificate.constructor` | src/crypto.cpp:23-27 | no bit set and no signature |
| `QuorumCert.Certificate.Default` | include/libe2c/crypto.h:376-376 | the object a certificate is parsed into holds no signature, so a parsed certificate matches |
| `QuorumCert.Certificate.Serialize` | include/libe2c/crypto.h:398-402 | the signatures of the set bits in index order, or an exception when one is missing |
| `QuorumCert.Certificate.SubmitTasks` | src/crypto.cpp:48-58 | one task for each set bit, in index order, or an exception when a replica is unknown; a matching certificate is left unchanged |
| `QuorumCert.Certificate.Unserialize` | include/libe2c/crypto.h:404-408 | the parsing loop, over whatever the object held |
| `QuorumCert.Certificate.Verify` | src/crypto.cpp:29-43 | the loop gives the verdict and, on a matching certificate, changes nothing |
| `VeriPool.RunKeeps` | include/libe2c/task.h:39-93 | every interleaving of submitter, workers and result loop keeps the invariant |
| `VeriPool.Conservation` | include/libe2c/task.h:40-92 | a task in `pms` is in exactly one of the input queue, a worker's hands, the output queue or the result loop's, and no other pointer is anywhere |
| `VeriPool.LookupSucceeds` | include/libe2c/task.h:43-47 | the result loop's lookup always succeeds and the task carries the answer of its own job |
| `VeriPool.SettledOnce` | include/libe2c/task.h:86-93 | each promise is settled at most once, with its job's answer; until then its task is in the pool |
| `VeriPool.AllSettled` | include/libe2c/task.h:40-68 | when queues and hands are empty every call has its answer |
| `VeriPool.Pooled.WorkerLoop` | include/libe2c/task.h:56-68 | a worker's burst is that many rounds, and asks for more exactly when the counter ran out, wrapping from 0 included |
| `VeriPool.Pooled.WorkerRound` | include/libe2c/task.h:59-64 | take a task, verify it, pass it on |
| `VeriPool.Pooled.ResultRound` | include/libe2c/task.h:43-47 | take a task, resolve its promise with the result, erase its entry |
| `VeriPool.Pooled.ResultLoop` | include/libe2c/task.h:40-51 | the same for the result loop |
| `VeriPool.Pooled.Verify` | include/libe2c/task.h:86-93 | a submission registers the promise and queues the task |
| `Handles.CountsRight` | include/libe2c/promise.hpp:134-184 | over all copies, moves, swaps, assignments and destructions that copy no moved-from handle, the counter is the number of live non-null handles, the promise is freed when the last goes and only then, once, and nothing freed is touched |
| `Handles.KeepsIffCareful` | include/libe2c/promise.hpp:152-180 | that condition is exact: copying a moved-from handle always breaks the counts |
| `Handles.HandlesArePlain` | include/libe2c/promise.hpp:134-184 | over every legal run each handle holds the promise that plain assignment of variables gives it, counters and temporaries aside |
| `Handles.AssignmentHolds` | include/libe2c/promise.hpp:147-180 | after any run: a copy makes both equal, a move leaves the source null, `swap` exchanges the two, `a = b` gives `a` what `b` held, `a = a` changes nothing, and every other handle holds what it held |
| `Handles.Arena.CopyFrom` | include/libe2c/promise.hpp:170-174 | the copy constructor counts up whatever the pointer is |
| `Handles.Arena.Create` | include/libe2c/promise.hpp:638-647 | a new promise with a count of one |
| `Handles.Arena.MoveFrom` | include/libe2c/promise.hpp:176-180 | the source keeps its counter pointer and loses its promise |
| `Handles.Arena.SwapWith` | include/libe2c/promise.hpp:147-150 | both pointers change hands |
| `Handles.Arena.AssignCopy` | include/libe2c/promise.hpp:152-159 | copy and swap, then the old value is destroyed: `a` holds what the other does, and no other handle changes |
| `Handles.Arena.AssignMove` | include/libe2c/promise.hpp:161-168 | move and swap, then the old value is destroyed: `a` holds what the other did, which is null unless it is `a`, and no other handle changes |
| `Handles.Arena.Destruct` | include/libe2c/promise.hpp:649-656 | a non-null handle counts down and frees at zero |

## Left out

- View change, impeachment and blame: only a local rotation exists, so nothing is said across proposers.
- Agreement under an equivocating proposer: the code only reports the conflict, and so do the theorems.
- FloodNet.FloodingEnds: holds for one block per height; a conflicting block is never stored and is forwarded again on every receipt.
- FifoNet.LogSafety: FIFO links and timers that fire in arming order are hypotheses of the model.
- PromiseBuilds.RefinesRecursive: graphs of `then`, `fail` and `all` whose callbacks return values, and runs in which nothing is attached to a promise in a `pre` state: the code throws there. Which reason each build gives an `all` that lists a promise together with one derived from it is settled for one shape, by PromiseBuilds.BuildsAgreeIff.
- PromiseStackFree.StackEngine.Attach: promise-returning callbacks in the explicit-stack build.
- `race`, and the promises that `all` and adoption get back from their inner calls of `then` and drop.
- Exceptions thrown by promise callbacks, `std::any` type mismatches and template dispatch.
- Validity of iterators across insertions into `blk_fetch_waiting`, `blk_delivery_waiting` and `pms` by callbacks, and lifetimes of the raw pointers in `fulfilled_pms` and `rejected_pms`.
- `DataStream`, `Bits`, queues and timers come from salticidae, which is not part of this model beyond what the modelled code needs: a stream that fails when it is short, bits indexed below their size, queues that hand out what was put in.
- The signature part of a proposal message, and the wire form of signatures and keys.
- Codec.FinalityRoundTripIff: the fields of a decision are in host order; the model has a little-endian host.
- secp256k1 and SHA-256.
- Core.E2CCore.GetParents: `update` dereferences a null entry, so calls that deliver or propose a block at the height of one are not modelled; runs of calls in `Tails` and `Core.Serve` have none.
- Core.E2CCore.AddReplica: what an entry holds, keys and addresses.
- Fetch timeouts and repeated fetch messages, statistics, logging, sockets and TLS; the connection a reply goes to.
- Self-proposal of a block that delivery is waiting for: `E2CCore::on_deliver_blk` bypasses the waiting map.
- `async_wait_proposal`, `async_wait_receive_proposal`, `prune`, the command cache and the release functions of `EntityStorage`.
- The client window, the pacemaker beyond its fixed proposer, and the key and configuration generators.
