# Sucredb, verified models

Sucredb is a multi-master replicated key-value store. Every replica of a partition (a vnode) takes
reads and writes; causality is tracked with one clock for each node and a context for each key, and
replicas catch up by syncs and bootstraps. This project models the parts of it whose correctness
spans many steps, in Dafny 4.11, and proves what they guarantee. `dafny verify dfyconfig.toml`
checks everything.

**Replication and anti-entropy.** `Clocks`, `Cubes` and `Replicas` are the data: bitmapped version
vectors, dot stores, the stored types, and the clock, store and log of one replica. `Protocol` is a
transition system over all replicas of a vnode: commands, replicated writes, the start, send, ack
and fin messages of syncs and bootstraps, timeouts. The network is the set of messages ever sent, so
they may be lost, repeated and reordered. History variables record every SET and DEL with the
siblings it overwrote. The invariant (`Causality`, `ProtocolInvariant`, `ProtocolSafety`) has two
ideas: a cube is *faithful* when its siblings are exactly the writes its context knows that no write
it knows overwrote; and a sender *promises* that each write its final message claims has been seen by
the peer, is still to be sent, or is on its way. `ProtocolTheorems` states what follows for every
run. A run is *orderly* when no sender serves a cookie twice, and none goes on after it failed to send
a key or to read the log. The code does both: handler_sync_start only looks at the syncs under way,
and on_start and on_msg_ack ignore what send_next returns. `RestartedSync` and `FailedSends` are runs
that lose a write because of that. `AntiEntropy` proves that syncs do their work: after each replica
has synced from each other, all agree. `SyncProgress` proves that they can always be brought to an end.
`Delivery` and `SyncEffects` are about the messages: who is told what, and what it does there.

**Commands.** `CommandEffects` says what each command does to what a client reads, `BatchEffects` the same
of a batch, and `PlainServer` that one replica is a plain data structure server. `MergeEffects` and
`ReplicatedCommands` follow Sets, Maps and Counters to other replicas. What is added arrives; what is
removed does not.

**On top of it.** `Quorum` adds the coordinators that count replies, one by one as they come, and
merge what they bring; `RepeatedReplies` is about replies that come twice, `QuorumLevels` about what
the levels ask for. `Contexts` follows one
replica through commands, replicated cubes and clock merges. `Recovery` splits a replica's operations
into steps in memory and on disk, and `CrashSafety` lets a process die between any two of them, in any
run of the protocol.

**The code as it runs.** `VNodeState`, `SyncSender`, `BitmappedVersions`, `DeltaVectors`, the
`DotMap` and `CausalMap` classes, `Ring`, `StatusMachine`, `InFlight`, `Requests` and the RESP
parser, scanner and codec are classes and loops that change their fields as the source does. They
are proved against the functions the theorems are about.

**The ring.** `Ring` has the membership operations and both passes of rebalance; `RingLoads` the
counting behind them; `RingLaws` says what each proposal does owner by owner, and when somebody is left
with the data of a vnode; `StrandedRing` has a ring that cannot be rebalanced, and one whose data is
forgotten.

**Status machine.** `StatusMachine` has the status of a vnode, its syncs and the counters all vnodes
share; `StatusLaws` what becomes of a vnode, event by event and over every run.

**RESP.** `Resp` writes values, `RespParser` reads them, `RespScanner` is the scanner in front of the
parser, `RespStream` decodes a stream cut into chunks, and `RespGrammar` says what is accepted from others.

Where the code does less than its documentation or its users may expect, the code is modelled and
the difference is a lemma: `Replicas.FlushPanicsIff` (DEL of an absent key, which the documentation
answers with 0), `RestartedSync.RestartLosesAWrite`, `FailedSends.FailureLosesIff`,
`CrashSafety.GivesOutNewIff`, `Clocks.DeltaCompleteIff`,
`Contexts.NewCounterKeepsContextIff`, `Recovery.LoggedRecoveredIff` with
`Recovery.FirstWriteForgotten`, `Recovery.FailureLeavesGap`, `Quorum.SuccessIsEnoughIff` with
`RepeatedReplies.RepeatedReplyHidesWrite`, `ReplicatedCommands.RemovalTravelsIff` with
`ReplicatedCommands.RemovedItemStays`, `StrandedRing.UnsettledRingFails`, `RingLaws.DataStaysIff` with
`StrandedRing.DataForgotten`,
`RespStream.RoundTripIff`, and in `SyncSenders.SyncSender.SendNext` the case of a limit of 0 messages
in flight.

Time, random choices, iteration order of hash maps, the outcome of sending and of reading the log, and
the ring as seen by the status machine are parameters or nondeterministic choices.

## Model

| member | source | states |
|---|---|---|
| `ProtocolTheorems.NoLostWrite` | src/vnode.rs:1024-1067 | in every state of every orderly run, a stored write in a replica's clock is a sibling under its key there, or a chain of overwrites all known there leads from it to one; so its key is present |
| `ProtocolTheorems.NoResurrection` | src/cubes.rs:190-200 | for every stored, replicated or synced cube: a context with an overwriting write has the overwritten one too, and not among the siblings |
| `ProtocolTheorems.Convergence` | src/cubes.rs:196-200 | two cubes of a key, wherever they are, whose contexts agree on that key's writes have the same siblings with the same values, whatever the node clocks added to the contexts |
| `ProtocolTheorems.CaughtUpReplicasAgree` | src/vnode.rs:990-998 | replicas whose clocks have all writes of a key read the same siblings |
| `ProtocolTheorems.CubesAreValues` | src/cubes.rs:61-70 | no Void is ever stored, replicated or synced for a Value key, so the unreachable!() of for_each_dot is not reached, and every such cube is faithful to the history of writes |
| `AntiEntropy.AntiEntropyConverges` | src/vnode_sync.rs:530-543 | once every replica has concluded a sync or bootstrap from every other, each served after a moment since which nothing was written, all replicas show the same siblings for every key, whatever was lost, repeated or reordered before |
| `AntiEntropy.AllCatchUp` | src/vnode_sync.rs:218-267 | after such syncs every replica's clock has every write of that moment, whatever else happened meanwhile |
| `AntiEntropy.RunCatchesUp` | src/vnode_sync.rs:530-543 | concluding one session catches up with all its sender had written itself when it began to serve, and stays so |
| `SyncProgress.CanConverge` | src/vnode_sync.rs:390-460 | from every reachable state with a ready replica there is an orderly run without a write after which all replicas show the same siblings for every key: the hypothesis of AntiEntropyConverges can always be met |
| `SyncProgress.CanSyncAll` | src/vnode_sync.rs:270-307 | where all replicas are ready, a run without a write concludes a session from everyone with everyone |
| `SyncProgress.CanSync` | src/vnode_sync.rs:356-388 | a replica can conclude a session from any ready one, whatever else is under way: every dot is looked up, every key sent, stored and acknowledged, the fin sent and merged |
| `SyncProgress.Drains` | src/vnode_sync.rs:390-460 | a sender's work ends: nothing is left to send and nothing in flight |
| `Delivery.WriteTakesEffect` | src/vnode.rs:433-466 | every SET and every DEL is sent to every replica and can arrive there after whatever else happens; the replica has then seen it and shows none of the siblings the client had read |
| `Delivery.WriteIsSent` | src/vnode.rs:435-461 | after a SET or DEL, a message with the cube the coordinator stores now is on its way to each replica |
| `Delivery.WriteIsStored` | src/vnode.rs:376-431 | the write is recorded and stored under a new dot, with the value of a SET and none for a DEL, beside only siblings the client had not read |
| `Delivery.Overwrites` | src/cubes.rs:190-194 | what a write overwrites is exactly what the coordinator showed and the client had read |
| `Delivery.Arrives` | src/vnode.rs:597-641 | every write of its key that a replicated cube tells of is in effect where it arrives |
| `SyncEffects.Asks` | src/vnode_sync.rs:270-307 | a ready replica tells its peer exactly the dots of its clock; one that is not asks for everything |
| `SyncEffects.Refuses` | src/vnode.rs:648-708 | who is refused: writes and starts at replicas that are not ready, a start of a session under way, messages of a session that is not |
| `SyncEffects.OffersAll` | src/vnode_sync.rs:167-200 | a bootstrap sender has every stored key to send, as it is then, and claims its whole clock |
| `SyncEffects.OffersMissing` | src/vnode_sync.rs:218-267 | a sync sender has to send the dots of all nodes that the peer lacks, unless the peer's interval is longer, and claims exactly those of its own node |
| `SyncEffects.Tells` | src/vnode_sync.rs:415-440 | the cube sent for a key is what it reads as, or as it was in the snapshot, and is in flight under its number |
| `SyncEffects.Acknowledges` | src/vnode_sync.rs:557-595 | every cube that arrives is acknowledged to its sender by its number |
| `SyncEffects.Concludes` | src/vnode_sync.rs:530-543 | a success fin adds its clock, ends the session, makes a bootstrapped replica ready and goes back to its sender |
| `ProtocolTheorems.StoredKeysStay` | src/vnode.rs:1000-1067 | over any further run a stored key stays stored and keeps every write it had seen |
| `ProtocolTheorems.FinsAreHonest` | src/vnode_sync.rs:530-543 | every success fin, of a sync or a bootstrap, claims only writes its receiver has seen when it merges the clock |
| `ProtocolTheorems.MessagesMeetTheirSide` | src/vnode_sync.rs:557-615 | a sync message never meets the wrong side of its session, so the unreachable!() of on_msg_send and on_msg_ack are not reached |
| `ProtocolTheorems.OwnSliceIsSolid` | src/version_vector.rs:323-336 | a replica's own slice of its clock never has exceptions, as event asserts |
| `ProtocolTheorems.RunInv` | src/vnode.rs:597-744 | the invariant holds in every state of every orderly run, and no run forgets a write, a session or a stored key |
| `ProtocolTheorems.StepInv` | src/vnode.rs:597-744 | every action a handler allows keeps the invariant and forgets nothing |
| `ProtocolSafety.WriteInv` | src/vnode.rs:376-466 | a SET or DEL extends the history by one write and keeps the invariant, for every context the client may send |
| `ProtocolSafety.FailedWriteInv` | src/vnode.rs:400-416 | a version spent on a type error keeps the invariant |
| `ProtocolSafety.DeliverSetInv` | src/vnode.rs:597-641 | a replicated write, late, repeated or out of order, keeps the invariant |
| `ProtocolSafety.DeliverSendInv` | src/vnode_sync.rs:557-595 | a synced cube keeps the invariant, and its acknowledgement is truthful |
| `ProtocolSafety.OpenInv` | src/vnode.rs:829-857 | opening a sync or a bootstrap keeps the invariant: the clock in the start message stays within the opener's |
| `ProtocolSafety.StartInv` | src/vnode.rs:648-682 | a new sender keeps the invariant when its cookie was not served before |
| `ProtocolSafety.FetchInv` | src/vnode_sync.rs:116-146 | looking up dots in the log keeps the invariant |
| `ProtocolSafety.SendKeyInv` | src/vnode_sync.rs:418-437 | sending one key keeps the invariant |
| `ProtocolSafety.AckInv` | src/vnode_sync.rs:597-615 | an acknowledgement, also a repeated one, keeps the invariant |
| `ProtocolSafety.SendFinInv` | src/vnode_sync.rs:356-386 | the success fin keeps the invariant: what it claims has been seen |
| `ProtocolSafety.FinInv` | src/vnode_sync.rs:530-543 | merging the clock of a success fin keeps the invariant, for a sync and for a bootstrap |
| `ProtocolSafety.DropInv` | src/vnode_sync.rs:483-521 | dropping a sync at any time keeps the invariant |
| `ProtocolSafety.NewBootstrapOk` | src/vnode_sync.rs:167-200 | a bootstrap sender's promise holds when clock and store are taken in one step: every claimed write is in the snapshot to send |
| `ProtocolSafety.NewSyncOk` | src/vnode_sync.rs:218-267 | a sync sender promises only its own dots, and each was in the peer's clock or is in the delta, although a delta is empty when the sender is behind |
| `ProtocolSafety.FetchOk` | src/vnode_sync.rs:116-146 | no promised write is lost between dots and logged keys |
| `ProtocolSafety.SendKeyOk` | src/vnode_sync.rs:418-437 | a key leaves the list only with a cube in flight that accounts for its writes |
| `ProtocolSafety.AckedOk` | src/vnode_sync.rs:597-610 | an acknowledged message may be forgotten, because the peer has seen what it told |
| `ProtocolSafety.FinIsHonest` | src/vnode_sync.rs:449-457 | with nothing left to send and nothing unacknowledged, the peer has seen every write the snapshot claims |
| `RestartedSync.RestartLosesAWrite` | src/vnode.rs:658-681 | when a late duplicate of a start message restarts a session under the same cookie, a run of allowed actions ends with a write in a clock and its key missing from the store; nothing else is out of order in it |
| `FailedSends.FailureLosesIff` | src/vnode_sync.rs:390-460 | in every reachable state in which the last key or dots of a sender fail to be sent or looked up, and the caller ignores it, the fin is sent and merged, the peer's clock gains every claimed write, and exactly those it had not seen are lost |
| `FailedSends.FailedSendLosesAWrite` | src/vnode_sync.rs:597-615 | such a state is reached from two blank replicas, and a write is lost |
| `SyncSenders.SyncKeysIterator.FetchBatch` | src/vnode_sync.rs:122-140 | a batch is exactly the logged keys of the dots consumed, and is empty only when no dot is left; it fails at the first dot that cannot be looked up |
| `SyncSenders.SyncKeysIterator.Next` | src/vnode_sync.rs:116-146 | the next key and the dots consumed for it; no key only when dots and keys are used up; after a failure the dots consumed and the keys found for them are gone |
| `SyncSenders.SyncSender.constructor` | src/vnode_sync.rs:218-267 | a new sender has the node's own slice of the clock and the delta to the peer's clock |
| `SyncSenders.SyncSender.SendNext` | src/vnode_sync.rs:390-458 | one call is a sequence of fetches and sends, the last of which may fail and then loses what it had taken; unless it fails, the fin is sent exactly when nothing is in flight, and fewer than limit messages are in flight only when the iterator is exhausted; no more than limit are added; it fails only without a route or a readable log |
| `SyncSenders.SyncSender.OnMsgAck` | src/vnode_sync.rs:597-615 | an acknowledgement takes its message out of flight and goes on sending, whatever that returns |
| `SyncSenders.AckIsARun` | src/vnode_sync.rs:597-615 | that is a run of the protocol, the acknowledgement first |
| `SyncSenders.WorkIsARun` | src/vnode_sync.rs:417-447 | what send_next does is a run of the protocol that changes this sender and the network only |
| `Causality.MergeFaithful` | src/cubes.rs:196-200 | merging cubes faithful to a history gives a cube faithful to it: the siblings are the known writes no known write overwrote |
| `Causality.FaithfulConverges` | src/cubes.rs:196-200 | cubes that know the same writes of a key have equal siblings |
| `Causality.FaithfulChain` | src/cubes.rs:190-194 | from every write a cube knows, overwrites it knows lead to a sibling it shows |
| `Causality.SetFaithful` | src/cubes.rs:190-194 | set with any client context records which siblings it overwrote and keeps the cube faithful |
| `Causality.GetOk` | src/cubes.rs:72-78 | a missing key has no known write, so a Void seeded from the clock claims none |
| `Causality.KnownDotsAbsorbed` | src/vnode.rs:1036-1050 | a cube whose siblings are all in the clock tells the replica nothing new |
| `Causality.SkipIsLossless` | src/vnode.rs:1047-1050 | a cube that storage_set_remote skips would not have changed the siblings |
| `Causality.NotSubsumed` | src/cubes.rs:43-52 | a Value cube that knows a write of its key is never stripped |
| `Causality.RemoteKeeps` | src/vnode.rs:1024-1067 | after storage_set_remote every write the cube knows has been seen, nothing seen before is lost, and the replica's invariant holds |
| `Causality.FlushKeeps` | src/vnode.rs:376-431 | a stored SET or DEL adds one write to the history and keeps the replica's invariant |
| `Causality.ClockMergeKeeps` | src/vnode_sync.rs:538-541 | merging a clock whose writes have been seen keeps the replica's invariant |
| `QuorumLevels.LevelsReadsSeeWrites` | src/types.rs:64-72 | over every orderly run in which no replica's reply to a request comes twice: a read that succeeded has a write that had succeeded before it began, whenever one of the two was asked for at All or both at Quorum |
| `QuorumLevels.WriteAsAsked` | src/vnode.rs:418-466 | over every orderly run a write needs what its level asks for, of all replicas, to the end |
| `QuorumLevels.ReadAsAsked` | src/vnode.rs:287-348 | so does a read, and so do the writes that had succeeded when it began |
| `QuorumLevels.ReadBeginsAs` | src/vnode.rs:302-331 | a read on a replica starts with its cube and one success, any other with an empty cube and no reply |
| `QuorumLevels.CountsWhom` | src/vnode.rs:469-561 | the coordinator of a write counts itself and who acknowledges, that of a read who replies, and merges the reply in |
| `QuorumLevels.Counts` | src/vnode.rs:469-561 | a reply counts once, as a success unless it is an error; success, Unavailable and timeout as the counters say, and nothing once answered |
| `RepeatedReplies.NoRepeatsReadsSeeWrites` | src/vnode.rs:469-561 | over every orderly run in which no replica's reply to a request comes twice: a read that succeeded has every write of the key that had succeeded before the read began, whenever the two need more replicas than there are; as a sibling or overwritten by a chain that ends in one |
| `Quorum.QuorumReadsSeeQuorumWrites` | src/vnode.rs:469-512 | over every orderly run: the same for a read and a write for which no replica was counted twice |
| `RepeatedReplies.RepeatedReplyHidesWrite` | src/vnode.rs:643-645 | five replicas: one acknowledgement that comes twice lets a write at quorum succeed with two replicas, and a later read at quorum succeeds without it |
| `Quorum.SuccessIsEnoughIff` | src/vnode.rs:107-125 | over every orderly run, a request that succeeded had the replicas it needs behind it exactly when no replica was counted twice |
| `Quorum.LevelsMeetIff` | src/types.rs:64-72 | among three or more replicas, a read and a write have to have one in common exactly when one of them is at All or both are at Quorum |
| `Quorum.QuorumsMeet` | src/types.rs:64-72 | two sets of replicas with more members together than there are replicas have one in common |
| `Quorum.OpsKeep` | src/vnode.rs:287-348 | over every orderly run, for coordinators that are replicas and those that are not: the counter of a request is the number of replies counted, each from a replica that has seen the write, and the cube of a read has what its repliers had seen |
| `Quorum.ReceiverHasIt` | src/vnode.rs:597-641 | who stored the cube of a write has seen the write when it acknowledges |
| `Quorum.GetReply` | src/vnode.rs:568-595 | a replica returns a faithful cube with every write of the key it has seen |
| `Quorum.MergeReplies` | src/vnode.rs:481-486 | merging replies, Voids included, keeps exactly the writes of both |
| `VNodeStates.VNodeState.AddAllDots` | src/vnode.rs:1036-1045 | adding the dots one by one in any order gives one clock, and reports exactly the new ones |
| `VNodeStates.VNodeState.StorageSetRemote` | src/vnode.rs:1024-1067 | a batch with one clock updated in place and one write at the end equals handling the writes one after the other |
| `VNodeStates.VNodeState.StorageSetLocal` | src/vnode.rs:1000-1022 | the batch stores or strips each cube against the final clock and logs each dot |
| `VNodeStates.VNodeState.DoFlush` | src/vnode.rs:376-431 | a batch of commands: versions in order; a type error stops it with nothing stored; otherwise it panics, with nothing stored, exactly when it deletes a key that is not there |
| `VNodeStates.SetFlush` | src/database.rs:480-509 | a batch goes on exactly when its keys are distinct and on one vnode; otherwise the error is that of the first write that has one |
| `Replicas.BatchIsSequence` | src/vnode.rs:387-431 | a batch of SETs and DELs on distinct keys equals the commands one after the other, cubes included |
| `Replicas.FlushPanicsIff` | src/cubes.rs:43-52 | a command reaches the unreachable!() of is_subsumed exactly when it is a DEL of a key that reads as absent |
| `Replicas.AddDotsAnyOrder` | src/vnode.rs:1036-1045 | the order in which dots enter a clock does not show |
| `Replicas.ClockAddSetInserts` | src/vnode.rs:1036-1045 | the clock gains exactly the dots of the cube |
| `PlainServer.IsPlainServer` | src/command.rs:236-463 | one replica that gets all commands, from clients that send back the context they read, answers and reads like a plain server of texts, sets, maps and numbers: type errors included, empty collections gone, for every sequence of calls on any keys |
| `PlainServer.ServesOne` | src/vnode.rs:376-431 | the same for one call, from every state in which the contexts are within the clock |
| `CommandEffects.RejectedIff` | src/vnode.rs:400-416 | a command is a type error exactly on a key of another type; only a version is spent then |
| `CommandEffects.StoredElsewhere` | src/vnode.rs:1000-1022 | a stored command is logged under its key by a new dot, the clock gains exactly that dot, and other keys are left alone |
| `CommandEffects.StoredContext` | src/cubes.rs:190-277 | the context of the key has the new dot and all it had before |
| `CommandEffects.SAddAdds` | src/command.rs:288-307 | the item is there with exactly the new dot, and the other items as they were |
| `CommandEffects.SRemRemoves` | src/command.rs:309-328 | the item is gone and the others are as they were |
| `CommandEffects.HSetSets` | src/command.rs:236-257 | the field has the value, the time and exactly the new dot, and the others are as they were |
| `CommandEffects.HDelDeletes` | src/command.rs:259-278 | the field is gone and the others are as they were |
| `CommandEffects.IncrByCounts` | src/command.rs:445-463 | the node's count and the total go up by the amount, and other nodes' counts stay |
| `CommandEffects.CSetSets` | src/command.rs:411-430 | the total is the given one |
| `CommandEffects.SetReplaces` | src/command.rs:356-390 | the new value is a sibling beside exactly those the given context does not have |
| `CommandEffects.DelDeletes` | src/command.rs:392-409 | the same with no value for a Value; a Set, Map or Counter holds nothing any more |
| `BatchEffects.BatchShows` | src/vnode.rs:376-431 | each write of a batch of any commands reads back as if it had come alone, in its turn, and is logged by its dot |
| `BatchEffects.BatchFailsIff` | src/vnode.rs:387-416 | a batch fails exactly when one of its commands does not go with the type of its key |
| `BatchEffects.BatchElsewhere` | src/vnode.rs:1000-1022 | keys the batch does not name are left alone |
| `Contexts.ContextsNeverRegress` | src/vnode.rs:990-1067 | over any sequence of commands, replicated cubes and clock merges, the context a key reads with descends every earlier one, also after a cube without values was deleted |
| `Contexts.StrippingIsLossless` | src/cubes.rs:43-52 | a deleted cube reads back as a Void whose context descends its own, and it had no values |
| `Contexts.JoinGrows` | src/cubes.rs:92-124 | the merge of cubes of one type, or of a Void and a Value, Set or Map, keeps the context |
| `Contexts.NewCounterKeepsContextIff` | src/cubes.rs:156-168 | a counter stored where the key was missing keeps the context read before exactly when its own context covers it |
| `Contexts.NewCounterLosesContext` | src/cubes.rs:156-168 | it need not: a state and a counter for which the context goes back |
| `Recovery.RecoverDots` | src/vnode.rs:967-974 | replaying the log adds to each saved entry exactly the logged versions of its id |
| `CrashSafety.CrashRecovery` | src/vnode.rs:929-987 | after any orderly run, with the process of any replica dying at any step of whatever happens next there: every write in the recovered clock is in the store or overwritten there, no stored write of a node in the saved clock is missing, nothing is missing but own versions that were never stored, and the own slice is as event asserts exactly when every own version below a stored one was stored or saved; and no version the replica gives out next is that of a stored write exactly when, moreover, its own node is in the saved clock, or when it has stored no write of its own |
| `CrashSafety.GivesOutNewIff` | src/version_vector.rs:323-336 | of one replica, for any number of events in a row, with the debug assertion off: that exact condition |
| `CrashSafety.HappensKeeps` | src/vnode.rs:903-909 | over every orderly run, saves included, what a clock has beyond the saved one is logged, or an own version that was never stored |
| `CrashSafety.RecoversSafely` | src/vnode.rs:967-974 | of one replica: from what has to be on disk, replaying the log gives such a clock |
| `CrashSafety.ReceivePersists` | src/vnode.rs:1024-1067 | a replicated or synced cube logs every dot it adds to the clock |
| `Recovery.OpTakes` | src/vnode.rs:1000-1067 | each operation is a run of steps in memory and on disk, and the disk changes at most with the last |
| `Recovery.DiesAnywhere` | src/vnode.rs:1000-1067 | the process may die after any of them, with the disk of before or of after the operation |
| `Recovery.ReceiveTakes` | src/vnode.rs:1024-1067 | a replicated write learns its dots in any order and then writes one batch |
| `Recovery.LoggedRecoveredIff` | src/vnode.rs:967-974 | a logged write is in the recovered clock exactly when its node was in the saved one |
| `Recovery.FailureLeavesGap` | src/version_vector.rs:323-336 | a command that fails after a save, with its version spent, and one that is stored: the recovered own slice always has an exception, against event's assertion |
| `Recovery.FirstWriteForgotten` | src/vnode.rs:127-130 | so the first write of a new vnode, which saved an empty clock, is stored and logged, after a crash the recovered clock is empty, and the next write gets the same dot |
| `Clocks.NormalFormUnique` | src/version_vector.rs:103-109 | base and bitmap in normal form are determined by the set of versions |
| `Clocks.Norm` | src/version_vector.rs:103-109 | norm gives the normal form of the same set |
| `Clocks.AddInserts` | src/version_vector.rs:79-91 | add inserts one version and is true exactly for new ones |
| `Clocks.AddAllInserts` | src/version_vector.rs:93-101 | add_all inserts a prefix and is true exactly when the interval grew |
| `Clocks.MergeUnites` | src/version_vector.rs:71-77 | merge is set union, in normal form |
| `Clocks.MergeWithin` | src/version_vector.rs:71-77 | merging a subset changes nothing |
| `Clocks.DeltaIsDifference` | src/version_vector.rs:129-141 | delta lists only the difference, ascending, and all of it when self.base >= other.base |
| `Clocks.DeltaCompleteIff` | src/version_vector.rs:129-141 | delta is complete exactly when self.base >= other.base or other has all of self's exceptions |
| `Clocks.ClockAddInserts` | src/version_vector.rs:280-285 | add on the vector inserts one dot and is true exactly for new ones |
| `Clocks.ClockMergeUnites` | src/version_vector.rs:310-321 | merge on the vector is union |
| `Clocks.ClockDeltaMembers` | src/version_vector.rs:364-386 | the vector's delta is, id by id, the delta of the slices |
| `Clocks.VVMerge` | src/version_vector.rs:586-590 | the merged context covers exactly what either covers |
| `BitmappedVersions.BitmappedVersion.NormInPlace` | src/version_vector.rs:103-109 | the loop ends, with the normal form of the set |
| `BitmappedVersions.BitmappedVersion.AddInPlace` | src/version_vector.rs:79-91 | in place, what AddInserts speaks of |
| `BitmappedVersions.BitmappedVersion.AddAllInPlace` | src/version_vector.rs:93-101 | in place, what AddAllInserts speaks of |
| `BitmappedVersions.BitmappedVersion.MergeInPlace` | src/version_vector.rs:71-77 | in place, what MergeUnites speaks of |
| `BitmappedVersions.BitmappedVersionDelta.Next` | src/version_vector.rs:154-163 | returns the versions of the delta in order, one at a time, and ends when there are no more |
| `BitmappedVersions.UpdatesAccumulate` | src/version_vector.rs:71-109 | after any sequence of add, add_all and merge the clock is in normal form and has exactly the versions they brought |
| `BitmappedVersions.SameVersionsSameClock` | src/version_vector.rs:71-109 | sequences of updates that bring the same versions give the same representation |
| `DeltaVectors.DeltaVersionVector.AddAll` | src/version_vector.rs:436-474 | keeps one ascending run for each id with a gap after its base, and inserts a prefix |
| `DeltaVectors.DeltaVersionVector.Add` | src/version_vector.rs:476-528 | keeps that form and inserts one version, taking in exceptions the base reaches |
| `DeltaVectors.DeltaVersionVector.InsertOne` | src/version_vector.rs:510-527 | an exception goes to its place in the run, once |
| `DeltaVectors.DeltaVersionVector.Raise` | src/version_vector.rs:453-473 | the base takes in every exception it reaches, and the vector shrinks by them |
| `DeltaVectors.DeltaVersionVector.MergeWith` | src/version_vector.rs:530-541 | keeps that form and denotes the union |
| `Cubes.DotMap.Retain` | src/version_vector.rs:705-708 | keeps what the other side also has or has not seen, and removes it there |
| `Cubes.DotMap.Drain` | src/version_vector.rs:710-715 | takes over what this side has not seen, and empties the other |
| `Cubes.DotMap.Merge` | src/version_vector.rs:703-716 | the two loops compute the common dots and those unseen by the other side |
| `Cubes.CausalMap.Retain` | src/version_vector.rs:767-775 | keys on both sides are merged and dropped when empty, keys only here stay |
| `Cubes.CausalMap.Drain` | src/version_vector.rs:777-783 | keys only there are taken over when something in them is unseen |
| `Cubes.CausalMap.Merge` | src/version_vector.rs:765-784 | the two loops compute the merge entry by entry |
| `Cubes.MergeIsJoin` | src/cubes.rs:196-200 | for cubes that own their dots and agree on them, merge is the least upper bound |
| `Cubes.MergeCommutes` | src/cubes.rs:196-200 | merge is commutative |
| `Cubes.MergeAssociates` | src/cubes.rs:196-200 | merge is associative |
| `Cubes.MergeIdempotent` | src/cubes.rs:196-200 | merge is idempotent |
| `Cubes.SetAddWins` | src/version_vector.rs:765-784 | an item with a dot unseen by the other side survives, whichever side has it; an item on both sides keeps exactly its common and unseen dots; an item only in the argument survives exactly by an unseen dot |
| `Cubes.MapLatestWins` | src/cubes.rs:317-328 | a merged Map entry has the greater value by timestamp, then value, in either order of merging |
| `Cubes.LessIff` | src/cubes.rs:318-328 | values of the same time are compared byte by byte: the first that differs decides, and a prefix comes first |
| `MergeEffects.SetsMerge` | src/cubes.rs:92-113 | the merge of two Sets, or of a Set and a Void on either side, item by item: which items and which of their dots are left, exactly |
| `MergeEffects.MapsMerge` | src/cubes.rs:92-113 | the same for Maps and their fields; a field of both has the greatest of the two by time, then value |
| `MergeEffects.CountersMerge` | src/cubes.rs:156-170 | of each node the count with the greatest version; the context is not joined |
| `MergeEffects.ValuesMerge` | src/cubes.rs:196-200 | siblings of both, and those of one that the other has not seen, with their values |
| `MergeEffects.TypesMerge` | src/cubes.rs:114-124 | of cubes of different types the one of the first type stays, in either order |
| `MergeEffects.VoidsMerge` | src/cubes.rs:107-111 | two Voids merge into one that has the contexts of both |
| `MergeEffects.MergedContext` | src/cubes.rs:92-113 | the contexts of Values, Sets, Maps and Voids are joined |
| `MergeEffects.MergedDotsCover` | src/cubes.rs:243-248 | the dots of merged Sets and Maps are the latest of each node on either side |
| `MergeEffects.RemoteReads` | src/vnode.rs:1024-1067 | a replicated cube with a new dot is merged into what the key reads as, any other is skipped, and other keys are left alone |
| `MergeEffects.RemoteLogs` | src/vnode.rs:1024-1067 | the clock gains exactly its dots, the new ones are logged under the key, and the merged cube goes back if asked for |
| `ReplicatedCommands.SAddTravels` | src/vnode.rs:376-466 | an item that was added is shown, by the dot of its SADD, where the cube arrives |
| `ReplicatedCommands.HSetTravels` | src/vnode.rs:376-466 | so is a field, with its value unless a later one is there |
| `ReplicatedCommands.IncrByTravels` | src/vnode.rs:376-466 | so is the node's count, unless a later one is there |
| `ReplicatedCommands.NewDotIsSentIff` | src/cubes.rs:61-70 | the cube of a command tells of its dot, unless it empties a Counter |
| `ReplicatedCommands.HistoryKnown` | src/vnode.rs:1000-1067 | over every history of one replica the dots of all stored cubes are in its clock |
| `ReplicatedCommands.RemovalTravelsIff` | src/version_vector.rs:767-775 | what a replicated Set, Map or Counter lacks is gone where it arrives exactly if it was not there before, so no SREM, HDEL or DEL of these takes anything away elsewhere |
| `ReplicatedCommands.RemovedItemStays` | src/version_vector.rs:767-775 | an item added at one replica, replicated, removed and replicated again: both have the same dots in their clocks, and the other one shows the item for good |
| `ReplicatedCommands.CanHappen` | src/vnode.rs:376-466 | that can happen for every key and item |
| `Cubes.InsertSurvives` | src/cubes.rs:221-228 | an inserted item the other side has not seen survives the merge in either order, with its dot |
| `Cubes.RemoveMerged` | src/cubes.rs:230-235 | a removed item is kept away by merging the other side in exactly when all its dots were seen; merged the other way round it stays |
| `Cubes.LaterFieldWins` | src/cubes.rs:269-276 | a field set later than the other side's wins in either order of merging |
| `Rings.Ring.Rebalance` | src/dht.rs:429-545 | no assertion fails and the unreachable!() is not reached; every vnode ends with min(valid nodes, replication factor) active owners, all valid, and no owner is dropped; a retiring node is made an owner again only where every valid node is among the owners; it fails exactly when is_valid rejects the loads; no node loses what it has up to the rounded-up share; and if no valid node that was retiring ends below the share it succeeds, with no load above it |
| `Rings.RebalanceSucceeds` | src/dht.rs:429-545 | it succeeds from every ring in which each valid node that retires somewhere holds its share elsewhere, so from every ring in which none retires |
| `StrandedRing.UnsettledRingFails` | src/dht.rs:429-545 | for replication factor 1 and every number of partitions from 32 on, a ring that proposals alone lead to and that rebalance rejects, whatever it chooses: a node is removed while another still retires in its favour |
| `StrandedRing.DataForgotten` | src/dht.rs:429-458 | for every number of partitions from 32 on, proposals alone lead to a vnode whose only owner has its data and counts as one that has yet to get it |
| `RingLaws.DataStaysIff` | src/dht.rs:162-306 | an accepted proposal leaves somebody who has the data of a vnode, exactly unless it removes the last one or rebalances with few valid nodes when all who have it are valid and retiring |
| `RingLaws.DataSurvives` | src/dht.rs:1037-1048 | over every sequence of accepted proposals without such a one, somebody has the data of each vnode |
| `RingLaws.Leaves` | src/dht.rs:162-178 | a leaving node retires where it owned; nobody is dropped, and no other owner or node changes |
| `RingLaws.Removes` | src/dht.rs:217-232 | a removed node owns nothing and is invalid; no other owner or node changes |
| `RingLaws.JoinsRing` | src/dht.rs:180-215 | a new node is valid and owns nothing, a known one keeps its status; refused exactly when its machine would have two valid nodes |
| `RingLaws.Replaces` | src/dht.rs:266-306 | the new node takes the old one's place with its status, and the old one is invalid |
| `RingLaws.ReplacesIff` | src/dht.rs:266-306 | refused exactly for a known new node, an unknown old one, and a machine with another valid node |
| `RingLaws.FewRebalance` | src/dht.rs:429-458 | owner by owner, what rebalance does with no more valid nodes than replicas |
| `RingLaws.ManyRebalanceIff` | src/dht.rs:566-615 | with more, it is accepted exactly when every vnode has all replicas and no node more than its rounded-up share and the remainder |
| `Rings.EveryoneOwns` | src/dht.rs:431-455 | with few valid nodes the active owners are exactly the valid ones, and nobody is dropped |
| `Rings.Ring.RebalanceMany` | src/dht.rs:459-545 | both passes with more valid nodes than the replication factor: exactly rf active owners in every vnode; nobody is dropped, who had the data still counts as having it, and nobody becomes an owner who had not |
| `Rings.Ring.RebalanceFew` | src/dht.rs:431-455 | with few valid nodes every valid node that did not own a vnode, or was retiring, gets the new status, and nothing else changes |
| `Rings.Ring.Index` | src/dht.rs:465-480 | node_map is the exact inverse of the active owners |
| `Rings.PickReplica` | src/dht.rs:490-520 | there is always a candidate, the least loaded one that does not own the vnode or else the least loaded retiring one |
| `Rings.Ring.AddReplica` | src/dht.rs:490-520 | one active owner more, and node_map stays the exact inverse |
| `Rings.Ring.CompleteReplicas` | src/dht.rs:486-522 | every vnode ends with rf active owners, nobody starts retiring, node_map stays the exact inverse |
| `Rings.Swap` | src/dht.rs:536-541 | a swap keeps the number of active owners and lowers the sum of loads above the share by exactly one |
| `Rings.ShareOut` | src/dht.rs:525-542 | no load goes up past the share or down past it; afterwards an overloaded owner shares the vnode with every node below the share |
| `Rings.Ring.RobinHood` | src/dht.rs:524-542 | over all vnodes: the excess falls by the number of swaps, no node is pushed above the share, node_map stays the exact inverse |
| `Rings.ShedIsBalanced` | src/dht.rs:524-542 | when no node below the share is retiring, one pass leaves no node above it |
| `RingLoads.LoadsAddUp` | src/dht.rs:482-484 | with rf active owners in every vnode the loads add up to vnodes * rf |
| `RingLoads.SwapLowersExcess` | src/dht.rs:536-541 | moving a vnode from a node above the share to one below lowers the excess by one |
| `Rings.CheckLoads` | src/dht.rs:575-614 | true exactly when every vnode has its replicas and no node has more vnodes than allowed |
| `Rings.Ring.IsValid` | src/dht.rs:566-615 | with the limits is_valid computes |
| `Rings.Ring.JoinNode` | src/dht.rs:182-214 | a join keeps active owners valid, and fails exactly when the machine already has another valid node and the entry is not the same one |
| `Rings.Ring.LeaveNode` | src/dht.rs:163-180 | a leaving node retires everywhere, and the ring stays ok |
| `Rings.Ring.RemoveNode` | src/dht.rs:216-230 | a removed node owns nothing, and the ring stays ok |
| `Rings.Ring.ReplaceNode` | src/dht.rs:266-309 | the new node takes over every ownership with its status, and the ring stays ok |
| `Rings.Ring.PromotePending` | src/dht.rs:232-264 | active owners stay, and retiring ones go with the last pending one |
| `Rings.Dht.Propose` | src/dht.rs:1037-1048 | whatever is proposed in whatever order, active owners are valid and at most rf, no machine has two valid nodes; the new ring and when it is accepted for each proposal; and an error changes nothing |
| `StatusMachine.Database.Handle` | src/vnode.rs:182-284 | for every sequence of ring changes, ticks, starts and fins on any vnodes: no assertion of set_status or start_bootstrap fails, no counter underflows, and the counters are exactly the registered receivers and senders, within their maxima |
| `StatusLaws.ReadyForAReason` | src/vnode.rs:182-284 | over every run, a vnode is ready only if it began so, was a zombie that is wanted again, or a promotion was taken |
| `StatusLaws.NoDataLostWhileWanted` | src/vnode.rs:883-909 | over every run, a vnode that was ready has its data cleared only after it was told that the node should not have it |
| `StatusLaws.BootstrapSucceeds` | src/vnode.rs:746-768 | a bootstrap that succeeds ends ready exactly when the ring takes the promotion, and absent otherwise |
| `StatusLaws.BootstrapFails` | src/vnode.rs:746-752 | one that fails starts over |
| `StatusLaws.ReadyToldAbsent` | src/vnode.rs:189-218 | a ready vnode becomes a zombie, keeps its senders and drops its receivers |
| `StatusLaws.BootstrapToldAbsent` | src/vnode.rs:189-218 | a bootstrapping one becomes absent, with no syncs |
| `StatusLaws.ZombieToldReady` | src/vnode.rs:222-225 | a zombie becomes ready, with all it has |
| `StatusLaws.AbsentToldReady` | src/vnode.rs:226-230 | an absent one bootstraps if there is a peer and room, waits if there is no room, and stays absent exactly when there is no peer and the promotion is refused |
| `StatusLaws.WaitingStarts` | src/vnode.rs:231-236 | so does one that is loaded or waits |
| `StatusLaws.NothingToDo` | src/vnode.rs:219-238 | what is as the ring wants it stays as it is, as do zombies told Absent and bootstraps under way |
| `StatusLaws.Ticks` | src/vnode.rs:243-284 | a tick removes the syncs that ended, and a zombie becomes absent exactly when it is late and has none left |
| `StatusLaws.BootstrapTicks` | src/vnode.rs:254-278 | a bootstrap that ended or waits starts over, one under way goes on |
| `StatusLaws.FinEnds` | src/vnode.rs:710-744 | a fin ends its sync and no other, unless the peer was not ready |
| `StatusMachine.VNode.HandlerDhtChange` | src/vnode.rs:182-240 | the whole new state for each old one: incoming syncs are cancelled before a vnode goes away, a zombie comes back at once, an absent vnode bootstraps |
| `StatusMachine.VNode.HandlerTick` | src/vnode.rs:243-284 | the whole new state: a zombie goes absent exactly when the timeout passed and its last sync ended; a failed bootstrap starts again and finds room; a waiting one tries again |
| `StatusMachine.VNode.HandlerSyncStart` | src/vnode.rs:648-682 | a sender is registered exactly by a ready vnode or a recent zombie, for a new cookie, below the limit |
| `StatusMachine.VNode.HandlerSyncFin` | src/vnode.rs:710-744 | the whole new state: a successful bootstrap ends ready or absent, a failed one starts again, a refused start keeps waiting, any other sync just ends |
| `StatusMachine.VNode.StartSyncIfReady` | src/vnode.rs:816-857 | one receiver is registered exactly when the vnode is ready, has a peer and the limit allows it |
| `StatusMachine.VNode.StartBootstrap` | src/vnode.rs:775-814 | its assertions are preconditions, met at every call; it ends with one receiver, waiting, or done, by peers and room |
| `StatusMachine.VNode.HandleBootstrapResult` | src/vnode.rs:746-773 | an error starts over, success ends ready or absent |
| `StatusMachine.VNode.SetStatus` | src/vnode.rs:883-909 | its assertions are its preconditions, met at every call |
| `StatusMachine.VNode.CancelIncoming` | src/vnode.rs:192-211 | every receiver is removed and counted off, and no sync node is left |
| `StatusMachine.VNode.EndSyncs` | src/vnode.rs:244-257 | every sync that failed is removed and counted off; a failed bootstrap starts again, with room, because its own place is free |
| `StatusMachine.VNode.Unregister` | src/vnode_sync.rs:472-481 | a removed sync is counted off exactly once and its peer forgotten |
| `StatusMachine.Stats.SignalSyncStart` | src/database.rs:445-463 | counts up exactly below the maximum |
| `InFlight.InFlightMap.Insert` | src/inflightmap.rs:44-58 | one more entry and heap pair; a present key is a panic |
| `InFlight.InFlightMap.PopExpired` | src/inflightmap.rs:60-71 | the entry with the earliest deadline if that has come, and nothing exactly when nothing is due |
| `InFlight.InFlightMap.TouchExpired` | src/inflightmap.rs:73-86 | the same, but the entry stays with the new deadline |
| `InFlight.InFlightMap.ResendExpired` | src/vnode_sync.rs:412-416 | with a deadline later than now the resend loop ends, having returned every due entry exactly once and no other |
| `Requests.RequiredIff` | src/types.rs:64-72 | One needs a success, Quorum more than half of the nodes, All each of them |
| `Requests.Coordinator.Register` | src/vnode.rs:287-348 | a registered request waits for required(level) successes out of its nodes, with the cubes it began with |
| `Requests.Coordinator.Process` | src/vnode.rs:469-561 | a request ends at the reply that satisfies it or is the last, with one response: success if it is satisfied, Unavailable otherwise; a success carries the cubes it began with merged with those of exactly the replies counted, in order; the counters never pass the number of nodes |
| `Requests.MergedAt` | src/vnode.rs:482-486 | a reply is merged in key by key, as far as it goes, and keys without a cube stay as they are |
| `Requests.Coordinator.Tick` | src/vnode.rs:264-272 | after a tick past its expiry every request has been answered exactly once, and no other is answered; a success had the required successes, an Unavailable had all replies and fewer successes |
| `RespStream.ChunksDoNotMatter` | src/server.rs:22-38 | however the encoding of any encodable values is cut into chunks, repeated decoding yields exactly those values, in order, with no error and nothing left over |
| `RespStream.Drains` | src/server.rs:26-38 | from any prefix of a stream exactly the complete values come out and the cut one stays |
| `RespStream.DecodesNext` | src/server.rs:26-38 | decode returns the first value exactly when it is all there, and asks for more otherwise |
| `RespStream.RoundTripIff` | src/resp.rs:46-73 | a value is read back as it was written exactly when its numbers and lengths fit and no Status or Error has a CR, nested values included |
| `RespStream.ParsesEncoded` | src/resp.rs:197-297 | the encoding of a value parses to it and leaves what follows |
| `RespStream.ParsesCut` | src/resp.rs:197-297 | every strict prefix of an encoding is incomplete, never invalid |
| `RespStream.ParsedIsEncodable` | src/resp.rs:197-297 | whatever the parser accepts could have been encoded |
| `RespStream.RespCodec.DecodeNext` | src/server.rs:26-38 | takes exactly the consumed bytes off the buffer |
| `RespStream.RespCodec.DecodeAll` | src/server.rs:26-38 | decodes until more bytes are needed |
| `RespScanner.SpeculatesStream` | src/resp.rs:116-180 | on any prefix of a stream the scanner reports no error, and at least the first value once it is all there, although it forgets the counts of outer arrays |
| `RespScanner.ScansValue` | src/resp.rs:116-180 | after a whole value fewer values are pending, and when none is, all up to its end is valid |
| `RespScanner.SpeculateEnds` | src/resp.rs:116-122 | input that ends with a line is taken to be complete, and less than three bytes never are |
| `RespScanner.SpeculateBuffer` | src/resp.rs:116-180 | the index loop computes the scan |
| `RespParser.Parser.Parse` | src/resp.rs:188-195 | parses one value and counts what it consumed on success only |
| `RespParser.Parser.Value` | src/resp.rs:197-217 | the recursive parser on its body |
| `RespParser.Parser.Many` | src/resp.rs:281-292 | the loop over an array's items |
| `RespParser.Parser.TextLine` | src/resp.rs:247-253 | a line up to the first CR |
| `RespGrammar.ParsesIff` | src/resp.rs:186-297 | for every input: the parser gives a value and a rest exactly when the input is a form of the value, by an independent grammar, followed by the rest |
| `RespGrammar.UnsignedRead` | src/resp.rs:267-269 | a number without a sign |
| `RespGrammar.SignsRead` | src/resp.rs:267-269 | a number is a sign or none and at least one digit, and must fit 64 bits |
| `Resp.OnTheWire` | src/resp.rs:47-74 | the bytes of every type of value |
| `Resp.ItemsOnTheWire` | src/resp.rs:57-63 | the items of an array follow one another |
| `Resp.Decimal` | src/resp.rs:49-52 | numbers are written in decimal, with no leading zeros and a sign only if negative |
| `Resp.ReadsBack` | src/resp.rs:255-261 | a printed i64 reads back |
| `Resp.Writer.SerializeInto` | src/resp.rs:46-73 | appends the encoding to the buffer |
| `Resp.SizeSuffices` | src/resp.rs:32-44 | the reserved size is enough for every value whose lengths have at most ten digits |
| `Resp.BulkSizeExact` | src/resp.rs:32-44 | and for a bulk string only then |

## Left out

- Sockets, threads, channels and configuration (`src/fabric.rs`, `src/workers.rs`, `src/main.rs`, `src/config.rs`, `src/metrics.rs`, connections in `src/server.rs`): handlers are atomic, as the vnode lock makes them; between signal_sync_start and the registration a counter is one ahead, which is not visible here.
- `src/storage.rs`: the store and the log are maps written in atomic batches; the expiry of log entries after 72 hours is not modelled, so a sync that starts later than that is not covered.
- Gossip, `Ring::merge` and the broadcast of rings: only locally proposed operations keep the ring ok here; the version vectors of the ring are not modelled.
- Ids of earlier incarnations of a node in a sync's snapshot, and a vnode that comes back after its clock was cleared: membership is fixed in the protocol.
- Counters, Sets and Maps in the protocol theorems: those are about Value keys; Set and Map merges keep entries found only on the left, so they are not claimed to commute. Cubes of different types under one key are not claimed to merge well.
- Serialization with bincode, the Roaring encoding, CRC16 and key slots: no property here depends on them.
- `src/command.rs`: only what its mutators do to a cube, not the parsing of arguments and the reply of each command. Counts are unbounded; the source's are 64 bits wide.
- VNodeState::load: only recover_dots; what the protocol does after a crash is not followed further than the recovered clock.
- ProtocolSafety.StartInv: for a cookie not served before, as in orderly runs; for one that was, see RestartedSync.RestartLosesAWrite.
- DeltaVersionVector's contains, from_vv, contained and equality.
- ProtocolTheorems.NoLostWrite: for orderly runs; that some others lose a write is RestartedSync.RestartLosesAWrite and FailedSends.FailureLosesIff, but which of them do is not characterised. The same holds of everything proved over runs of the protocol, in Quorum and CrashSafety too.
- Quorum.QuorumReadsSeeQuorumWrites: a request is about one key; the replicas asked are all replicas of the vnode, at every time.
- Rings.Ring.Rebalance: success is proved where no valid node that was retiring ends below its share (Rings.RebalanceSucceeds has a condition on the ring before). From other rings it can fail (StrandedRing.UnsettledRingFails), and for which of them it does is not characterised, since it depends on the iteration order of hash maps. The share is computed with integers, not with f64.
- Requests.Coordinator.Process: counters are unbounded; since they never pass the number of nodes, the 8 bits of the source suffice up to 255 nodes.
- RespScanner.SpeculateBuffer: the length is unbounded; in the source it is an i64, which matters only for lengths no encoding has. The allocation for an announced array length is not modelled.
- SyncSenders.SyncSender.SendNext: resends are InFlight.InFlightMap.ResendExpired; one that fails ends the call before anything is taken. The iterator of a bootstrap is in the protocol only.
- InFlight.InFlightMap.Insert: keys are not reused; a reused key whose old heap pair is still there could expire early.
