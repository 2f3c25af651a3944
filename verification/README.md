# rAMQP, verified

A Dafny model of the hard core of the rAMQP broker, an AMQP 1.0 broker with transient, durable and
replicated queues, and proofs of what it promises. `dafny verify dfyconfig.toml` checks the whole project.

The model is in layers. Each protocol or data structure is a state on values, the moves of the source as
functions on it, an invariant, and theorems over every run of those moves, in any interleaving. Beside it a
class holds the same state in fields and updates it in place, with the source's loops; each of its methods is
proved to be the corresponding move. A few components of the states are history only (what has been published,
delivered, granted, issued); they are named as such where the state is declared, and no move looks at them.

- **Transient queue** (`Dispatch`, `TransientQueue`, `QueueSafety`, `QueueRuns`, `QueueActor`). The actor's
  mailbox arms, eviction, expiry and round-robin dispatch.
- **Transactions** (`TxnCommit`, `TxnSystem`, `TxnSettles`, `TxnManager`). Staging, and the two-phase commit as a
  system of concurrent commits, queues and FIFO mailboxes with ordinary traffic around them (sections 4.2 to 4.4
  of Part 4 of the AMQP 1.0 specification).
- **Link credit** (`Subscriptions`, `LinkCredit`, `LinkReuse`, `LinkActor`). One connection and its queues joined by
  FIFO channels, through attach, detach, session end and reuse of handles (section 2.6.7 of Part 2).
- **Proxy** (`Proxy`, `ProxyLink`, `ProxyActor`). Credit and publishes carried across leader changes, and a link on top.
- **Replicated queue** (`Paging`, `QueueGroup`, `QueueRestart`, `SnapshotLife`, `Quorum`, `QuorumSafety`,
  `QuorumRuns`, `QuorumDepth`, `QuorumActor`). The spill store, the paged state machine, its snapshots and what becomes
  of them, and the leader's actor over a commit log whose proposals commit or fail in any order.
- **Crash safety** (`RaftStore`, `RaftSafety`, `RaftInstalls`, `RaftMember`, `Durable`, `DurableSafety`,
  `DurableRuns`, `DurableHistory`, `DurableDepth`, `DurableActor`). Write-through Raft storage with snapshot files built
  here or installed from a leader, and the durable queue over group commit, with a crash possible between any two steps.
- **Codecs** (`Wire`, `Value`, `ValueDecode`, `ValueRoundTrip`, `ValueExact`, `ValueWriter`, `ValueReader`,
  `Composite`, `Elision`, `CompositeWriter`, `SerdeBin`, `SerdeInverse`, `SerdeRun`, `Fabric`). The AMQP value codec and
  described lists with trailing nulls left out (sections 1.2, 1.4 and 1.6 of Part 1), the cluster's binary
  serialization and its framing.

Some promises turn out to hold only under a condition. For each there is a lemma at an input where it fails, and
the exact condition is proved:

- A refused publish on a drop-head queue may have displaced messages first: exactly when there was something to
  displace (`QueueRuns.RefusedPublishChangesNothingIff`, `QuorumRuns.RefusedPublishChangesNothingIff`,
  `DurableDepth.RefusedPublishChangesNothingIff`; failing inputs in the lemmas `RefusedPublishDisplaces` of
  `QueueRuns`, `QuorumDepth` and `DurableDepth`).
- A quorum queue's depth passes its bound, under any policy, exactly when a failed removal completes with the depth
  at the bound, or a reserved publish finds no slot held for it, the bound reached and nothing to displace; and
  nothing at the head has expired to make up for it (`QuorumDepth.DepthPassesIff`; terms that do so in
  `QuorumDepth.DepthPassesItsBound`, `QuorumDepth.ReservedAfterFailoverPasses` and
  `QuorumDepth.DropHeadReservationPasses`).
- A durable queue's depth does so exactly by such a reserved publish, or by a recovery that finds more rows than the
  bound (`DurableDepth.DepthPassesIff`; a run that does so in `DurableDepth.ReservedPublishPasses`).
- A snapshot that refers to spilled bodies can be restored as something else. With its segment files gone and the
  counter restarted below them, a dead reference may name a segment written during the restore itself
  (`QueueRestart.DeadReferenceReadsAnotherBody`); and a later restart finds that segment under the old number
  (`SnapshotLife.FileUnderAnOldNumber`). Through any number of restarts, an accepted restore gives back what the
  snapshot said, whatever that was, exactly when every restart since found a file under the number of every reference
  to a body that is not empty (`SnapshotLife.RestoreThroughRestartsIff`; for one restart, given files that have only
  grown, `QueueRestart.RestoreGivesBackIff`).
- While the replica lives, a snapshot can be read after any commands exactly when each segment it refers to is the
  current one or holds the body of a message still queued (`SnapshotLife.SnapshotReadableIff`; a settle after which it
  cannot in `QueueRestart.SettleOrphansSnapshot`).
- A Raft member can recover from a crash exactly when its recorded snapshot is not torn
  (`RaftSafety.CrashLosesNothing`), and in a run that is never torn exactly when no build starts its file under the
  recorded file's own name (`RaftSafety.NeverTornIff`). A build after an install may, if and only if the leader's
  counter was ahead of the member's own (`RaftInstalls.InstallIsSafeIff`; a run that loses in
  `RaftInstalls.FreshMemberLoses`).
- A composite comes back from its encoding exactly when each present field does: it is not a bare null (unless its
  default is null), its arrays and maps are regular, and it nests within the decoder's limit
  (`Elision.CompositeRoundTripsIff`; two that do not in `Elision.PresentNullIsLost` and
  `Elision.PresentMixedArrayIsLost`).
- A value comes back exactly when its arrays are of one shape, hold at most 1024 elements that take no bytes, and it
  nests within the decoder's limit (`ValueExact.RoundTripIff`; one that does not in `ValueExact.MixedArrayIsLost`).
- A proxied subscriber's credit stays exact just when no grant to it takes what is outstanding past a u32
  (`Proxy.DemandedKeepsIff`; two grants that do in `Proxy.GrantsSaturate`). The broker's own connection never makes
  such grants (`ProxyLink.ProxiedCreditIsConserved`).

Integers are unbounded except where the source's width matters: demand and outstanding credit saturate at a u32
explicitly, wire sizes are checked against their width. A `max_bytes` of `None` is the unbounded setting. Clock
readings, whether a connection takes a command, whether a batch commits, and how the socket cuts its input are
parameters of the steps, so the theorems hold for all of them.

## Model

| member | source | states |
|---|---|---|
| `Dispatch.PickReadyIsNearest` | ramqp-broker/src/dispatch.rs:59-65 | the round-robin pick finds nothing only when nobody has demand, and otherwise the first subscriber with demand round the ring from `rr` |
| `Dispatch.ServedGoesLast` | ramqp-broker/src/queue.rs:416-419 | right after a subscriber is served, every other one is ahead of it in the ring |
| `Dispatch.WaitingKeepsItsPlace` | ramqp-broker/src/queue.rs:416-419 | a subscriber with standing demand keeps its place before an already served one, whoever else is served |
| `QueueSafety.PopHeadCore` | ramqp-broker/src/queue.rs:256-263 | losing the head (eviction, expiry) keeps ids partitioned, bytes exact, bodies faithful and first deliveries in order |
| `QueueSafety.AcceptCore` | ramqp-broker/src/queue.rs:272-281 | storing a message keeps the same, with the new id last |
| `QueueSafety.PushFrontCore` | ramqp-broker/src/queue.rs:334-348 | a dispatched message returned to the front keeps the same |
| `QueueSafety.FinishCore` | ramqp-broker/src/queue.rs:334-345 | a settled message leaves, and the bytes it held are given back exactly |
| `QueueSafety.SendCore` | ramqp-broker/src/queue.rs:421-436 | a delivery moves the head to its subscriber and keeps first deliveries in publish order |
| `QueueSafety.DropSubReturns` | ramqp-broker/src/queue.rs:359-373 | a departing subscriber's messages are back in front of all that was ready, in id order, and nobody else's move |
| `QueueSafety.ArmKeeps` | ramqp-broker/src/queue.rs:243-375 | every mailbox arm keeps the whole invariant and ownership by current subscribers |
| `QueueSafety.DispatchLoopKeeps` | ramqp-broker/src/queue.rs:392-456 | the dispatch loop keeps it and ends quiet: nothing ready or no demand, and no drain-pending subscriber with demand |
| `QueueSafety.HandleKeeps` | ramqp-broker/src/queue.rs:242-388 | one mailbox message, handled to completion, keeps all of it |
| `QueueSafety.EveryRunIsHealthy` | ramqp-broker/src/queue.rs:228-388 | in every run, every accepted message is in exactly one of ready, unacked under a current subscriber, or finished; bytes are the sum of the held bodies; `ready` is previously dispatched messages followed by never dispatched ones in id order; deliveries carry the published bodies; dispatch has left no ready message facing demand |
| `TransientQueue.DispatchOneShrinks` | ramqp-broker/src/queue.rs:414-453 | why dispatch ends although failed sends put messages back: (subscribers, ready) falls lexicographically |
| `QueueRuns.HandleIsTurns` | ramqp-broker/src/queue.rs:242-456 | a handled message is the same as its arm followed by single expiry and send turns |
| `QueueRuns.RoundRobinIsFair` | ramqp-broker/src/queue.rs:414-453 | between two deliveries to one subscriber, every other one with standing demand gets one, while the list is unchanged |
| `QueueRuns.NothingLeavesWithoutCause` | ramqp-broker/src/queue.rs:245-456 | a message finishes only by its own owner's ack or drop, the delivery limit, its age, or a newcomer on a full drop-head queue, and with that fate |
| `QueueRuns.LateSettleDoesNothing` | ramqp-broker/src/queue.rs:323-333 | once a subscriber is gone, no settle in its name changes anything, whatever happened since |
| `QueueRuns.RefusedPublishChangesNothingIff` | ramqp-broker/src/queue.rs:249-271 | a refused publish leaves the queue as it was if and only if drop-head had nothing to displace; otherwise messages were displaced for nothing |
| `QueueRuns.RefusedPublishDisplaces` | ramqp-broker/src/queue.rs:249-271 | a run in which an oversized publish is refused and the one ready message is gone |
| `QueueActor.Actor.constructor` | ramqp-broker/src/queue.rs:228-240 | an empty actor |
| `QueueActor.Actor.TakeHead` | ramqp-broker/src/queue.rs:256-262 | pops the head and gives its bytes back |
| `QueueActor.Actor.EvictForRoom` | ramqp-broker/src/queue.rs:252-264 | the drop-head loop: displaces from the front until the newcomer fits or nothing is left |
| `QueueActor.Actor.PublishBody` | ramqp-broker/src/queue.rs:245-284 | stores under the next id, or refuses exactly at a bound that eviction could not lift |
| `QueueActor.Actor.ReserveSlots` | ramqp-broker/src/queue.rs:285-294 | grants exactly when the depth bound leaves room, and holds the slots |
| `QueueActor.Actor.FindSub` | ramqp-broker/src/queue.rs:316-316 | the first subscriber with that id, or none |
| `QueueActor.Actor.GrantDemand` | ramqp-broker/src/queue.rs:315-322 | raises that subscriber's demand, saturating |
| `QueueActor.Actor.SettleMessage` | ramqp-broker/src/queue.rs:323-351 | the owner's outcome; anyone else's changes nothing |
| `QueueActor.Actor.DropSubscriber` | ramqp-broker/src/queue.rs:359-373 | forgets the subscriber and requeues what it held, oldest first |
| `QueueActor.Actor.ExpireHeads` | ramqp-broker/src/queue.rs:403-412 | expires from the head while the head is too old |
| `QueueActor.Actor.Drains` | ramqp-broker/src/dispatch.rs:70-77 | completes every pending drain |
| `QueueActor.Actor.DispatchTurn` | ramqp-broker/src/queue.rs:414-453 | one offer, and what a dead connection costs |
| `QueueActor.Actor.DispatchReady` | ramqp-broker/src/queue.rs:414-455 | the whole dispatch loop |
| `QueueActor.Actor.HandleArm` | ramqp-broker/src/queue.rs:243-375 | the mailbox arms |
| `QueueActor.Actor.HandleMessage` | ramqp-broker/src/queue.rs:242-388 | one message from arrival to quiet, and the reply it gives |
| `TxnStaging.TxnManager.Declare` | ramqp-broker/src/txn.rs:146-159 | opens a transaction under a new id, up to the limit |
| `TxnStaging.TxnManager.StagePublish` | ramqp-broker/src/txn.rs:163-182 | stages within the byte budget, else rejects and marks the transaction |
| `TxnStaging.TxnManager.StageSettle` | ramqp-broker/src/txn.rs:185-204 | stages a settle, or hands it back and marks the transaction |
| `TxnStaging.TxnManager.Take` | ramqp-broker/src/txn.rs:207-215 | removes one transaction and returns its bytes to the budget |
| `TxnStaging.TxnManager.TakeAll` | ramqp-broker/src/txn.rs:218-222 | removes them all and the budget is whole again |
| `TxnCommit.GroupPublishes` | ramqp-broker/src/txn.rs:273-283 | groups publishes by queue in order of first use |
| `TxnCommit.GroupSlots` | ramqp-broker/src/txn.rs:273-283 | the slots asked of each queue are exactly its publishes |
| `TxnCommit.GroupsDistinct` | ramqp-broker/src/txn.rs:273-283 | no queue appears in two groups |
| `TxnSystem.AdvanceKeeps` | ramqp-broker/src/txn.rs:284-371 | one step of one commit, among any other commits and traffic, keeps the whole-system invariant |
| `TxnSystem.ReceiveKeeps` | ramqp-broker/src/queue.rs:245-297 | a queue receiving a reservation, release, publish, settle or anything else keeps it |
| `TxnSystem.EveryRunKeeps` | ramqp-broker/src/txn.rs:273-389 | the invariant over every interleaving of commits and ordinary traffic |
| `TxnSystem.PublishesAreAtomic` | ramqp-broker/src/txn.rs:284-357 | a finished commit is never partial: it landed all its publishes, each with its body and in staging order per queue, or none |
| `TxnSettles.SettleTakesEffect` | ramqp-broker/src/queue.rs:323-351 | a handled settle of the holder ends or returns the message as its outcome says, anyone else's does nothing, and afterwards the subscriber holds it by no delivery so far |
| `TxnSettles.NextSettlesOk` | ramqp-broker/src/txn.rs:359-389 | no step of commits, queues or traffic copies, loses or alters a posted settle, or undoes a handled one |
| `TxnSettles.EveryRunSettles` | ramqp-broker/src/txn.rs:273-389 | so in every run |
| `TxnSettles.CommitIsAtomic` | ramqp-broker/src/txn.rs:273-389 | a finished commit landed all its publishes or none; and each staged settle on a live queue, with its outcome or as a requeue when rolled back, is in that mailbox or was handled there, one copy in all: since then the subscriber holds the message only by a later delivery, and an ack or drop that found its holder stands |
| `TxnSystem.LandingsAreDistinct` | ramqp-broker/src/txn.rs:310-332 | every landed publish has an id of its own on its queue |
| `TxnSystem.ReservationsAreExact` | ramqp-broker/src/queue.rs:285-297 | on a reject-policy queue `reserved` is exactly the slots commits in progress hold or are giving back, and ready + unacked + reserved never exceeds `max_len` |
| `LinkCredit.UnbindKeeps` | ramqp-broker/src/connection.rs:1460-1464 | detaching, or releasing at session end, keeps the two-sided link invariant |
| `LinkCredit.AttachKeeps` | ramqp-broker/src/connection.rs:1272-1319 | binding a consumer under a fresh generation keeps it |
| `LinkCredit.CreditKeeps` | ramqp-broker/src/connection.rs:1424-1459 | forwarding the credit delta keeps it |
| `LinkCredit.CommandKeeps` | ramqp-broker/src/connection.rs:752-787 | taking or dropping a delivery keeps it |
| `LinkCredit.ReceiveKeeps` | ramqp-broker/src/queue.rs:298-373 | the queue's arms keep it |
| `LinkCredit.TurnSysKeeps` | ramqp-broker/src/queue.rs:414-453 | the queue's sends keep it |
| `LinkCredit.EveryRunKeeps` | ramqp-broker/src/connection.rs:752-787 | the invariant over every interleaving of the connection, its queues and the rest of the broker |
| `LinkCredit.CreditIsConserved` | ramqp-broker/src/connection.rs:1424-1459 | `granted` is the demand in the mailbox plus the queue's demand plus the deliveries on their way back, and fits a u32, so no saturation ever bites |
| `LinkCredit.RestatedFlowAddsNothing` | ramqp-broker/src/connection.rs:1434-1449 | a flow arms exactly up to the credit it states, and restating it changes nothing |
| `LinkCredit.DeliveriesAreNeverMisrouted` | ramqp-broker/src/connection.rs:763-776 | however handles are reused, a delivery reaches only the binding its subscription was made for; a dropped one belongs to a subscription the queue has forgotten or is about to |
| `LinkCredit.NothingIsStranded` | ramqp-broker/src/queue.rs:323-373 | a message dispatched to this connection is on its way to it, unsettled there, on its way back as a settle, or about to be requeued |
| `LinkReuse.EndedForGood` | ramqp-broker/src/connection.rs:763-776 | a binding generation once gone never comes back, however its channel and handle are reused |
| `LinkReuse.DroppedDeliveryIsForgotten` | ramqp-broker/src/connection.rs:763-776 | whatever follows a dropped delivery, its Unsubscribe is still in the queue's mailbox or the queue has forgotten the subscriber: it holds nothing and its late settles change nothing |
| `LinkReuse.UnsubscribeReturns` | ramqp-broker/src/queue.rs:359-373 | and when the queue takes that Unsubscribe, what the subscriber held is ready again, at the front in id order |
| `LinkActor.Connection.HandleDeliver` | ramqp-broker/src/connection.rs:752-787 | accounts a delivery against the granted credit and registers its settlement, or drops it |
| `LinkActor.Connection.OnCredit` | ramqp-broker/src/connection.rs:1424-1459 | posts only the credit above what was handed out, and nothing for a restated flow |
| `LinkActor.Connection.OnDetached` | ramqp-broker/src/connection.rs:1460-1464 | removes the binding and unsubscribes a consumer |
| `LinkActor.Connection.ReleaseSession` | ramqp-broker/src/connection.rs:1566-1578 | releases every binding of the channel and no other |
| `Paging.AppendedOk` | ramqp-broker/src/cluster/paging.rs:184-240 | an append, with or without a roll, keeps counts exact, live and pinned bodies intact, and nothing leaked |
| `Paging.ReleasedOk` | ramqp-broker/src/cluster/paging.rs:263-280 | so does a release |
| `Paging.PinTakenOk` | ramqp-broker/src/cluster/paging.rs:283-285 | so does a pin |
| `Paging.PinDroppedOk` | ramqp-broker/src/cluster/paging.rs:289-299 | so does dropping a pin, with the deferred deletions |
| `Paging.LiveSetOk` | ramqp-broker/src/cluster/paging.rs:169-181 | after recovery counts are exact and exactly the unreferenced segments are gone |
| `Paging.EveryRunOk` | ramqp-broker/src/cluster/paging.rs:184-299 | from the empty store, whatever operations its users issue on what they hold: a segment's live count is its unreleased references, live and pinned bodies read back as written, and no dead segment is leaked |
| `Paging.ProtectedReadsTheSame` | ramqp-broker/src/cluster/paging.rs:243-299 | a reference live at one moment reads the same bytes at every later moment at which it is live or under a pin taken while it was |
| `Paging.StillReadableIff` | ramqp-broker/src/cluster/paging.rs:184-299 | from any store in order, in every run: a reference once live can be read later, with nothing pinned, if and only if its segment still holds something live or is the current one, and then reads the same bytes |
| `Paging.Spill.constructor` | ramqp-broker/src/cluster/paging.rs:80-88 | an empty store |
| `Paging.NextAfter` | ramqp-broker/src/cluster/paging.rs:119-146 | the counter a reopened store starts from: just past the greatest segment file left |
| `Paging.Spill.Preserving` | ramqp-broker/src/cluster/paging.rs:92-158 | reopens the segment files with nothing counted yet, and the counter computed from them |
| `Paging.Spill.OpenSegment` | ramqp-broker/src/cluster/paging.rs:186-222 | rolls exactly when needed, reclaiming a drained outgoing segment |
| `Paging.Spill.Append` | ramqp-broker/src/cluster/paging.rs:184-240 | the new reference reads back as the body, and no issued reference is overwritten |
| `Paging.Spill.Read` | ramqp-broker/src/cluster/paging.rs:243-259 | the bytes, or none if the segment is gone or short |
| `Paging.Spill.Release` | ramqp-broker/src/cluster/paging.rs:263-280 | counts down and reclaims or defers |
| `Paging.Spill.Pin` | ramqp-broker/src/cluster/paging.rs:283-285 | holds deletions |
| `Paging.Spill.Unpin` | ramqp-broker/src/cluster/paging.rs:289-299 | runs the deferred deletions when the last pin goes |
| `Paging.Spill.SetLive` | ramqp-broker/src/cluster/paging.rs:169-181 | the recounting loop |
| `QueueGroup.EnqueueResident` | ramqp-broker/src/cluster/queue_group.rs:206-221 | a body kept in memory: same map, same response, resident bytes exact and within budget |
| `QueueGroup.EnqueueSpilled` | ramqp-broker/src/cluster/queue_group.rs:206-221 | a body spilled: the same |
| `QueueGroup.SettleRemoves` | ramqp-broker/src/cluster/queue_group.rs:286-294 | a removal: the same, and its reference is released |
| `QueueGroup.SettleRequeues` | ramqp-broker/src/cluster/queue_group.rs:279-285 | a requeue: the same |
| `QueueGroup.ApplyToOk` | ramqp-broker/src/cluster/queue_group.rs:266-299 | one command on a replica, as a value: in order, the plain map's new value, and no segment number handed out again |
| `QueueGroup.QueueState.constructor` | ramqp-broker/src/cluster/queue_group.rs:155-163 | an empty state over a spill store |
| `QueueGroup.QueueState.StoreBody` | ramqp-broker/src/cluster/queue_group.rs:206-221 | memory within the budget, else the spill files |
| `QueueGroup.QueueState.EnqueueBody` | ramqp-broker/src/cluster/queue_group.rs:268-277 | the plain map's enqueue |
| `QueueGroup.QueueState.Apply` | ramqp-broker/src/cluster/queue_group.rs:266-299 | whatever the budget, the response and the map of the plain state machine, and the replica `ApplyTo` gives; resident bytes exact and within budget |
| `QueueGroup.QueueState.ApplyAll` | ramqp-broker/src/cluster/queue_group.rs:266-299 | for a whole log: so replicas with different budgets give the same responses and the same contents |
| `QueueGroup.QueueState.BodyOf` | ramqp-broker/src/cluster/queue_group.rs:167-180 | the plain map's body, read back from memory or from the files |
| `QueueRestart.TakeSnapshot` | ramqp-broker/src/cluster/queue_group.rs:320-355 | the snapshot says exactly what the state means, and everything it refers to is readable |
| `QueueRestart.LoadOne` | ramqp-broker/src/cluster/queue_group.rs:366-393 | loads one message, in memory or into the files, refusing exactly a reference that is foreign or cannot be read now |
| `QueueRestart.LoadAllGrows` | ramqp-broker/src/cluster/queue_group.rs:366-403 | while bodies are restored no segment is deleted and nothing that could be read reads otherwise |
| `QueueRestart.LoadAllReads` | ramqp-broker/src/cluster/queue_group.rs:366-403 | in an accepted restore each message reads back as its own bytes, or as what its reference reads |
| `QueueRestart.RestoreGivesBackIff` | ramqp-broker/src/cluster/queue_group.rs:357-403 | of files that have only grown since the snapshot: an accepted restore gives back the contents, whatever they were, if and only if every reference to a non-empty body names a segment file still there |
| `QueueRestart.DeadReferenceReadsAnotherBody` | ramqp-broker/src/cluster/paging.rs:119-146 | an accepted restore that does not: the segment is gone, its number is handed out again, and the dead reference reads the body just spilled there |
| `QueueRestart.OldReferencesAreThere` | ramqp-broker/src/cluster/queue_group.rs:372-393 | with references only below the reopened counter, what is accepted was there to be read |
| `QueueRestart.ReadableIsAccepted` | ramqp-broker/src/cluster/queue_group.rs:357-403 | if every reference is the store's own and readable in the files, the restore is accepted and gives back just that |
| `QueueRestart.Restore` | ramqp-broker/src/cluster/queue_group.rs:357-403 | accepts exactly the snapshots each of whose references can be read when its turn comes, and loads message after message |
| `QueueRestart.LiveCounts` | ramqp-broker/src/cluster/queue_group.rs:196-204 | each segment's count is the number of bodies that refer to it |
| `QueueRestart.RecountMakesWhole` | ramqp-broker/src/cluster/node.rs:801-804 | recounting gives exact counts and the contents read back, and keeps exactly the segments that are referred to |
| `QueueRestart.Recover` | ramqp-broker/src/cluster/node.rs:785-806 | restore and recount: whenever accepted the replica is whole, with the contents its messages read back, and exactly the unreferenced segments gone |
| `QueueRestart.SnapshotAndRestart` | ramqp-broker/src/cluster/node.rs:785-806 | snapshotting and restarting over the files left, the counter taken from them, under any budget, gives back the same contents |
| `QueueRestart.SettleOrphansSnapshotIff` | ramqp-broker/src/cluster/paging.rs:263-280 | a settle leaves an unpinned snapshot readable if and only if it does not reclaim the last body of a segment no longer current |
| `QueueRestart.SettleOrphansSnapshot` | ramqp-broker/src/cluster/paging.rs:263-280 | a replica recovered, then one enqueue and one settle, and the snapshot of it can no longer be read |
| `SnapshotLife.AfterOk` | ramqp-broker/src/cluster/queue_group.rs:266-299 | a command, or a snapshot builder's pin or unpin, keeps the replica in order and its files only growing |
| `SnapshotLife.SnapshotReadableIff` | ramqp-broker/src/cluster/paging.rs:184-299 | after any commands, pins and unpins, with no builder at work, a snapshot can be read if and only if each segment it refers to is current or holds the body of a message still queued; and then it says what it said |
| `SnapshotLife.LifeIsPast` | ramqp-broker/src/cluster/node.rs:785-806 | whatever the replica does after a snapshot, the files it refers to are the same ones grown, or gone |
| `SnapshotLife.RestoreIsEra` | ramqp-broker/src/cluster/queue_group.rs:357-403 | a restart that dies or is refused while it restores leaves every file below its counter as it was |
| `SnapshotLife.LifeIsEra` | ramqp-broker/src/cluster/node.rs:785-806 | a restart that recovers, and whatever the replica then does, leaves every file below its counter the same one grown, or gone |
| `SnapshotLife.HistoryKeepsSnapshot` | ramqp-broker/src/cluster/paging.rs:119-146 | while every restart finds a file under every number referred to, those are the snapshot's own files, only grown |
| `SnapshotLife.RestoreThroughRestartsIff` | ramqp-broker/src/cluster/queue_group.rs:357-403 | through any number of restarts, an accepted restore gives back what the snapshot said, whatever it said and whatever the files held before, if and only if each of them found every file referred to |
| `SnapshotLife.FileUnderAnOldNumber` | ramqp-broker/src/cluster/paging.rs:119-146 | a second restart: the file is there, under an old number, and holds another message's body |
| `QuorumSafety.MailOk` | ramqp-broker/src/quorum.rs:248-445 | every mailbox arm keeps each applied message in exactly one place |
| `QuorumSafety.CommitsOk` | ramqp-broker/src/quorum.rs:301-316 | so does a commit by the log |
| `QuorumSafety.CompletedOk` | ramqp-broker/src/quorum.rs:202-238 | so does every completion |
| `QuorumSafety.ServeAllOk` | ramqp-broker/src/quorum.rs:518-585 | so does dispatch |
| `QuorumSafety.EveryTermOk` | ramqp-broker/src/quorum.rs:130-245 | the invariant over every interleaving of mail, log and completions in a leadership term; pending publish count and bytes exact, no message kept past the delivery limit |
| `QuorumSafety.NothingIsStranded` | ramqp-broker/src/quorum.rs:137-245 | at every moment a message is applied exactly when it is in one, and only one, of: ready, in flight under a current subscriber, awaiting its enqueue completion, awaiting a removal, left by a failed dead-letter removal |
| `QuorumRuns.AnsweredOnce` | ramqp-broker/src/quorum.rs:202-221 | every publish is waiting on one proposal or has been answered, never both |
| `QuorumRuns.AnswersStand` | ramqp-broker/src/quorum.rs:202-221 | an answer never changes |
| `QuorumRuns.ConfirmedWasCommitted` | ramqp-broker/src/quorum.rs:206-213 | a publish is confirmed only after the log committed it, under that id |
| `QuorumDepth.DepthPassesIff` | ramqp-broker/src/quorum.rs:219-335 | on every queue, under every policy: a step takes the depth past its bound, or further past it, if and only if it completes a failed removal at the bound, or is a reserved publish with no slot held, the bound reached and nothing to displace; and no head has expired |
| `QuorumDepth.DepthBounded` | ramqp-broker/src/quorum.rs:268-335 | in every term, under every policy, the depth is at most the bound, or what the term began with, plus one for each such step |
| `QuorumDepth.PastTheBoundSince` | ramqp-broker/src/quorum.rs:219-335 | wherever a term's depth is past that, such a step took it there, right from the bound |
| `QuorumDepth.DepthPassesItsBound` | ramqp-broker/src/quorum.rs:219-231 | a term of six steps that leaves two messages on a queue of one |
| `QuorumDepth.ReservedAfterFailoverPasses` | ramqp-broker/src/quorum.rs:264-290 | a new leader, which holds no slots, takes a reserved publish on a full queue: one message too many |
| `QuorumDepth.DropHeadReservationPasses` | ramqp-broker/src/quorum.rs:325-335 | a drop-head queue grants a reservation and holds no slot for it: a term of four steps that passes the bound |
| `QuorumRuns.RefusedPublishChangesNothingIff` | ramqp-broker/src/quorum.rs:268-303 | a refused publish leaves the queue as it was if and only if drop-head displaced nothing before the byte bound refused it |
| `QuorumDepth.RefusedPublishDisplaces` | ramqp-broker/src/quorum.rs:268-303 | an oversized publish refused, and the one ready message taken out |
| `QuorumRuns.NothingIsTakenWithoutCause` | ramqp-broker/src/quorum.rs:359-445 | a message is taken out only by its owner's ack or drop, the delivery limit, its age, or a newcomer on a full drop-head queue |
| `QuorumRuns.OldestFirst` | ramqp-broker/src/quorum.rs:526-556 | each delivery is the oldest ready message with its committed body, to the nearest subscriber with demand |
| `QuorumRuns.ServesUntilQuiet` | ramqp-broker/src/quorum.rs:526-585 | dispatch ends with nothing ready or no demand |
| `Quorum.ServeShrinks` | ramqp-broker/src/quorum.rs:526-582 | why dispatch ends although failed sends put messages back |
| `QuorumActor.Actor.constructor` | ramqp-broker/src/quorum.rs:137-172 | everything in applied state is ready |
| `QuorumActor.Actor.PushCommit` | ramqp-broker/src/quorum.rs:298-316 | one more proposal in the pipeline |
| `QuorumActor.Actor.TakeOutReady` | ramqp-broker/src/quorum.rs:450-468 | a ready message out, its removal proposed |
| `QuorumActor.Actor.TakeOutHeld` | ramqp-broker/src/quorum.rs:369-389 | a held message out, its removal proposed |
| `QuorumActor.Actor.ProposePublish` | ramqp-broker/src/quorum.rs:304-324 | pending counters up, the enqueue proposed |
| `QuorumActor.Actor.Publish` | ramqp-broker/src/quorum.rs:264-324 | admission by depth, drop-head and bytes |
| `QuorumActor.Actor.SettleMessage` | ramqp-broker/src/quorum.rs:359-426 | the owner's outcome, with the leader's own failure count |
| `QuorumActor.Actor.Retain` | ramqp-broker/src/quorum.rs:437-445 | splits off what a subscriber holds |
| `QuorumActor.Actor.DropSubscriber` | ramqp-broker/src/quorum.rs:434-446 | forgets a subscriber, its messages ready again |
| `QuorumActor.Actor.HandleMsg` | ramqp-broker/src/quorum.rs:248-447 | the mailbox arms |
| `QuorumActor.Actor.FinishPublish` | ramqp-broker/src/quorum.rs:204-221 | confirm and make ready, or refuse |
| `QuorumActor.Actor.FinishCommit` | ramqp-broker/src/quorum.rs:202-238 | any completion; the pending count cannot underflow |
| `QuorumActor.Actor.ExpireHeads` | ramqp-broker/src/quorum.rs:491-515 | expiry from the oldest |
| `QuorumActor.Actor.OfferTo` | ramqp-broker/src/quorum.rs:545-582 | one offer, and what a dead connection costs |
| `QuorumActor.Actor.DispatchTurn` | ramqp-broker/src/quorum.rs:526-582 | the ready message is always still in applied state |
| `QuorumActor.Actor.DispatchReady` | ramqp-broker/src/quorum.rs:518-585 | the dispatch loop |
| `QuorumActor.Actor.OnMail` | ramqp-broker/src/quorum.rs:176-200 | a whole turn on mail |
| `QuorumActor.Actor.OnCommit` | ramqp-broker/src/quorum.rs:201-242 | a whole turn on a completion |
| `RaftSafety.ReturnKeeps` | ramqp-broker/src/cluster/store.rs:590-649 | finishing a log call keeps memory and disk in step |
| `RaftSafety.CreateKeeps` | ramqp-broker/src/cluster/store.rs:208-219 | starting a build's file keeps all but the recorded file, when it has the same name |
| `RaftSafety.SaveKeeps` | ramqp-broker/src/store.rs:471-498 | recording a snapshot keeps the record naming the state of the log at its position |
| `RaftSafety.PublishKeeps` | ramqp-broker/src/cluster/store.rs:524-534 | deleting the previous blob never deletes the recorded one |
| `RaftSafety.RecoverySucceedsIff` | ramqp-broker/src/cluster/store.rs:314-383 | after a crash at any point recovery succeeds if and only if the recorded snapshot is not torn |
| `RaftSafety.GiveUpKeeps` | ramqp-broker/src/cluster/store.rs:501-523 | a build whose write or record fails leaves the previous snapshot recorded, and as whole as it was |
| `RaftSafety.SaveInstalledKeeps` | ramqp-broker/src/cluster/store.rs:752-765 | recording an installed snapshot keeps the record naming a complete blob and the log agreeing past it |
| `RaftSafety.DropPriorKeeps` | ramqp-broker/src/cluster/store.rs:766-770 | the previous blob's deletion after an install spares the recorded one |
| `RaftSafety.EveryRunKeeps` | ramqp-broker/src/cluster/store.rs:438-772 | the invariant over every run of append, vote, truncate, purge, apply, build, failed build and install steps with crashes and recoveries anywhere |
| `RaftSafety.NeverTornIff` | ramqp-broker/src/cluster/store.rs:445-488 | in a run the recorded snapshot is whole throughout if and only if no build starts its file under the recorded file's name |
| `RaftSafety.CaptureDecides` | ramqp-broker/src/cluster/store.rs:445-488 | which is settled when the build takes its name: the applied position and the next counter |
| `RaftSafety.SafeInstallsTearNothing` | ramqp-broker/src/cluster/store.rs:694-772 | while no leader's counter is ahead of the member's, none does |
| `RaftSafety.CrashLosesNothing` | ramqp-broker/src/cluster/store.rs:556-649 | at any point of any run a crash can be recovered from if and only if the recorded snapshot is not torn, and log, vote and purge position come back as memory held them, or as the one call in progress was leaving them |
| `RaftSafety.RecoveryReplaysTheWholeLog` | ramqp-broker/src/cluster/store.rs:314-383 | from any such point, the recovered snapshot and log replay to the state of the whole log and, unless an install was under way, through the very state the machine had |
| `RaftInstalls.NeverLostIff` | ramqp-broker/src/cluster/store.rs:445-488 | a member at rest on a snapshot file can lose everything, by failed builds, a build and a crash, if and only if the snapshot's counter is ahead of the member's and nothing was applied since |
| `RaftInstalls.InstallIsSafeIff` | ramqp-broker/src/cluster/store.rs:694-772 | at any point of any run, an install is safe whatever follows if and only if the leader's counter is not ahead of the member's, which the install does not move |
| `RaftInstalls.FreshMemberLoses` | ramqp-broker/src/cluster/store.rs:694-772 | a fresh member installs a leader's first snapshot, starts its own first, crashes, and nothing can be recovered |
| `RaftMember.Member.constructor` | ramqp-broker/src/cluster/store.rs:314-383 | recovery: what is on disk, the counter past the recovered snapshot |
| `RaftMember.Member.Open` | ramqp-broker/src/cluster/store.rs:314-383 | recovery, refused if and only if the recorded snapshot is torn |
| `RaftMember.Member.LogCall` | ramqp-broker/src/cluster/store.rs:556-649 | durable first, then memory; an aborted batch changes nothing; also after any install |
| `RaftMember.Member.UpdateMemory` | ramqp-broker/src/cluster/store.rs:601-649 | the working copies after a call |
| `RaftMember.Member.ApplyEntries` | ramqp-broker/src/cluster/store.rs:660-682 | the state of the log up to there |
| `RaftMember.Member.WriteBlob` | ramqp-broker/src/cluster/store.rs:208-219 | the blob torn until synced, or given up at any point; the member stays recoverable unless the recorded file has its name |
| `RaftMember.Member.PublishBlob` | ramqp-broker/src/cluster/store.rs:507-534 | recorded, and only then the previous blob deleted |
| `RaftMember.Member.BuildSnapshot` | ramqp-broker/src/cluster/store.rs:438-539 | the blob complete and recorded before the previous one goes; if writing or recording fails the previous one stands, whole unless the build took its name; the counter is spent either way |
| `RaftMember.Member.ReceiveBlob` | ramqp-broker/src/cluster/store.rs:699-738 | the leader's state restored and its blob written, or kept to be recorded inline |
| `RaftMember.Member.RecordInstalled` | ramqp-broker/src/cluster/store.rs:752-770 | recorded, and only then the previous blob deleted |
| `RaftMember.Member.InstallSnapshot` | ramqp-broker/src/cluster/store.rs:694-772 | the leader's state and snapshot, recorded whole; if the record is refused the old one still stands on disk |
| `RaftMember.Member.Submit` | ramqp-broker/src/store.rs:433-498 | a batch: the table changed as the operation says, or not at all |
| `RaftMember.InsertAll` | ramqp-broker/src/store.rs:441-447 | consecutive entries inserted |
| `RaftMember.RemoveRange` | ramqp-broker/src/store.rs:453-470 | exactly the entries of a range removed |
| `DurableSafety.WriteBatchKeeps` | ramqp-broker/src/store.rs:397-532 | a batch, committed or aborted, keeps the invariant |
| `DurableSafety.CompletedKeeps` | ramqp-broker/src/durable.rs:253-263 | so does a completion; the pending count cannot underflow |
| `DurableSafety.OfferKeeps` | ramqp-broker/src/durable.rs:358-389 | so does an offer; a ready message always has its body on disk |
| `DurableSafety.EveryRunKeeps` | ramqp-broker/src/durable.rs:56-279 | the invariant over every schedule of mail, batches, aborts, deferred removes, crashes and recoveries |
| `DurableSafety.ReadyIsOnDisk` | ramqp-broker/src/durable.rs:358-368 | every ready or in-flight id is on disk |
| `DurableSafety.CrashRecoversConfirmed` | ramqp-broker/src/store.rs:191-204 | a crash now gives back every confirmed publish whose remove was not submitted, with its body, nothing unpublished, and new ids above all of them |
| `DurableHistory.TableIsCommitted` | ramqp-broker/src/store.rs:433-532 | in every run, with any aborts and crashes, the table is exactly the committed operations applied in order |
| `DurableHistory.RecoveredFailuresAreCommitted` | ramqp-broker/src/durable.rs:75-79 | a recovered message comes from an insert committed and not removed since, and its failure count is the number of failures committed since |
| `DurableHistory.RemovedNeverReturns` | ramqp-broker/src/store.rs:511-513 | once a remove is committed, anything later found under its id is a publish taken afterwards |
| `DurableSafety.ConfirmedByItsCommit` | ramqp-broker/src/durable.rs:253-258 | a publish is confirmed only by its own committed insert |
| `DurableRuns.NothingLeavesWithoutCause` | ramqp-broker/src/durable.rs:102-263 | a remove is submitted or deferred only for the owner's ack or drop, the delivery limit, age, or a newcomer on a full drop-head queue |
| `DurableRuns.ServesUntilQuiet` | ramqp-broker/src/durable.rs:353-400 | dispatch ends with nothing ready or no demand |
| `DurableDepth.RefusedPublishChangesNothingIff` | ramqp-broker/src/durable.rs:111-136 | a refused publish leaves the queue as it was if and only if drop-head had nothing to displace; otherwise everything ready was displaced for nothing |
| `DurableDepth.RefusedPublishDisplaces` | ramqp-broker/src/durable.rs:111-136 | a run in which an oversized publish is refused and the one ready message is gone |
| `DurableDepth.DepthPassesIff` | ramqp-broker/src/durable.rs:102-279 | under every policy a step takes the depth past its bound if and only if it is a reserved publish with no slot held, the bound reached, nothing to displace and no head expired, or a recovery that finds more rows |
| `DurableDepth.DepthBounded` | ramqp-broker/src/durable.rs:102-279 | so in every run the depth stays within the bound while no such step is taken |
| `DurableDepth.ReservedPublishPasses` | ramqp-broker/src/durable.rs:161-172 | a drop-head queue grants a reservation and holds no slot for it: a run that passes the bound |
| `DurableActor.Actor.constructor` | ramqp-broker/src/durable.rs:56-90 | the scan of the table: all of it ready, ids above all of it |
| `DurableActor.Actor.SubmitRemove` | ramqp-broker/src/durable.rs:193-201 | a remove on its way to the writer |
| `DurableActor.Actor.DeadLetterThenRemove` | ramqp-broker/src/durable.rs:290-325 | removed at once, or once the copy's fate is known |
| `DurableActor.Actor.EvictForRoom` | ramqp-broker/src/durable.rs:112-130 | the drop-head loop |
| `DurableActor.Actor.PublishBody` | ramqp-broker/src/durable.rs:104-160 | an insert submitted, or a refusal at a bound |
| `DurableActor.Actor.Accept` | ramqp-broker/src/durable.rs:137-160 | the next id, pending count and bytes |
| `DurableActor.Actor.SettleMessage` | ramqp-broker/src/durable.rs:187-228 | the owner's outcome |
| `DurableActor.Actor.Retain` | ramqp-broker/src/durable.rs:238-247 | splits off what a subscriber holds |
| `DurableActor.Actor.DropSubscriber` | ramqp-broker/src/durable.rs:236-251 | forgets a subscriber, its messages ready again |
| `DurableActor.Actor.HandleArm` | ramqp-broker/src/durable.rs:102-252 | the mailbox arms |
| `DurableActor.Actor.FinishCommit` | ramqp-broker/src/durable.rs:253-263 | ready and confirmed, or refused |
| `DurableActor.Actor.Expire` | ramqp-broker/src/durable.rs:341-352 | expiry from the oldest |
| `DurableActor.Actor.OfferTo` | ramqp-broker/src/durable.rs:358-389 | one offer, and what a dead connection costs |
| `DurableActor.Actor.DispatchReady` | ramqp-broker/src/durable.rs:353-400 | the dispatch loop |
| `DurableActor.Actor.OnMail` | ramqp-broker/src/durable.rs:96-279 | a whole turn on mail |
| `DurableActor.Actor.OnCommit` | ramqp-broker/src/durable.rs:253-279 | a whole turn on a completion |
| `DurableActor.Actor.WriteBurst` | ramqp-broker/src/store.rs:397-532 | the writer's loop over a batch, committed or aborted, with its signals |
| `DurableActor.Scan` | ramqp-broker/src/store.rs:191-204 | what recovery starts from |
| `DurableActor.Totals` | ramqp-broker/src/durable.rs:80-82 | the greatest id and the bytes held |
| `Proxy.EveryRunKeeps` | ramqp-broker/src/proxy.rs:148-198 | the invariant of publishes and bindings over every run with any leader changes and any grants |
| `Proxy.ReboundCredit` | ramqp-broker/src/proxy.rs:203-246 | a rebind re-arms exactly what a subscriber is still owed |
| `Proxy.ForwardedCredit` | ramqp-broker/src/proxy.rs:721-732 | while credit is exact a delivery always finds demand outstanding, so the saturating subtraction never bites |
| `Proxy.DonePubs` | ramqp-broker/src/proxy.rs:676-695 | a finished attempt is answered, or retried once more, never both |
| `Proxy.NextCredit` | ramqp-broker/src/proxy.rs:148-198 | every step keeps a subscriber's credit exact, but a grant to it that does not fit |
| `Proxy.CreditSurvivesFailover` | ramqp-broker/src/proxy.rs:436-465 | across any leader changes, deliveries forwarded to a subscriber plus `outstanding` equal the credit granted, while its own grants fit |
| `Proxy.DemandedKeepsIff` | ramqp-broker/src/proxy.rs:436-465 | a grant keeps the credit exact if and only if it does not saturate what is outstanding |
| `Proxy.GrantsSaturate` | ramqp-broker/src/proxy.rs:436-465 | two grants that saturate it |
| `Proxy.OneAnswerPerPublish` | ramqp-broker/src/proxy.rs:575-695 | each publish is waiting on exactly one attempt or answered, was sent at most three times, and is confirmed only after an accepted attempt |
| `Proxy.AnswersStand` | ramqp-broker/src/proxy.rs:676-695 | an answer never changes |
| `ProxyLink.ProxiedCreditIsConserved` | ramqp-broker/src/connection.rs:1424-1459 | a consumer link on a proxied queue, whatever its flows: every grant fits, `granted` is the grants on their way plus what is outstanding plus the deliveries on their way back, and what was granted is what was forwarded plus what is outstanding |
| `ProxyActor.Actor.Rebind` | ramqp-broker/src/proxy.rs:203-246 | drops every line, binds all or none |
| `ProxyActor.Actor.BindAll` | ramqp-broker/src/proxy.rs:286-340 | the loop over subscribers |
| `ProxyActor.Actor.OnSubscribe` | ramqp-broker/src/proxy.rs:406-435 | binds a new subscriber, or rebinds all |
| `ProxyActor.Actor.OnDemand` | ramqp-broker/src/proxy.rs:436-465 | outstanding up, saturating, and the grant forwarded; exact credit stays exact just when it did not saturate |
| `ProxyActor.Actor.ForwardDelivery` | ramqp-broker/src/proxy.rs:721-761 | outstanding down, the delivery forwarded; or the subscriber dropped |
| `ProxyActor.Actor.TryPublish` | ramqp-broker/src/proxy.rs:575-674 | one attempt, or a refusal while unbound |
| `ProxyActor.Actor.OnPublish` | ramqp-broker/src/proxy.rs:355-360 | the first attempt |
| `ProxyActor.Actor.OnPubDone` | ramqp-broker/src/proxy.rs:676-695 | answer, or rebind if the binding is still current, and try again |
| `ValueRoundTrip.CompactBack` | ramqp-core/src/codec/encode.rs:28-198 | every scalar on its own decodes back, whatever follows |
| `ValueRoundTrip.WideBack` | ramqp-core/src/codec/value.rs:125-230 | every scalar as an array element decodes back |
| `ValueRoundTrip.ListBack` | ramqp-core/src/codec/value.rs:98-104 | lists and maps |
| `ValueRoundTrip.ArrayBack` | ramqp-core/src/codec/value.rs:115-279 | arrays: scalar, compound and described elements under one shared constructor, and the count check passes |
| `ValueRoundTrip.DescribedBack` | ramqp-core/src/codec/value.rs:89-93 | described values |
| `ValueRoundTrip.RoundTrip` | ramqp-core/src/codec/value.rs:49-538 | decoding the encoding of any well-formed value, followed by any bytes, returns the value and exactly those bytes |
| `ValueExact.ScalarTakes` | ramqp-core/src/codec/value.rs:302-400 | no constructor takes fewer bytes for a scalar than its own, and only its own takes as few |
| `ValueExact.RoundTripIff` | ramqp-core/src/codec/value.rs:49-538 | a value comes back from its encoding, whatever follows, if and only if its arrays are of one shape (described elements with one descriptor and one inner constructor) with at most 1024 elements of no width, and it nests within the limit |
| `ValueExact.MixedArrayIsLost` | ramqp-core/src/codec/value.rs:115-279 | an array of a number and a null, which the encoder writes, does not come back |
| `ValueWriter.Buffer.OpenCompound` | ramqp-core/src/codec/encode.rs:390-398 | placeholders for size and count |
| `ValueWriter.Buffer.Patch` | ramqp-core/src/codec/encode.rs:408-410 | four bytes overwritten in place |
| `ValueWriter.Buffer.CloseCompound` | ramqp-core/src/codec/encode.rs:401-411 | the backpatched size and count are exact |
| `ValueWriter.Buffer.EncodeValue` | ramqp-core/src/codec/value.rs:49-96 | appends exactly the wire form |
| `ValueWriter.Buffer.EncodeItems` | ramqp-core/src/codec/value.rs:98-104 | a list or map |
| `ValueWriter.Buffer.EncodeArray` | ramqp-core/src/codec/value.rs:115-236 | an array |
| `ValueWriter.Buffer.EmitScalars` | ramqp-core/src/codec/value.rs:106-113 | bare scalars |
| `ValueWriter.Buffer.EmitCompounds` | ramqp-core/src/codec/value.rs:238-254 | elements without their constructor |
| `ValueWriter.Buffer.EmitDescribed` | ramqp-core/src/codec/value.rs:256-279 | one descriptor and inner constructor for all |
| `ValueReader.Cursor.ReadBlock` | ramqp-core/src/codec/decode.rs:103-106 | that many bytes or the end of input |
| `ValueReader.Cursor.ReadInt` | ramqp-core/src/codec/decode.rs:83-101 | a big-endian integer or the end of input |
| `ValueReader.Cursor.ReadValue` | ramqp-core/src/codec/value.rs:309-312 | one value at a depth |
| `ValueReader.Cursor.ReadBody` | ramqp-core/src/codec/value.rs:327-443 | the value after its constructor, within the nesting limit |
| `ValueReader.Cursor.TakeFrame` | ramqp-core/src/codec/decode.rs:365-422 | a compound's count and content |
| `ValueReader.Cursor.ReadContent` | ramqp-core/src/codec/value.rs:395-425 | list, map or array content |
| `ValueReader.Cursor.ReadN` | ramqp-core/src/codec/value.rs:451-457 | the loop over values |
| `ValueReader.Cursor.ReadBodies` | ramqp-core/src/codec/value.rs:507-511 | the loop over bare elements |
| `ValueReader.Cursor.ReadArray` | ramqp-core/src/codec/value.rs:479-513 | shared constructor, count check, elements |
| `Composite.KeepCountCuts` | ramqp-core/src/codec/encode.rs:312-327 | only bare nulls are left out, and all the trailing ones |
| `Elision.FieldAlike` | ramqp-core/src/codec/described.rs:179-252 | a field reads the same whatever follows it |
| `Elision.ElisionPreservesReads` | ramqp-core/src/codec/encode.rs:312-335 | for every schema the elided list reads exactly as the full one, value for value or error for error |
| `Elision.CutBackIff` | ramqp-core/src/codec/described.rs:179-252 | from any field on, the list cut where only nulls follow reads as the fields if and only if they all survive |
| `Elision.CompositeRoundTripsIff` | ramqp-core/src/codec/described.rs:272-338 | a composite comes back, with exactly what followed it, if and only if each present field is not a bare null (unless it defaults to null), has regular arrays and maps, and nests within the decoder's limit |
| `Elision.PresentNullIsLost` | ramqp-core/src/codec/described.rs:190-202 | a present null comes back as an absent field, for every descriptor and whatever follows |
| `Elision.PresentMixedArrayIsLost` | ramqp-core/src/codec/described.rs:190-202 | a present array of a number and a null does not come back, for every descriptor and whatever follows |
| `CompositeWriter.PutSymbols` | ramqp-core/src/codec/encode.rs:369-386 | a symbol array |
| `CompositeWriter.PutFields` | ramqp-core/src/codec/encode.rs:258-286 | the fields, and where each starts |
| `CompositeWriter.CountKept` | ramqp-core/src/codec/encode.rs:312-327 | the elision loop, looking only at the buffer and the starts |
| `CompositeWriter.EncodeDescribedList` | ramqp-core/src/codec/encode.rs:291-340 | the elided list, with exact size and count |
| `CompositeWriter.DecodeSymbolArray` | ramqp-core/src/codec/described.rs:343-365 | the loop over symbols |
| `CompositeWriter.ListDecoder.OptField` | ramqp-core/src/codec/described.rs:190-202 | an optional or defaulted field |
| `CompositeWriter.ListDecoder.ReqField` | ramqp-core/src/codec/described.rs:204-213 | a mandatory field |
| `CompositeWriter.ListDecoder.SymbolsField` | ramqp-core/src/codec/described.rs:216-252 | a `multiple` field, mandatory or not |
| `CompositeWriter.ListDecoder.MultipleField` | ramqp-core/src/codec/described.rs:222-251 | an array of symbols, or one |
| `SerdeInverse.DeOfSer` | ramqp-broker/src/serde_bin.rs:151-606 | what is written reads back, and what follows is left |
| `SerdeInverse.SerOfDe` | ramqp-broker/src/serde_bin.rs:388-606 | what is read has its type, and writing it gives the very bytes read |
| `SerdeInverse.FromSliceOfToVec` | ramqp-broker/src/serde_bin.rs:35-52 | for every schema, `from_slice` inverts `to_vec` |
| `SerdeInverse.ToVecOfFromSlice` | ramqp-broker/src/serde_bin.rs:44-52 | and `to_vec` inverts `from_slice`: no other bytes read as that value, trailing bytes are refused |
| `SerdeRun.Serializer.Serialize` | ramqp-broker/src/serde_bin.rs:151-342 | extends the output by exactly the encoding |
| `SerdeRun.Deserializer.Deserialize` | ramqp-broker/src/serde_bin.rs:388-530 | advances past exactly the value, or the error |
| `SerdeRun.Deserializer.DeserializeAll` | ramqp-broker/src/serde_bin.rs:539-549 | the remaining count, counted down |
| `SerdeRun.Encode` | ramqp-broker/src/serde_bin.rs:35-39 | `to_vec` |
| `SerdeRun.Decode` | ramqp-broker/src/serde_bin.rs:44-52 | `from_slice` |
| `Fabric.WholeFrame` | ramqp-broker/src/cluster/fabric.rs:268-286 | a buffered frame is parsed and the rest kept |
| `Fabric.PartialFrame` | ramqp-broker/src/cluster/fabric.rs:268-289 | part of a frame is never taken for a frame nor for an error |
| `Fabric.FramesSurviveChunking` | ramqp-broker/src/cluster/fabric.rs:247-291 | however the bytes of concatenated frames are cut, up to the read of none that ends the stream, exactly the frames sent are read, in order |
| `Fabric.EncodeFrame` | ramqp-broker/src/cluster/fabric.rs:247-260 | appends the frame exactly when its sizes fit |
| `Fabric.Connection.Receive` | ramqp-broker/src/cluster/fabric.rs:264-291 | parses what is buffered, or waits for more |

## Left out

- Elections, replication and timing of Raft: the log is an ordered commit log whose proposals commit or fail.
- Sockets, TLS, SASL, heartbeats, the daemon, management and configuration: I/O or library wrappers.
- The database and the file system: an atomic batch store, and files that are torn until synced. Opens, reads and
  spill appends succeed, so the fallback that keeps a body resident when an append fails is not modelled.
- `QueueRegistry`, name resolution, the channel allocator, the catalog and policy resolution: easy, or not a
  theorem of the code.
- Drains across the two actors: the queue's side of a drain is modelled and proved, the connection's side is not,
  because it resets `granted` while deliveries may be on their way.
- Commits that span remote queues, and queue actors dying in mid-commit: outcomes depend on lost replies.
- The coordinator link and the connection's other link events, besides credit, detach, attach and session end.
- A proxied subscriber's settles, reservations and statistics: forwarded as they are.
- Dead-letter routing: a dead-lettered message is one that leaves; where its copy goes is not modelled.
- QueueRestart.Restore: restores into an empty state over reopened files, the restart path; installing a snapshot
  over a state that holds messages is not modelled, because references restored there are not counted.
- QueueRestart.Recover: takes for granted, as the source does, that a snapshot lists each id once and that its ids
  were issued.
- QueueGroup.QueueState.Apply: bodies are at most a u32 long, the width of a spill reference's length.
- RaftSafety.EveryRunKeeps: snapshot bodies are inline, appends extend the log, applied entries are never
  truncated, purges stay behind the snapshot and an install brings the member forward along a log that agrees with
  what is applied, as Raft asks of its storage; one log call and one build at a time, and an install by itself.
- Proxy.CreditSurvivesFailover: for runs without drains.
- Quorum.Leader: a term of one leader; a new leader starts again from applied state.
- ValueExact.RoundTripIff: sizes and counts fit a u32; the truncating casts of larger ones are not modelled.
- ValueRoundTrip.RoundTrip: floats are bit patterns, strings and symbols their UTF-8 bytes, and a map is the list
  of its keys and values.
- Elision.CompositeRoundTripsIff: a field's type is an AMQP type or any value; types that narrow one further (settle
  modes, maps with typed keys, nested composites) are not modelled.
- SerdeInverse.ToVecOfFromSlice: maps are sequences of pairs, so a map type that drops duplicate keys is not seen;
  schemas are finite trees.
- Fabric.FramesSurviveChunking: the header's schema is any schema; the stream ends after the last frame.
