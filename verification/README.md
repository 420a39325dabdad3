# A verified model of the zmqcat message bus

zmqcat is a small message bus: named mailboxes that hold jobs until a worker takes them, leases that
give a job back when its worker dies, prefix topics with a last-value cache, a state file that survives
a crash, a hub that serves all of this to sessions over length-prefixed frames, and a client that
retries requests. This project models that logic in Dafny and proves what it keeps.

Check everything with `dafny verify dfyconfig.toml`.

## How the model is built

The bus is modelled twice. `MailboxSpec` and `TopicSpec` describe every critical section of
`internal/mailbox/mailbox.go` as a function from one bus to the next. `Mailbox.Bus` is the object the
source declares: a class whose methods update queues, waiters, leases, index, cache and subscribers in
place, loops and rollbacks included. Each method is proved to compute the function of the same name, so
what is proved about runs of the functions holds for runs of the methods. What each of these functions
answers and changes, and when, is stated a second time without them, on queues, waiters, channels,
leases and the file, in `MailboxOutcomes` and `TopicOutcomes`. `HubSpec` and `Hub` do the same
for `internal/hub/hub.go`, where the methods that span several critical sections describe what one
goroutine does when no other runs in between; `HubSequences` derives the same from the state machine.

What the environment decides is a parameter of each operation: the clock, a generated id, the order of
a map iteration, the entry a full cache evicts, and whether a snapshot reaches the disk. A run is any
sequence of operations with any such choices, so every theorem about runs is about every interleaving.
`Take` is three steps: `TakeChan` under the lock, then either `Receive` or `CancelWaiter`. Between them
a message sits in a one-slot channel, and after `Receive` in the hand of a taker, until `Hold` or
`Requeue`. A Go-level failure (a send that blocks or panics, a second close) is recorded in the field
`fault`, and is proved never to happen.

| module | what it is about |
| --- | --- |
| `Bags` | sums of multisets over maps, with which messages are counted |
| `MailboxSpec`, `MailboxInvariant`, `MailboxSteps`, `MailboxRuns` | the bus, its invariant, what each operation moves, runs and conservation |
| `MailboxOutcomes`, `TopicOutcomes` | what every operation answers and changes, read off the fields alone |
| `MailboxRecovery`, `MailboxCrashes`, `MailboxIndex` | the state file, through one crash and through many; the deduplication index |
| `MailboxLeases`, `MailboxDeliveries` | expiry and release; the life of one delivery id |
| `MailboxWaiters`, `MailboxFifo` | channels and waiters; order of delivery |
| `TopicSpec`, `TopicRuns` | publish and subscribe |
| `Mailbox` | the bus as an object |
| `HubSpec`, `HubRuns`, `HubJobs`, `HubLists`, `HubSessions`, `HubLate`, `HubRouting`, `HubReps`, `Hub`, `Heartbeat` | sessions, jobs, leases and replies |
| `HubTrace` | a run of the hub is a run of the bus, and what follows for the hub |
| `HubSequences` | the steps of one goroutine alone come to what the hub's methods compute |
| `HubScenarios` | how the hub gets into the states in which it falls short |
| `Wire`, `WireStreams` | framing |
| `ClientSpec`, `Client`, `Decimal` | the client's reading, desynchronization and retries; ids |
| `Args` | the command line normaliser |

## What the proofs found

Some properties one might expect fail; each has a lemma that shows how, and the exact condition under
which the code does meet the property.

- `cancelWaiter` can leave a message queued while another taker waits (`CancelCanStrand`). It strands
  work exactly when it puts a message back beside other waiters (`CancelStrandsIff`); no other
  operation ever does (`NoStrandedWork`).
- The index is exact if and only if no held message has the same key under another name or id
  (`IndexCountsCopies`). A NUL in a name makes two messages collide, and the second is dropped as a
  retry of the first (`NulMakesKeysCollide`).
- An acknowledgement whose write fails comes back after a crash (`AckDurableIff`). A message brought back
  to the queue by a requeue or a cancellation whose write fails is lost by one (`RequeueDurableIff`,
  `CancelDurableIff`). With those writes successful, and any others failing, a crash loses nothing and
  invents nothing (`CrashLosesNothing`, `CrashInventsNothing`).
- The hub closes the bus, which empties the queues, before its sessions, whose closes then nack: one
  written nack of a lease loses every queued message from the state file; without one nothing is lost
  (`ShutdownDurableIff`). A written acknowledgement or cancellation after the close does the same
  (`AckAfterCloseDurableIff`, `CancelAfterCloseDurableIff`).
- A worker's rep is lost when the OK to the worker cannot be written: the slot is consumed and nothing is
  forwarded (`RepWithoutOkIsLost`, and `LostRepArises` for how it comes about). A rep is forwarded
  exactly when a slot is open and the OK was written (`RepliesReachTheAsker`).
- A rep acknowledges only a delivery of the message it answers (`RepAcksWhatItAnswers`). But a client that
  asks two mailboxes under one id makes two jobs under one message id, and a worker that is ready on both
  loses track of the first: no rep ever acknowledges it (`LatestDeliveryOnly`, `ReplacedDeliveryArises`).
- When the last argument is a value flag without its value, `parseArgs` gives the flag the terminator
  `--` as its value, and the error is lost (`MissingValueSwallowsTerminator`). In every other case,
  and only then, the rewritten list means what the original meant (`NormalForm`, `ParsesAsIntended`).
- After a failed reply the session is closed, so the claim that follows always fails: it is the close,
  never the job itself, that gives the lease back (`JobsNeverGiveBack`). A session that closed before its
  job was listed gives it back neither: that lease lasts until a client settles it by name or it
  expires (`LateLeaseStays`, and `LateArises` for how it comes about).
- A silent session is closed within its bounds, and after n - 1 pings, exactly when its ticker was started
  early enough (`SilentSessionCloses`); the hub starts it right after noting the time of the connection
  (`internal/hub/hub.go:102`, `internal/hub/hub.go:243`), which is early enough.

## Model

| member | source | states |
|---|---|---|
| `MailboxRuns.Conservation` | internal/mailbox/mailbox.go:236-426 | On an open bus, after any run, with any failed writes: the messages `Put` newly accepted are, as a multiset, exactly those queued, leased, in a waiter's channel, in a taker's hand, and acknowledged. |
| `MailboxRuns.StepKeeps` | internal/mailbox/mailbox.go:236-401 | Every single operation, from any state that satisfies the invariant, keeps it: index exact, channels sound, leases filed under their own ids, and the balance of messages. |
| `MailboxRuns.OpenIsFresh` | internal/mailbox/mailbox.go:87-105 | A new bus holds nothing and can start a run. |
| `MailboxSteps.AppendKeeps` | internal/mailbox/mailbox.go:272-279 | A `Put` that queues: on a failed snapshot the rollback leaves the bus, index included, exactly as it was. |
| `MailboxSteps.TakeHeadKeeps` | internal/mailbox/mailbox.go:503-511 | A take that pops: on a failed snapshot the rollback leaves the bus, index included, exactly as it was; otherwise exactly the head leaves. |
| `MailboxSteps.DropLeaseUndoes` | internal/mailbox/mailbox.go:340-346 | The rollback of a `Hold` whose snapshot failed undoes the lease and its index entry exactly. |
| `MailboxSteps.RefusedReserveUndoes` | internal/mailbox/mailbox.go:306-323 | A reservation whose lease cannot be written leaves queues, index and leases exactly as they were if and only if nobody waits on that mailbox (a waiter gets the message otherwise). |
| `MailboxOutcomes.PutSays` | internal/mailbox/mailbox.go:236-280 | When `Put` answers what: a bad name, a body over the limit, a closed bus, a known key (nothing changes), a waiter (the oldest gets the message), a queue at its limit, a failed write (nothing changes); otherwise the queue is the old one followed by one message with the given sender and body, this name, and the given id and time or the generated ones; other mailboxes and leases never change. |
| `MailboxOutcomes.TakeSays` | internal/mailbox/mailbox.go:601-626 | The locked part of `Take`: errors in order, then a sweep, then the head of the queue in a new closed channel, or the error of a failed write with the queue as it was, or a new open channel at the end of the waiters. |
| `MailboxOutcomes.TryTakeSays` | internal/mailbox/mailbox.go:489-512 | `TryTake`: errors in order, then a sweep, then exactly the head of the queue, or empty, or the error of a failed write with the queue as it was. |
| `MailboxOutcomes.HoldSays` | internal/mailbox/mailbox.go:327-348 | `Hold`: a lease that ends exactly the given time from now, one minute if that is not positive; a failed write changes nothing; queues and channels never change. |
| `MailboxOutcomes.AckSays` | internal/mailbox/mailbox.go:350-360 | `Ack`: not-found exactly without the lease; otherwise exactly that lease goes, and the answer is that of the write. |
| `MailboxOutcomes.NackSays` | internal/mailbox/mailbox.go:362-373 | `Nack`: the same, and the message goes to the oldest waiter of its mailbox or the front of its queue. |
| `MailboxOutcomes.RequeueSays` | internal/mailbox/mailbox.go:377-388 | `Requeue`: a message with a mailbox, on an open bus, goes to the oldest waiter or the front; leases never change. |
| `MailboxOutcomes.CancelSays` | internal/mailbox/mailbox.go:628-652 | A cancelled taker no longer waits, the order of the others stays, and a message it had got is in front of the queue. |
| `MailboxOutcomes.ExpireSays` | internal/mailbox/mailbox.go:404-413 | A sweep of an open bus hands out what `ExpiryIsRight` says, and writes a snapshot exactly when something had expired. |
| `MailboxOutcomes.CloseSays` | internal/mailbox/mailbox.go:207-231 | `Close` empties every mailbox, closes every channel with what it carries, and keeps leases, index and file. |
| `MailboxOutcomes.OpenSays` | internal/mailbox/mailbox.go:87-105 | A new bus is empty and open, with the given limits, or 1024 messages and one mebibyte. |
| `MailboxOutcomes.ReopenSays` | internal/mailbox/mailbox.go:108-138 | A reopened bus has exactly the stored mailboxes, each with its queue in the stored order and nobody waiting, and exactly the stored leases. |
| `MailboxOutcomes.ReopenKeepsOrder` | internal/mailbox/mailbox.go:108-187 | Reopening what a write saved brings back every queue in its order and every lease with its message and expiry. |
| `MailboxRecovery.CrashLosesNothing` | internal/mailbox/mailbox.go:140-187 | At every crash point of an open durable bus, where each message that a requeue or cancellation brought back to the queue was written, reopening restores every accepted message that is neither acknowledged nor in transit; all other writes, those of sweeps included, may fail. |
| `MailboxRecovery.CrashInventsNothing` | internal/mailbox/mailbox.go:140-187 | At every crash point of an open durable bus, where each acknowledgement that ended a lease was written, reopening restores no more than was accepted and not acknowledged; all other writes may fail. |
| `MailboxCrashes.CrashesLoseNothing` | internal/mailbox/mailbox.go:108-187 | Over any number of crashes and reopenings of one state file, with any limits, where each message brought back to the queue by a requeue or cancellation was written: what the file held at first and all that was accepted since is in the last file, or was acknowledged, or was in transit at a crash. |
| `MailboxCrashes.CrashesInventNothing` | internal/mailbox/mailbox.go:108-187 | Over any number of crashes and reopenings where each acknowledgement that ended a lease was written: the last file and all that was ever acknowledged are no more than what the file held at first and all that was accepted since. |
| `MailboxRecovery.ReopenRestores` | internal/mailbox/mailbox.go:108-138 | A reopened bus satisfies the whole invariant, holds exactly what the file holds, and can start a new run. |
| `MailboxRecovery.RebuiltIndexIsMaintained` | internal/mailbox/mailbox.go:127-136 | The index rebuilt on reopening equals the one that would have been maintained for the recovered contents, because an exact index is unique. |
| `MailboxRecovery.AckDurableIff` | internal/mailbox/mailbox.go:350-360 | With a current file, an `Ack` leaves a current file if and only if its write succeeds; when it fails, a crash brings exactly that message back. |
| `MailboxRecovery.RequeueDurableIff` | internal/mailbox/mailbox.go:377-388 | With a current file, nothing the bus holds after a `Requeue` is lost by a crash if and only if the write succeeds or the message did not go back to the queue. |
| `MailboxRecovery.CancelDurableIff` | internal/mailbox/mailbox.go:628-652 | With a current file, nothing the bus holds after a cancellation is lost by a crash if and only if the write succeeds or no message had arrived. |
| `MailboxRecovery.AckAfterCloseDurableIff` | internal/mailbox/mailbox.go:206-231 | An `Ack` after `Close`, from a current file: the rest of what the bus held survives if and only if nothing was queued at the close or the write fails; a written one leaves exactly the remaining leases. |
| `MailboxRecovery.CancelAfterCloseDurableIff` | internal/mailbox/mailbox.go:628-652 | A cancellation after `Close`, from a current file: what the bus held survives if and only if the write fails, no message had arrived, or nothing else was queued. |
| `MailboxLeases.ReleaseAllTakesBack` | internal/mailbox/mailbox.go:362-401 | Releasing any list of ids, those no longer leased counting for nothing, mailbox by mailbox: the oldest waiters get one message each in order, the rest is in front of the old queue, last released first, and exactly those leases are gone. |
| `MailboxLeases.ExpiryIsRight` | internal/mailbox/mailbox.go:415-426 | For every iteration order, a sweep leaves exactly the unexpired leases, gives the expired messages of each mailbox to its oldest waiters, and puts the rest in front of its old queue. |
| `MailboxLeases.ExpiryOrderIrrelevant` | internal/mailbox/mailbox.go:415-426 | The messages each mailbox takes back in a sweep are the same multiset for every iteration order. |
| `MailboxDeliveries.StepLeases` | internal/mailbox/mailbox.go:325-426 | Per operation: a lease appears only by `Hold` under a fresh id, keeps its contents, and disappears if and only if the operation is its `Ack`, its `Nack`, or a sweep of an open bus that finds it expired. |
| `MailboxDeliveries.LeavesOnce` | internal/mailbox/mailbox.go:350-426 | In every run each delivery id leaves the leased set at most once, and exactly once if it was leased and no longer is. |
| `MailboxDeliveries.GoneForGood` | internal/mailbox/mailbox.go:350-366 | An id that has left is never leased again; a later `Ack` or `Nack` of it returns not-found and leaves the bus unchanged. |
| `MailboxIndex.IndexCountsCopies` | internal/mailbox/mailbox.go:428-457 | In every reachable state of an open bus the index holds exactly the number of queued plus leased copies of a (name, id), with no entry for none, if and only if no queued or leased message has the same key under another name or id; with NUL-free names none ever has. |
| `MailboxIndex.DedupKeyInjective` | internal/mailbox/mailbox.go:428-428 | Index keys of NUL-free names determine name and id. |
| `MailboxIndex.NulMakesKeysCollide` | internal/mailbox/mailbox.go:428-457 | A counterexample: with a NUL in a name a different message counts as known, so `Put` succeeds without keeping it. |
| `MailboxIndex.RetryIsNoOp` | internal/mailbox/mailbox.go:256-261 | A retry while a copy is queued or leased succeeds and changes nothing (but for creating an empty box). |
| `MailboxIndex.PutCopies` | internal/mailbox/mailbox.go:256-279 | A newly accepted `Put` makes exactly one copy more than are in transit. |
| `MailboxIndex.AtMostOneCopy` | internal/mailbox/mailbox.go:256-279 | Where every take-and-hold of an id finishes before the next `Put` under it, there is at most one copy at any time, through nacks, expiries, requeues and closes of the worker. |
| `MailboxWaiters.ChannelSafety` | internal/mailbox/mailbox.go:262-268 | In every reachable state: no send blocked or panicked and no channel was closed twice; a listed channel is open, empty, and listed once across all boxes; an open channel is listed. |
| `MailboxWaiters.ReceivesOnce` | internal/mailbox/mailbox.go:468-486 | A taker that has received or cancelled never receives again: its channel does not come back in any later run. |
| `MailboxWaiters.SentStays` | internal/mailbox/mailbox.go:390-398 | A channel that was sent its message keeps that message, and gets no other, until its taker is done. |
| `MailboxWaiters.NoStrandedWork` | internal/mailbox/mailbox.go:262-279 | A mailbox with a parked waiter has an empty queue, in every run whose cancellations never put a message back beside other waiters; nacks, sweeps, requeues and rollbacks keep it. |
| `MailboxWaiters.CancelStrandsIff` | internal/mailbox/mailbox.go:628-652 | `cancelWaiter` strands work if and only if it puts a message back while other takers wait on that mailbox. |
| `MailboxWaiters.CancelCanStrand` | internal/mailbox/mailbox.go:641-649 | A counterexample family: with two takers waiting, a `Put` that reaches the first just as it cancels stays queued while the second keeps waiting. |
| `MailboxFifo.FifoRendezvous` | internal/mailbox/mailbox.go:256-279 | In every run from a new or reopened bus in which nothing is given back to a mailbox (no cancellation, nack, requeue or expiry of its messages; leases, acknowledgements and other mailboxes are free): with P messages held at first or accepted and T takes, waiting or not, its queue is the messages from T on, its waiters are the takes from P on, and the k-th take gets the k-th message. |
| `Mailbox.Bus.constructor` | internal/mailbox/mailbox.go:87-105 | A new bus, with the default limits for limits that are not positive, satisfies the invariants of jobs and of topics. |
| `Mailbox.Bus.OpenPersistent` | internal/mailbox/mailbox.go:108-138 | A missing file opens an empty durable bus, an unreadable one fails, and any other yields exactly the stored mailboxes, each queue in the stored order and nobody waiting, the stored leases and a recounted index, satisfying the invariant when the contents are well-formed. |
| `Mailbox.Bus.LoadBoxes` | internal/mailbox/mailbox.go:127-132 | The nested loops over the stored queues make exactly the stored mailboxes, each queue in the stored order, and count every message into the index exactly. |
| `Mailbox.Bus.LoadLeases` | internal/mailbox/mailbox.go:133-136 | The loop over the stored leases adds them and counts their messages into the index exactly. |
| `Mailbox.Bus.PersistLocked` | internal/mailbox/mailbox.go:140-187 | The loop collects exactly the non-empty queues; the file becomes that snapshot with the leases, or is left alone and failure reported. |
| `Mailbox.Bus.Put` | internal/mailbox/mailbox.go:236-280 | The in-place `Put`, errors and rollback included, takes the bus to `MailboxSpec.Put` of its old state, whose outcomes `MailboxOutcomes.PutSays` spells out, and keeps the invariant. |
| `Mailbox.Bus.TakeChan` | internal/mailbox/mailbox.go:601-626 | The locked part of `Take`: sweep, pop with rollback or park; equals `MailboxSpec.TakeChan` for the order it visited the leases in, and keeps the invariant. |
| `Mailbox.Bus.Receive` | internal/mailbox/mailbox.go:476-481 | The taker gets what its channel carries, or the closed error, and its channel is done. |
| `Mailbox.Bus.CancelWaiter` | internal/mailbox/mailbox.go:628-652 | The filter loop removes exactly the cancelled waiter, and a message that had arrived goes to the front of the queue and the index. |
| `Mailbox.Bus.TryTake` | internal/mailbox/mailbox.go:489-512 | The non-waiting take, sweep and rollback included, equals its specification and keeps the invariant. |
| `Mailbox.Bus.Hold` | internal/mailbox/mailbox.go:327-348 | The lease, its index entry and the rollback of a failed write equal the specification and keep the invariant. |
| `Mailbox.Bus.Ack` | internal/mailbox/mailbox.go:350-360 | Removes exactly the lease and its index entry, or reports not-found and changes nothing. |
| `Mailbox.Bus.Nack` | internal/mailbox/mailbox.go:362-373 | Removes the lease and delivers its message to the oldest waiter or the front of the queue. |
| `Mailbox.Bus.Requeue` | internal/mailbox/mailbox.go:377-388 | Delivers the message to the oldest waiter or the front of the queue, unless the name is empty or the bus closed. |
| `Mailbox.Bus.DeliverLocked` | internal/mailbox/mailbox.go:390-401 | Oldest waiter first, else front of the queue and index; the channel it sends on is open and empty. |
| `Mailbox.Bus.RequeueExpiredLocked` | internal/mailbox/mailbox.go:415-426 | The loop that deletes from the map it ranges over visits every lease once, terminates, releases exactly the expired ones, and reports whether there were any. |
| `Mailbox.Bus.TryReserve` | internal/mailbox/mailbox.go:306-323 | Takes and leases in one go, fails as the take failed, or fails as the lease failed after putting the message back. |
| `Mailbox.Bus.ExpireLeases` | internal/mailbox/mailbox.go:404-413 | The sweeper's step: writes a snapshot exactly when something expired, and does nothing on a closed bus. |
| `Mailbox.Bus.Close` | internal/mailbox/mailbox.go:207-231 | The nested loops close every waiting taker's and subscriber's channel exactly once and empty every queue; a second close does nothing. |
| `Mailbox.Bus.IndexAddLocked` | internal/mailbox/mailbox.go:432-437 | Counts one copy more for an indexable message. |
| `Mailbox.Bus.IndexDelLocked` | internal/mailbox/mailbox.go:439-449 | Counts one copy less and removes the entry at zero. |
| `MailboxInvariant.IndexAddExact` | internal/mailbox/mailbox.go:432-437 | If the index counts a multiset of messages exactly, adding one message makes it count that multiset and the message exactly. |
| `MailboxInvariant.IndexDelExact` | internal/mailbox/mailbox.go:439-449 | If the index counts a multiset of messages exactly, deleting one of them makes it count the rest exactly, without zero entries. |
| `Mailbox.Bus.Pub` | internal/mailbox/mailbox.go:515-551 | Updates the bounded cache and offers the message to each matching subscriber in turn, with the outcomes that `TopicOutcomes.PubSays` spells out; every channel it sends on is open. |
| `Mailbox.Bus.Sub` | internal/mailbox/mailbox.go:557-581 | Registers the subscriber and replays the matching cached values, each cached topic once, up to the room of the channel. |
| `Mailbox.Bus.Unsub` | internal/mailbox/mailbox.go:654-666 | The filter loop removes exactly that subscriber and closes its channel once, or does nothing if it is gone. |
| `TopicOutcomes.PubSays` | internal/mailbox/mailbox.go:515-551 | When `Pub` answers what; an accepted publication has the given id, sender and body, the topic as its name, and the given time or now; it is cached under its topic, last in the channel of each matching subscriber with room, and nowhere else; at most one other cache entry goes, and only for a new topic in a full cache. |
| `TopicOutcomes.ReplaySays` | internal/mailbox/mailbox.go:568-575 | A replay offers every cached message on a matching topic once, in the order of the iteration, and nothing else. |
| `TopicOutcomes.SubSays` | internal/mailbox/mailbox.go:557-581 | A new subscriber's channel holds the first 64 of the matching cached messages; nobody else is touched; a closed bus refuses. |
| `TopicOutcomes.UnsubSays` | internal/mailbox/mailbox.go:654-666 | Exactly that subscription goes, and exactly its channel is closed, with what it holds. |
| `TopicOutcomes.CloseSays` | internal/mailbox/mailbox.go:219-224 | Closing ends every subscription and closes exactly the subscribed channels, with what they hold. |
| `TopicRuns.SubscriberSees` | internal/mailbox/mailbox.go:515-581 | In every reachable state, received plus buffered messages are a subsequence of the replayed cache followed by the later matching publications in order, short of exactly the drops; at most 64 are buffered; no send or close failed. |
| `TopicRuns.OfferAllEach` | internal/mailbox/mailbox.go:541-549 | A publication changes each matching subscriber's channel according to that channel's own room, and no other channel. |
| `TopicRuns.CacheIsLatest` | internal/mailbox/mailbox.go:532-540 | The cache never exceeds its bound, and each entry is the latest publication on its topic, whatever was evicted. |
| `TopicSpec.MatchTopic` | internal/mailbox/mailbox.go:677-689 | A topic matches exactly when the subscribed prefix is a prefix of it. |
| `HubSpec.ScopedIdInjective` | internal/hub/hub.go:472-477 | Scoped ids of non-empty client ids determine the session number and the client id. |
| `HubRuns.EveryLeaseHasAnOwner` | internal/hub/hub.go:131-189 | In every interleaving, every lease made since the hub started is listed by a session, about to be given back by a closing one, or in the hands of a job about to list or settle it. |
| `HubRuns.HubStepKeeps` | internal/hub/hub.go:131-189 | Every hub step keeps the invariant that ties sessions and jobs to the ids the bus has issued. |
| `HubJobs.EveryMessageHasAKeeper` | internal/hub/hub.go:431-466 | End to end on an open bus: every accepted message is queued, leased, in the channel of exactly one waiting job, in the hand of exactly one job, or acknowledged. |
| `HubJobs.JobsNeverStuck` | internal/hub/hub.go:431-466 | In every reachable state a waiting job's channel is there, a job with a message can hold it under any new id, and a refused job can put it back. |
| `HubTrace.RunsTheBus` | internal/hub/hub.go:334-466 | Every run of the hub is, at the bus, a run of bus operations that ends in the same state. |
| `HubTrace.DeliveryEndsOnce` | internal/hub/hub.go:334-345 | Under any interleaving of acks, nacks, reps, closes and sweeps of any sessions, each delivery id leaves the leased set at most once; a later ack or nack frame for it changes nothing in the hub. |
| `HubTrace.WaitersAreJobs` | internal/hub/hub.go:431-432 | In every reachable state of the hub: no send blocked or panicked, no channel was closed twice, and a listed channel is open, empty, listed once, and waited on by exactly one job. |
| `HubTrace.JobsNeverBesideWork` | internal/hub/hub.go:431-432 | No job waits on a mailbox that has queued messages, in every run of the hub whose cancelled jobs put no message back beside other waiting jobs. |
| `HubTrace.JobsServedInOrder` | internal/hub/hub.go:431-432 | In every run of the hub that gives nothing back to a mailbox: the job of the k-th take on it can receive, and gets, the k-th message; the takes without a message yet are those that wait, in order. |
| `HubTrace.OneJobPerRequest` | internal/hub/hub.go:356-361 | Where no req finds a copy of its message with a job that has yet to lease it, at most one copy is queued or leased, through closes, nacks, expiries and requeues of any sessions. |
| `HubTrace.HubCrashLosesNothing` | internal/hub/hub.go:431-466 | At every crash point of a hub that writes what its jobs put back: reopening restores every accepted message that is not acknowledged, in the hand of a job, or in the channel of a waiting one. |
| `HubTrace.HubCrashInventsNothing` | internal/hub/hub.go:431-466 | At every crash point of a hub whose acknowledgements are written: reopening restores no more than was accepted and not acknowledged. |
| `HubSequences.TakeJobRuns` | internal/hub/hub.go:431-466 | The steps of a take or ready that leases its job, run alone, come to what `Hub.Hub.TakeJob` is proved to compute: written and acknowledged, written and kept, orphaned by an earlier close, or not written, when the close gives back all the session held. |
| `HubSequences.ReserveJobRuns` | internal/hub/hub.go:495-510 | The same for a reserve. |
| `HubSequences.RefusedJob` | internal/hub/hub.go:437-442 | A job whose lease cannot be made, run alone, puts its message back and is done. |
| `HubSequences.RepRuns` | internal/hub/hub.go:370-393 | A rep, run alone, acknowledges what was filed under its id if its session is open, takes its slot and goes to the session that asked. |
| `HubSequences.SettleRuns` | internal/hub/hub.go:334-345 | An ack or nack frame, run alone, settles the lease and drops it from the session's list when that was written. |
| `HubSequences.ReqRuns` | internal/hub/hub.go:346-369 | A req, run alone, puts its job and leaves its slot open exactly if the job was taken. |
| `HubSessions.CloseReleasesEverything` | internal/hub/hub.go:131-151 | Under any interleaving, every delivery a session listed when `close` copied its list is no longer leased when `close` is through that list. |
| `HubSessions.CloseRestoresQueues` | internal/hub/hub.go:147-149 | The nacks of a close, in order and with any write outcomes: a mailbox on which nobody waits ends with the listed deliveries that are still leased, last listed first, in front of the old queue, and exactly the listed leases are gone. |
| `HubSessions.CloseGivesBackInOrder` | internal/hub/hub.go:131-151 | The same as a run of the hub, from every reachable state: a session that closes with nothing in between gives back exactly its leased deliveries in that order, and has nothing left to give back. |
| `HubSessions.ShutdownDurableIff` | internal/hub/hub.go:70-82 | The bus is closed and then its sessions, from a current file: everything the bus held survives if and only if nothing was queued or no nack of a lease was written; otherwise exactly the leases survive. |
| `HubLate.LateLeaseStays` | internal/hub/hub.go:431-466 | When a session closes between the lease of a job and its listing, then through every later run the lease lasts if and only if no client acknowledges or returns it by name and no sweep of an open bus finds it expired. |
| `HubScenarios.LateArises` | internal/hub/hub.go:437-443 | From every reachable state in which a job has a message in hand, a close between its lease and its listing makes the delivery late. |
| `HubLists.ListsStep` | internal/hub/hub.go:173-235 | Every hub step keeps: a session lists a delivery at most once; a delivery still to be listed is known to its own job only; a job that gives up does so on a closed session. |
| `HubLists.JobsNeverGiveBack` | internal/hub/hub.go:453-465 | In every reachable state a job that has claimed a lease is about to acknowledge it: the nack after a failed reply is never reached, because the session is closed by then. |
| `HubRouting.RepliesReachTheAsker` | internal/hub/hub.go:346-394 | In every reachable state a rep is forwarded if and only if a slot is open under its id and the worker was sent its OK, and then to the one session and client id that id scopes; replies never exceed requests. |
| `HubRouting.ForwardsTo` | internal/hub/hub.go:376-393 | A rep always consumes the slot under its id, and answers a session and client id if and only if that slot is open, the id scopes them, and the worker was sent its OK. |
| `HubRouting.SlotStep` | internal/hub/hub.go:346-369 | A step keeps a slot as it is if and only if it is no rep, failed req or new req under that id, no end of its session, and no req after its time; only a req opens one. |
| `HubRouting.ReplyArrives` | internal/hub/hub.go:346-393 | After a req, through every later run without such a step, a rep under its id whose worker was sent the OK is forwarded to the session that asked, under its id. |
| `HubRouting.RepWithoutOkIsLost` | internal/hub/hub.go:376-382 | When the worker's OK cannot be written, its rep is lost: the slot is gone, and through every later run nothing is forwarded for that request unless the client asks again under the same id. |
| `HubScenarios.LostRepArises` | internal/hub/hub.go:376-382 | From every state with the two sessions: after a req and the close of the worker, the slot is open and the worker's OK cannot be written. |
| `HubReps.RepsStep` | internal/hub/hub.go:192-217 | Every hub step keeps: each delivery is filed for a rep at most once in the whole hub, under the id of its own message. |
| `HubReps.RepAcksWhatItAnswers` | internal/hub/hub.go:370-375 | In every reachable state a rep starts to acknowledge exactly the delivery its session filed under its id, and whenever later that delivery is still leased, it is one of a message with that id. |
| `HubReps.LatestDeliveryOnly` | internal/hub/hub.go:192-217 | A second ready delivery under one message id replaces the first: through every later run no rep of any session acknowledges the first. |
| `HubScenarios.ServesHead` | internal/hub/hub.go:431-451 | A ready job on a mailbox with queued messages ends up, in four steps of its own, with the first of them leased, listed and filed for its rep; any delivery filed under that id before is forgotten. |
| `HubScenarios.ReplacedDeliveryArises` | internal/hub/hub.go:431-451 | From every reachable state in which two mailboxes have messages under one id in front: a worker that is ready on both ends up with both leased and only the second filed for its rep. |
| `Hub.Session.BeginClose` | internal/hub/hub.go:131-143 | Marks the session closed and hands over its list once; a second call hands over nothing. |
| `Hub.Session.ClaimInflight` | internal/hub/hub.go:175-189 | Removes every occurrence of the id from an open session; refuses on a closed one. |
| `Hub.Session.DropInflight` | internal/hub/hub.go:225-235 | The id is no longer listed, and every other id is, as often and in the same order. |
| `Hub.Session.TrackRepAck` | internal/hub/hub.go:192-202 | Remembers which delivery a rep acknowledges, unless the message id is empty. |
| `Hub.Session.TakeRepAck` | internal/hub/hub.go:204-210 | Hands out the remembered delivery once. |
| `Hub.Hub.Connect` | internal/hub/hub.go:101-107 | Session numbers start at one and are never given twice. |
| `Hub.Hub.ClearPending` | internal/hub/hub.go:90-98 | A slot is there afterwards, unchanged, if and only if it was there and belongs to another session. |
| `Hub.Hub.ExpirePendingLocked` | internal/hub/hub.go:487-493 | A slot is there afterwards, unchanged, if and only if it was there and its time has not passed, or it has none. |
| `Hub.JobArrives` | internal/hub/hub.go:568-577 | What a worker is sent is what the client asked for: its body, or its text if it has none, as body and as text, under the same name, from the sender it named or its session, and under the id the job was put with. |
| `Hub.Hub.CloseSession` | internal/hub/hub.go:131-151 | Without interleaving: nacks every listed delivery in order, then drops the session's slots; a second close does nothing. |
| `Hub.Hub.Reply` | internal/hub/hub.go:543-566 | A closed session refuses; a failed write closes the session, with all that a close does. |
| `Hub.Hub.HandleReq` | internal/hub/hub.go:346-369 | A req registers its slot, with its time, and puts its job under the scoped id; a job that is not accepted leaves no slot; every other slot stays exactly if its time has not passed. |
| `Hub.Hub.HandleRep` | internal/hub/hub.go:370-379 | A rep acknowledges the delivery it answers when this open session was given it, and consumes the slot. |
| `Hub.Hub.HandleAck` | internal/hub/hub.go:334-338 | Acknowledges the lease and forgets it, or reports the error and changes nothing. |
| `Hub.Hub.HandleNack` | internal/hub/hub.go:340-344 | Gives the lease back and forgets it, or reports the error and changes nothing. |
| `Hub.Hub.TakeJob` | internal/hub/hub.go:431-466 | All outcomes of a take or ready: refused and requeued; orphaned by an earlier close; written, kept and filed for its rep; written and acknowledged; or not written, when the close gives back all the session held, clears its slots, and the rep is forgotten. |
| `Hub.Hub.ReserveJob` | internal/hub/hub.go:495-510 | All outcomes of a reserve: refused and requeued, orphaned by an earlier close, written and kept, or not written, when the close gives back all the session held and clears its slots; reps are never touched. |
| `Heartbeat.Heartbeat` | internal/hub/hub.go:261-299 | The ticker loop closes at the first tick that finds the session silent for liveness intervals, and pings at exactly the earlier ticks that find it silent for one. |
| `Heartbeat.SilentSessionCloses` | internal/hub/hub.go:261-299 | A session silent since t, before or after its ticker was started, is closed at the first tick from t + n*iv on: before t + (n+1)*iv if and only if the ticker was started before t + n*iv, and after exactly n - 1 pings since t if and only if it was started before t + iv or n is 1. |
| `Heartbeat.LeaseOutlivesSilence` | internal/hub/hub.go:512-526 | A delivery leased for a take or ready at or after the last sign of life expires only after that close. |
| `Heartbeat.CloseBeatsExpiry` | internal/hub/hub.go:261-299 | When a silent session whose ticker was started less than n intervals after its last sign of life is closed, no lease it was given for a take or ready since then has expired. |
| `Heartbeat.PingsAreTicks` | internal/hub/hub.go:283-294 | The pings are sent at exactly the ticks that find the session silent for an interval, in order. |
| `Heartbeat.TakeLease` | internal/hub/hub.go:512-526 | A take lease is twice the silence after which a session is closed, or one minute if that is more. |
| `WireStreams.FrameSays` | internal/wire/wire.go:72-91 | A sent frame is the letters ZMQC, the payload's length and the payload, with version 1 unless it names another; one that cannot be encoded or is over two mebibytes is not sent. |
| `WireStreams.BigEndian` | internal/wire/wire.go:85-113 | Lengths are ordered as their four bytes are, compared from the left. |
| `WireStreams.ReadIffFramed` | internal/wire/wire.go:104-131 | A read yields a frame and a count if and only if the stream starts with the magic, the length of a payload within the bound, and that payload, which decodes to that frame in a known version; the count is header and payload. |
| `Wire.Stream.ReadFull` | internal/wire/wire.go:106-119 | Reads exactly what was asked, or all there is and a failure, and advances by as much. |
| `Wire.Stream.ReadCounted` | internal/wire/wire.go:104-131 | The buffered read returns what `Parse` says of the available bytes, counts exactly what it consumed, and leaves the rest. |
| `Wire.Sink.Write` | internal/wire/wire.go:72-91 | A write puts the encoded frame on the stream, or a prefix of it when the peer stops accepting, and reports which. |
| `WireStreams.FrameRoundTrip` | internal/wire/wire.go:72-131 | A written frame is read back with its exact size exactly when its version is absent (it becomes 1) or current; otherwise the whole frame is consumed and refused. |
| `WireStreams.StreamCut` | internal/wire/wire.go:98-131 | A stream of written frames cut at any byte is read back as its complete frames with their sizes, then one failure that counts exactly the leftover bytes. |
| `WireStreams.ZeroIffBoundary` | internal/wire/wire.go:98-131 | That last count is zero if and only if the cut is on a frame boundary. |
| `ClientSpec.PingsThenFrame` | client.go:255-273 | On k pings and then another frame, that frame is returned, exactly those bytes are consumed, and k pongs with the pings' ids are written in order. |
| `ClientSpec.ReadsWhatWasSent` | client.go:255-273 | On a stream of frames of which some bytes have arrived: the frame returned is the first that is no ping, with everything before it consumed; otherwise only pings have arrived whole, and the read fails on a boundary and desynchronizes off one. |
| `ClientSpec.DesyncIffOffBoundary` | client.go:255-266 | A read of a stream of frames sets the flag if and only if it stops off a frame boundary. |
| `ClientSpec.InStepWhileNotDesync` | client.go:234-273 | In every run of reads, however bytes arrive: while the flag is not set the cursor is on a frame boundary. |
| `Client.IdsDistinct` | client.go:222-232 | A client never generates one correlation id twice. |
| `Client.Session.ReadSkipPing` | client.go:255-273 | The read loop terminates, and computes the reply, the bytes consumed, the pongs written and the flag that `SkipPings` gives for the available bytes. |
| `Client.Session.RoundTrip` | client.go:238-253 | A desynchronized session writes and reads nothing; any other writes the request once, under a fresh id when it had none, and when that succeeds its reply is what is read from the bytes arrived by then: after k pings the very next frame, exactly those bytes consumed, and their pongs sent. |
| `Client.Session.Request` | client.go:147-180 | Up to `attempts` rounds, each reading on where the one before stopped, write the same request (its fields given) under one fresh id, and otherwise only pongs; it stops at the first reply that is no error and returns that frame, or gives up with the last reply, early only when desynchronized. |
| `Args.ParseArgs` | cmd/zmqcat/args.go:16-48 | The index loop computes the rewritten list that `Normalized` describes. |
| `Args.NormalForm` | cmd/zmqcat/args.go:16-48 | Splitting the rewritten list again gives the same flags and positionals if and only if the last argument is not a value flag without its value. |
| `Args.SplitInterleaves` | cmd/zmqcat/args.go:18-44 | Flags and positionals each keep their order; together they are the arguments without the first `--` that is not a value. |
| `Args.ParsesAsIntended` | cmd/zmqcat/args.go:45-48 | The flag package assigns exactly the intended flags and leaves exactly the intended positionals, or reports the same first error, unless, and only unless, the last argument is a value flag without its value and every flag is known. |
| `Args.MissingValueSwallowsTerminator` | cmd/zmqcat/args.go:40-48 | A counterexample family: when the last argument is a value flag without its value and every flag is known, that flag is assigned `--` and no error is reported. |

## Left out

- JSON and base64: `Wire` takes an encoder and a decoder as a parameter; round trips assume that decoding undoes encoding.
- The file system: a snapshot replaces the state file atomically or leaves it alone (`internal/mailbox/mailbox.go:140-187`); temporary files, syncing and permissions are not modelled.
- Randomness: a new delivery id is one never issued before, a client's prefix is given; the time fallbacks of `newID` and `nextID` are not modelled.
- Time: an int of nanoseconds; overflow of a 64-bit duration, a clock that jumps and a ticker that skips are not modelled.
- Slices: queues, waiters and lists are sequence-valued fields; backing arrays shared by `x[:0]` filters and by `bx.q[1:]` are not modelled.
- Goroutines and locks: a critical section is one step; fairness and blocking in `select` are not modelled.
- Strings and bodies: strings are sequences of characters, bodies sequences of bytes; UTF-8 is not modelled.
- `Bus.Reserve`: the blocking form is `TakeChan`, `Receive` and `Hub.Hub.HoldOrRequeue`, with other steps in between; `Inflight` and `Depth` only read a length.
- Whole-frame writes: frames are written whole; `reply` releases the session lock before a two-part write, so this is an assumption.
- Correlation of replies: `Request` returns the next frame that is no ping, whoever it answers; nothing is claimed about whose reply it is.
- Frames too large to send: a job's frame carries its body twice under the 2 MiB bound, so not every accepted body can be delivered; that is not modelled.
- Partial writes in the client: only reads set the desynchronization flag, and a failed write shows only as a failed attempt.
- Deadlines: a read that times out is a stream that ends early; the timeout itself is not modelled.
- Hello, which renames a session; tracing, logging, and the text of errors.
- A job without an id: the state machine files its rep acknowledgement under the message id; the fallback to the frame's id is in `Hub.Hub.TakeJob` only.
- The lookup of a rep's slot and its acknowledgement are separate steps of `HubSpec`, in either order, which allows more than the source does.
- The order of one session's frames: `run` handles them one after the other, `HubSpec` lets their steps overlap, which allows more than the source does.
- Delivery to the asker: a rep counts as forwarded when the hub turns to the session that asked; whether that session can still be written to is not part of `HubRouting`.
- The pump that copies a subscriber's channel to its connection, and `Hub.Close`, which is a `CloseBus` event followed by the close of every session.
- Flag values: a flag that exists and has a value is accepted; conversion errors of the flag package, such as `--quiet=maybe`, are not modelled.
- `node.go`, `cmd/zmqcat/main.go`, `internal/addr`, the Python and Lua clients, and the Nix files: plumbing, configuration, or repetition of the Go client.
- MailboxRecovery.CrashLosesNothing: one direction over whole runs; which single step breaks it is exact in `RequeueDurableIff` and `CancelDurableIff`, but a later successful write repairs what an earlier one missed.
- MailboxRecovery.CrashInventsNothing: one direction over whole runs; which single step breaks it is exact in `AckDurableIff`.
- MailboxIndex.AtMostOneCopy: says nothing about a retry that arrives while a copy is in transit, which makes a second copy (`PutCopies`).
- MailboxFifo.FifoRendezvous: says nothing about a mailbox to which a message is given back, which puts it in front.
- Heartbeat.SilentSessionCloses: assumes pings that are written and a ticker that is exact.
- Heartbeat.CloseBeatsExpiry: assumes the ticker started within n intervals of the last frame, as `run` starts it when a session connects.
- Heartbeat.LeaseOutlivesSilence: covers take and ready; the lease of a reserve is the client's choice and can be shorter.
