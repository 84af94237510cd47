# Verified model of spoond's lease backend

spoond leases small virtual machines from one box. Its backend is a set of
cooperating loops and handlers around an in-memory lease store, a catalogue of
snapshot builds and a substrate that runs the sandboxes. This project models
the parts of that backend where the hard reasoning is, and proves what they are
for. `dafny verify dfyconfig.toml` checks all of it.

Each module follows one component.

- `Wake`, `Tickets`, `AdmissionPass` and `AdmissionQueue` are the queue of creates
  waiting for capacity. The first two are state machines over the steps of any
  number of goroutines; the third is the loop of one pass, the fourth the ticket
  bookkeeping, both updated in place.
- `CatalogGC` is the snapshot garbage collector: the recursive kept set, one
  pass, and what repeated passes leave.
- `JobCap` and `CapText` are the output cap of background jobs: a log file whose
  front is punched out while it grows, with two records of what is gone.
- `EventBus`, `Subscriber`, `StreamLoss` and `EventIds` are the lease event
  stream: the ring, replay, a slow subscriber, what a stream that breaks off
  loses, and the position text a client sends back as Last-Event-ID (section
  9.2.4 of the WHATWG HTML Standard).
- `DiskVictims`, `DiskFairness`, `Reclaim` and `DiskRoom` are disk take-back and
  reservations; the second says in bytes what the first chooses by ratios.
- `MemoryAdmission` is memory admission under the overcommit cap, with the warm
  pool's fills and pops beside it.
- `Secrets` is the gate between secret staging and named-snapshot saves.
- `DrainGate` and `Undrain` are drain, undrain and self-heal: the gate and the
  resume loop, and what becomes of one drained lease.
- `FairShares` is the fair-share cache and the slices.
- `OrphanSweep` is the sweep of sandboxes nobody owns.
- `EgressCeiling` is the containment check of an allowlist in a ceiling.
- `Options`, `Counting` and `Decimal` are shared helpers.

A protocol is a datatype of states, a datatype of steps, `Enabled` and `Next`;
`After(steps)` is the state a sequence of steps leads to, if each was enabled.
Statements about `After(steps)` are statements about every reachable state.
Calls that may fail take their outcome from the step, so every failure and every
interleaving is covered.

## Where the code falls short of what it promises

These promises do not hold of the code as written. Each has a concrete run and
the exact condition.

- The collector never removes builds that name each other in a circle:
  `CatalogGC.CircleExample`; it collects exactly the unreachable builds if and
  only if they have no circle among them, `CatalogGC.CollectsExactly`.
- The output cap's counters can lose lines although every punch and every
  sidecar write succeeded, when the store misses an update and the next pass
  cannot read the sidecar: `JobCap.StaleReadLosesLines`. `JobCap.ExactIffClean`
  gives the condition for one pass.
- A read through a job row that lags behind the file returns zeros for bytes
  that were dropped: `JobCap.LaggingReadAnswersZero`. `JobCap.ReadIffNoLag` says
  exactly when an answer is right.
- A subscriber's newest event can be shed to make room for its own gap marker,
  whatever the buffer size, when the consumer empties the buffer down to that
  event between the two selects of one send: `Subscriber.NewestCanBeLost`.
  `Subscriber.NewestLostIff` and `Subscriber.OvertakingNeedsReads` say exactly
  when, and `Subscriber.NewestSurvives` when not.
- A reconnect does not replay everything that was missed, and the client may not
  know. A shed marker carries no id, so a client that was sent an event behind a
  shed one and breaks off before the marker resumes past the loss:
  `StreamLoss.SilentLoss`, `StreamLoss.SilentLossIsFinal`. A client that came
  without an id and was sent nothing has none to come back with, so it starts
  live again, with neither replay nor marker: `StreamLoss.NoIdLoss`.
  `StreamLoss.MissedIff` says that an event is missed in these two cases only,
  and `StreamLoss.ToldIff` when the client was told of what was shed.
- The overcommit cap can be passed, because the running memory is read before
  the lock that checks and debits: `MemoryAdmission.StaleReadOvercommits`. It can
  also be passed because a popped pool sandbox is for a moment in neither figure:
  `MemoryAdmission.PopGapOvercommits`. `MemoryAdmission.GrantWithinCapIff` is
  exact for one grant, `MemoryAdmission.PromisedWithinSlack` bounds every run,
  and `MemoryAdmission.CapHoldsInQuietRuns` shows there is no third cause.
- The orphan sweep can delete a sandbox that a grant is taking over from the
  warm pool, when the filler's end call erases the grant's in-flight mark:
  `OrphanSweep.HandOverIsSwept`. `OrphanSweep.SweptIffUnmarked` says that a
  sandbox being handed over is in danger if and only if its mark is gone.
- A secret file can stay on a lease after its job and every save have finished,
  when the job, refused by the gate, records its names only after the save has
  drained them: `Secrets.LateDeferralLeavesFile`. `Secrets.NothingLeftInTime`
  and `Secrets.LateNameStays` are the two directions of the condition.
- An undrain can mark a lease lost whose snapshot is intact, when the lease was
  moved to another build after the attempt that found the old one missing, or
  the image it did not find was registered again: `Undrain.RestoredLeaseIsLost`,
  `Undrain.ReturnedImageIsLost`. `Undrain.LosesIntactIff` gives the condition.
- A resume that succeeded can clear the Drained mark a later drain has set:
  `Undrain.LateSuccessUnmarks`. `Undrain.DrainedMarkDropsIff` says that a run can
  clear it while the lease stays suspended if and only if some call has already
  succeeded.

## Model

| member | source | states |
|---|---|---|
| Wake.SingleOwner | api/admitqueue.go:531-555 | In every interleaving at most one goroutine owns the scheduled flag, so the guard after a pass never fires. |
| Wake.NoWakeIsLost | api/admitqueue.go:512-555 | Once all goroutines have finished, nothing is pending, the flag is free and the last pass started after every store of the pending flag. |
| Wake.StepsQuiesce | api/admitqueue.go:531-555 | Every step of a wake goroutine lowers a well-founded rank, so a burst of wakes comes to rest. |
| Wake.EveryCallIsServed | api/admitqueue.go:502-555 | From every reachable state the goroutines run to their end without a new call, and the last pass then started after every call so far had stored its wake. |
| Wake.StoresAreCalls | api/admitqueue.go:512-521 | In every run the pending flag has been set once for each call that came this far. |
| Wake.NextCallIsServed | api/admitqueue.go:512-521 | A call that comes at any moment is served by a later pass too. |
| Wake.InvHolds | api/admitqueue.go:512-555 | The protocol's invariant in every reachable state. |
| Tickets.SettledOnce | api/admitqueue.go:223-241 | A ticket's done mark is won at most once, by exactly one actor. |
| Tickets.WinnerIsFinal | api/admitqueue.go:223-241 | Whoever settled a ticket stays its winner through every continuation, with or without the admission lock. |
| Tickets.LoserIsAnswered | api/admitqueue.go:288-320 | A waiter that lost the race finds its answer in the channel or a winner about to send it. |
| Tickets.LeaseConserved | api/admitqueue.go:332-416 | At most one lease is made for a ticket, and it is with the pass, in the channel, delivered to that waiter or released: never two of these and never none. |
| Tickets.NoTicketDropped | api/admitqueue.go:249-281 | An unsettled ticket is queued or about to be refused, and no ticket of a swept owner is queued again. |
| Tickets.SweptOwnersAreSettled | api/admitqueue.go:249-281 | When the refusers are done, every ticket of a swept owner is settled. |
| Tickets.WithoutAdmitMu | api/admitqueue.go:474-496 | Without the admission lock there is a run in which a granted lease is neither delivered nor released. |
| Tickets.WaiterGetsLease | api/admitqueue.go:332-416 | From any reachable state with the pass at rest, a queued ticket tried with room ends with its lease received by its waiter, and no other ticket touched. |
| Tickets.WaiterIsRefused | api/admitqueue.go:375-399 | Tried while the node drains or after its owner went, it ends with a refusal received; draining also ends the pass and sets a refuser on everyone. |
| Tickets.LateLeaseIsReleased | api/admitqueue.go:405-410 | If its waiter gave up during the try, the lease is released. |
| Tickets.RefuserDetaches | api/admitqueue.go:249-281 | A refuser takes exactly its scope off the queue: everything, or the tickets of the owner just deleted. |
| Tickets.RefuserGetsThrough | api/admitqueue.go:263-281 | It gets through its list: what nobody had settled is settled with a refusal to receive, and no other ticket is touched. |
| Tickets.InvHolds | api/admitqueue.go:166-496 | The ticket protocol's invariant in every reachable state. |
| AdmissionPass.SortTickets | api/admitqueue.go:437-470 | The list is the queue in fair-share order: known owners first, lower ratios first, then by arrival. |
| AdmissionPass.FirstInRank | api/admitqueue.go:457-468 | An open ticket left for later has no better claim: its owner is known only if the other's is, has no lower ratio, and of equals it came later. |
| AdmissionPass.Queue.FirstOpen | api/admitqueue.go:357-363 | The pick is the first of the list that is neither tried nor settled, or all are. |
| AdmissionPass.Queue.Pick | api/admitqueue.go:357-363 | The pick is a ticket of the queue as it stood, neither tried nor settled, and every one ranked ahead of it then was tried or settled; or every ticket queued then and now has been tried. |
| AdmissionPass.Queue.Renew | api/admitqueue.go:345-355 | The pass starts over exactly when it has turned a ticket away since its last restart, has restarted less than three times and reads a count of freed room that has moved on since. |
| AdmissionPass.Queue.Step | api/admitqueue.go:357-416 | One pick and one fair attempt on the queue as it stood, which settles the ticket unless there was no room; or none, when every ticket queued then and still queued has been tried since the last restart. |
| AdmissionPass.Queue.TryAdmit | api/admitqueue.go:332-416 | A pass ends after at most three restarts; unless it stopped to drain, every ticket queued when it began, or when it last listed the queue, and still queued has been tried since the last restart, each at most once and none passed over by one ranked behind it; and if it has turned one away since and could have restarted, its last reading found no room freed since the restart. |
| AdmissionQueue.Ticket.Send | api/admitqueue.go:213-218 | The first answer to a ticket stays and a later one is dropped. |
| AdmissionQueue.Queue.Park | api/admitqueue.go:166-203 | A ticket with the lease's id, the next number and its deadline is queued at the end, or refused exactly when its owner is deleted; the queue stays in the order of arrival. |
| AdmissionQueue.Queue.Finish | api/admitqueue.go:223-241 | The caller wins exactly when the ticket was not done; it is then done and out of the queue, the others unsettled and in the order of arrival. |
| AdmissionQueue.Queue.CancelForOwner | api/admitqueue.go:249-281 | Exactly the owner's tickets leave, each settled and told; no other ticket is touched. |
| AdmissionQueue.Queue.Drain | api/admitqueue.go:474-496 | The queue empties and every ticket is settled and told. |
| CatalogGC.Collector.Keep | api/gc.go:429-444 | The recursive keep ends on every graph, cyclic ones too; it keeps its argument, leaves what it kept closed under links, and never leaves a closed set it starts inside. |
| CatalogGC.Collector.KeepStructure | api/gc.go:445-461 | The structural loop keeps the builds in flight and every parent and header reference of a non-deleted build, closed, and nothing outside a closed set that holds them. |
| CatalogGC.Collector.KeepLeases | api/gc.go:487-527 | The lease loop keeps the builds of every lease row that still holds them, but for the excepted lease, closed, and nothing outside a closed set that holds them. |
| CatalogGC.Collector.KeptBuildsExcept | api/gc.go:408-552 | The kept set is the least set that holds the roots and is closed under references, and under parents of builds that are not deleted. |
| CatalogGC.RowKeeps | api/gc.go:462-552 | Every build an image, a warm size, a named snapshot, a starting lease or a sandbox names, and every build in flight, is kept. |
| CatalogGC.LeaseKeeps | api/gc.go:487-527 | The resume, checkpoint and snapshot builds and the pins of a lease that is not set aside are kept if the lease is not lost, or is lost and its grace period has not ended. |
| CatalogGC.LapsedKeepsNothing | api/gc.go:506-514 | From the end of its grace period a lost lease keeps nothing: the kept set is that of the catalog without its rows. |
| CatalogGC.LinksAreKept | api/gc.go:429-461 | The references of a kept or non-deleted build are kept, and its parent if it is not deleted. |
| CatalogGC.KeptHasAReason | api/gc.go:408-552 | Nothing else is: every kept build is named by one of those rows, on their fields, or linked from a kept or non-deleted build. |
| CatalogGC.Collector.GcCandidates | api/gc.go:559-592 | A pass marks deleted exactly the old unkept builds whose delete succeeds, and counts them and their bytes. |
| CatalogGC.SweepDeletesIff | api/gc.go:559-592 | A build is deleted if and only if it is ready or failed, not kept, untouched for an hour and its delete succeeds; nothing else changes. |
| CatalogGC.Collector.GcPass | api/gc.go:273-315 | One pass is the kept set followed by the candidate loop. |
| CatalogGC.ClosureIsUnique | api/gc.go:426-444 | There is only one such least set. |
| CatalogGC.PassIsSafe | api/gc.go:445-461 | No pass deletes the parent or a header reference of a build that was not deleted, nor a build any row names. |
| CatalogGC.PassKeepsWanted | api/gc.go:559-592 | A pass changes neither the set of builds the rows lead to nor which of them are not deleted, whatever fails. |
| CatalogGC.PassMakesProgress | api/gc.go:559-592 | While unreachable builds without a circle remain, a pass of successful deletes removes at least one and adds none. |
| CatalogGC.GarbageShrinks | api/gc.go:273-315 | Over a run of passes the count of unreachable builds falls by at least one each pass until none is left. |
| CatalogGC.RunKeepsWanted | api/gc.go:273-315 | No run of passes touches a build the rows lead to. |
| CatalogGC.CirclesStay | api/gc.go:445-461 | A build that leads to itself is never collected. |
| CatalogGC.CollectsExactly | api/gc.go:408-592 | Enough passes leave exactly the non-deleted builds the rows lead to if and only if the unreachable ones have no circle. |
| CatalogGC.CircleExample | api/gc.go:445-461 | Two builds that name each other as parent survive every run. |
| CatalogGC.ExceptIsRemoval | api/gc.go:487-527 | The kept set without a lease is the kept set after that lease's rows are gone. |
| CatalogGC.CheckedBuildStaysFree | api/disk_room.go:466-474 | A pause build found unkept before the release is still unkept after it, however many rows of any kind have gone, leases been lost or builds been finished, deleted or pruned meanwhile, so a take-back that passes its first check deletes the build. |
| CatalogGC.NewChildKeeps | api/disk_room.go:507-529 | A live build added with it as parent keeps it. |
| CapText.LineRoundTrip | api/jobs.go:405-464 | A sidecar line parses back to its counters and flag. |
| CapText.FileRoundTrip | api/jobs.go:416-464 | So does it as the last line of any file of whole lines. |
| CapText.OldAndOddLines | api/jobs.go:440-464 | A line without the flag parses with the flag unknown; a line with any other fourth word or a negative counter does not. |
| CapText.TornTailIsRefused | api/jobs.go:416-424 | An empty file, or one whose last line has no newline, has no counters, whatever else it holds. |
| CapText.SpacesAre | api/jobs.go:441 | Fields are separated at exactly the 25 characters with the Unicode White_Space property. |
| Decimal.ParseOfPrint | api/events_sse.go:30-48 | A printed number parses back to itself below the limit of the width, and is refused from the limit on. |
| Decimal.ParseOfSigned | api/jobs.go:445-447 | A signed number parses to its value below the limit, a negative one down to the limit itself, and is refused beyond. |
| Decimal.ParsedIntShape | api/jobs.go:445-447 | What parses is at most one sign in front of digits, and within the width. |
| EventIds.IdRoundTrip | api/events_sse.go:29-51 | An event id parses back to its epoch and sequence number if and only if the epoch has no dash and is not blank. |
| EventIds.ParsedIdShape | api/events_sse.go:38-51 | What parses has one dash, a non-blank epoch and a number of the width; printing it again gives the same text exactly without superfluous zeros. |
| JobCap.TargetIsABlock | api/jobs.go:343-352 | The target is block-aligned, zero or past what is dropped, and leaves between the kept window and one block more. |
| JobCap.CountEach | api/jobs.go:357-365 | The counting loop gives the number of newlines. |
| JobCap.PassOutcome | api/jobs.go:479-545 | What a pass leaves in file, sidecar and row, for each way it can end. |
| JobCap.CaughtUpIff | api/jobs.go:492-545 | After a pass the row has caught up with the sidecar if and only if the pass wrote a new line and its store write landed, or wrote none and the row had caught up before or the pass landed the sidecar's counters. |
| JobCap.WholePassCatchesUp | api/jobs.go:493-504 | A pass that loses no call leaves the row level with the sidecar, whatever was lost before. |
| JobCap.PassKeepsOrder | api/jobs.go:479-578 | A pass with any failures and any bytes written meanwhile keeps row, sidecar and punched bytes in order, all at block multiples, and the file equal to the stream above the hole. |
| JobCap.ExactIffClean | api/jobs.go:479-578 | From exact counters, a pass leaves exact counters if and only if it punched nothing, lost its sidecar write without dropping new bytes, or recorded a region whose earlier hole held no newline. |
| JobCap.CleanStaysExact | api/jobs.go:549-578 | That condition holds whenever no sidecar write is lost and no sidecar read is lost while the row lags. |
| JobCap.PassKeepsUndercounts | api/jobs.go:479-578 | No failure makes the counters report a newline that was not there. |
| JobCap.PassKeepsWindow | api/jobs.go:343-352 | No pass drops into the kept window; with a cap set, a pass that could look and punch leaves less than one block more, whether or not it had anything to drop. |
| JobCap.RunIsOrdered | api/jobs.go:479-578 | In every run of writes and passes: the order, the alignment, no invented newline, and at least the kept window survives. |
| JobCap.CleanRunIsExact | api/jobs.go:479-578 | In a run without those losses both records give the exact newline count and last-byte flag of the dropped front, also when a lost row write is repaired from the sidecar. |
| JobCap.CleanPassEndsExact | api/jobs.go:479-578 | A clean run that ends with a pass that loses no call leaves the row describing the whole of the dropped front. |
| JobCap.StaleReadLosesLines | api/jobs.go:549-578 | A run with only successful punches and sidecar writes that reports no newline where there were thousands. |
| JobCap.LaggingReadAnswersZero | api/jobs.go:1676-1746 | A run whose one lost store write makes a read of a dropped newline answer zero. |
| JobCap.ReadIffNoLag | api/jobs.go:1676-1746 | A range or tail read returns the stream's own bytes at its reported start if and only if what it takes from an unknown hole was zero. |
| JobCap.ReadAfterCleanRun | api/jobs.go:1676-1746 | Through an up-to-date row every read returns what was written there, reports exactly what was dropped, starts where it was asked or at the first kept byte, and a tail read ends at the end of the stream. |
| JobCap.ReadAfterCleanPass | api/jobs.go:1676-1746 | After such a run every read returns, byte for byte, what was written from its start on, as much as there is and the limit allows. |
| JobCap.RangeReadIs | api/jobs.go:584-603 | A range read is the bytes from its start on, as many as there are and the limit allows. |
| JobCap.BaseIsExact | api/jobs.go:549-573 | From exact records the counters a pass starts from describe the stream's dropped front, and all of the hole when the sidecar can be read. |
| JobCap.RowOnlyRises | store/jobs.go:133-151 | Over any run no counter of the row falls, and its flag changes only when the dropped front grows. |
| JobCap.GuestStream.CapPassOver | api/jobs.go:479-545 | The pass as it runs, step by step, is the specified pass. |
| EventBus.RingAdvances | api/events.go:312-317 | Writing one event keeps the wrapping ring equal to the end of the history. |
| EventBus.Bus.Emit | api/events.go:294-325 | The event gets the next number, enters the ring, and reaches exactly the subscribers whose lease and owner filters are empty or name its lease and owner; every subscriber has been handed the matching events since it subscribed. |
| EventBus.Bus.ReplayAfter | api/events.go:435-476 | A gap if and only if the epoch is foreign, the position does not exist or an event after it is not in the ring; otherwise exactly the later events of the filter's lease and owner, in order. |
| EventBus.AgedIff | api/events.go:447-467 | An event after a position is not in the ring if and only if more than a ring of events followed the position. |
| EventBus.Bus.SubscribeWithReplay | api/events.go:418-427 | Replay and subscription are taken together at the newest position. |
| EventBus.Bus.Unsubscribe | api/events.go:480-488 | Only that subscriber goes. |
| EventBus.ReplayThenLive | api/events.go:405-427 | Replay followed by everything handed over afterwards is every matching event after the position, once and in order. |
| EventBus.Stream | api/events_sse.go:123-219 | A connection that subscribes, while others emit, until it ends: it is told of a gap exactly when its id cannot be resumed, and the replay and what it is handed are what it carries. |
| EventBus.SentIsBetween | api/events.go:405-427 | That is every matching event from the position to the connection's end. |
| EventBus.ExactlyOnce | api/events_sse.go:100-189 | Over any number of reconnects from the last id received, wherever each breaks off, a consumer has received every matching event from its start to its position exactly once and in order, except in the stretches a gap marker told it of, each of more than a ring of events; it starts at the id it came with or, without one, at the first connection on which it was sent something. |
| EventBus.ReceivedIff | api/events_sse.go:100-189 | A matching event was received if and only if it is after the start, not after the position and in no such stretch. |
| EventBus.GapMarkerResumes | api/events_sse.go:176-189 | A reconnect from a connect-time gap marker's id resumes if and only if at most one ring of events followed it. |
| Subscriber.LossIsAnnounced | api/events.go:357-391 | Between deliveries, anything shed is behind a gap marker that was queued later and has not itself been shed. |
| Subscriber.CountsAreLowerBounds | api/events.go:380-391 | The counts in the markers never exceed what was shed, and between deliveries they fall short of it by exactly the items shed to make room for markers. |
| Subscriber.BufferIsBounded | api/events.go:357-371 | In every run the buffer holds at most its capacity. |
| Subscriber.ReadsAreOrdered | api/events.go:357-371 | What is read comes in emission order, each event at most once. |
| Subscriber.NewestLostIff | api/events.go:380-391 | The event delivered last has been shed if and only if making room for its own marker found it alone in the buffer. |
| Subscriber.OvertakingNeedsReads | api/events.go:357-371 | That happens exactly when the consumer took all but one buffered item between the two selects of the marker's send. |
| Subscriber.NewestSurvives | api/events.go:357-391 | With capacity for two and no read between the selects, every event survives its own delivery. |
| Subscriber.NewestCanBeLost | api/events.go:357-391 | For every capacity a run that sheds the newest event. |
| Subscriber.KeepsUp | api/events.go:357-371 | A consumer that keeps up reads every event and nothing is shed. |
| StreamLoss.MissedIff | api/events_sse.go:100-219 | A client breaks off at any moment and reconnects any number of times: an event no newer than its position by then was never sent to it and no gap marker covers it if and only if the event was shed and a later one had been sent, or the client broke off without an id. |
| StreamLoss.IdMissesIff | api/events.go:435-476 | Coming back with an id, an event no newer than the final position is neither sent nor covered by a marker if and only if it is at or behind the id. |
| StreamLoss.NoIdMisses | api/events.go:418-424 | Coming back without one, nothing emitted before is sent or covered. |
| StreamLoss.NeverBehind | api/events.go:435-476 | No series of later connections sends an event at or behind the id they resumed from. |
| StreamLoss.ToldIff | api/events.go:380-391 | The client was told of a loss if and only if the last marker sent to it was queued after the loss; between deliveries, having been sent the latest marker is enough. |
| StreamLoss.SilentLoss | api/events.go:357-391 | For every capacity a run in which the client has been sent an event past a shed one and no marker. |
| StreamLoss.SilentLossIsFinal | api/events_sse.go:145-219 | In that run, whatever is emitted and however often the client reconnects, the shed event is missed, and no marker told of it. |
| StreamLoss.NoIdLoss | api/events_sse.go:109-125 | For every capacity a run that sheds nothing, in which a client without an id misses an event however often it reconnects. |
| DiskVictims.OldestFirstSorts | api/disk_room.go:237-239 | The candidate order is by pause time, a permutation, and stable. |
| DiskVictims.OrderHolds | api/disk_room.go:232-239 | Pinned leases are never candidates and unpinned ones as often as they are held. |
| DiskVictims.PickNext | api/disk_room.go:245-268 | The round picks the first owner with the highest ratio of all that may lose a lease, or none exactly when none may. |
| DiskVictims.ChooseVictims | api/disk_room.go:215-279 | A list exactly when picks made in turn can cover the bytes, and then it is what they take. |
| DiskVictims.OneWayOnly | api/disk_room.go:244-277 | Taking in turn leaves no choice: of two runs one continues the other. |
| DiskVictims.AnswerIsUnique | api/disk_room.go:215-279 | The list is determined by the question. |
| DiskVictims.AnswerIsFair | api/disk_room.go:215-279 | The list covers the bytes and does not without its last pick; no victim is pinned or the requester's. |
| DiskVictims.EveryVictimIsFair | api/disk_room.go:183-188 | Each victim's owner is not the requester, has the highest ratio at that moment and stays strictly above the requester's after-request ratio after losing it. |
| DiskVictims.OwnersLoseTheirOldest | api/disk_room.go:272-276 | Each owner loses a prefix of its oldest-first list, each lease at most once. |
| DiskVictims.VictimsAreOldest | api/disk_room.go:232-276 | A victim is one of its owner's paused leases, unpinned, and none the owner keeps in its list was paused earlier. |
| DiskFairness.MayLoseIff | api/disk_room.go:249-264 | In bytes: an owner may lose its next lease if and only if it is not the requester, uses more than its slice and, with that lease and without it, more of its slice than the requester would with the request granted. |
| DiskFairness.RequesterIsListed | api/disk_room.go:218-231 | A listed requester has exactly one row that says what it holds, the last that names it. |
| DiskFairness.AnswerIsDue | api/disk_room.go:215-279 | Each lease of the answer is the oldest unpinned one its owner has left, of an owner that may lose one, and no other such owner uses a larger part of its slice; together they cover the bytes and without the last they do not. |
| DiskFairness.ShortIsExhausted | api/disk_room.go:266-268 | Where the selector has no answer, leases taken that way fall short of the bytes and no owner is left that may lose one. |
| Reclaim.Box.DeleteReleasedBuild | api/disk_room.go:513-541 | The bytes returned are those the build's row recorded exactly when the build was known, not kept and deleted, and none otherwise. |
| Reclaim.Box.TakeVictim | api/disk_room.go:451-505 | A lease is released only if at the commit it is suspended, idle, unpinned, unreleased and on the build it had at the check; a pick is given up only when that fails, the lease is gone or its build is kept, and then nothing else changes. |
| Reclaim.Box.Choose | api/disk_room.go:385-404 | From the owners as listed, without the leases set aside, the pick is an unpinned lease of another owner, or no picks in turn can cover the shortfall. |
| Reclaim.OfferedHolds | api/disk_room.go:389-399 | The owners offered to the selector are those listed, each with its paused leases as often as held, but for the ones set aside. |
| Reclaim.Box.Look | api/disk_room.go:378-418 | An answer is given only on a room read, and on the owners as listed after it, that justify it. |
| Reclaim.Box.Pass | api/disk_room.go:378-428 | Each time round either answers or uses up one lease for good, released or set aside with its excuse. |
| Reclaim.Box.ReclaimForRoom | api/disk_room.go:368-429 | The loop ends; no lease is released twice, nor one that is running, busy or pinned, nor any after a room read that covers the need; the bytes reported are those deleted; it fits only if the room says so at that moment, and is full only when nothing was freed and, among the owners as then listed without the leases given up during the call, no picks in turn can cover the shortfall. |
| DiskRoom.Inflight.Reserve | api/disk_room.go:121-133 | Pending is the sum of the reservations not released. |
| DiskRoom.Inflight.Release | api/disk_room.go:126-132 | Releasing again changes nothing. |
| DiskRoom.Inflight.Settle | api/disk_room.go:146-159 | Exactly the entries the disk caught up with or that are 30 s old go; the sums are of what stays. |
| DiskRoom.UnsettledIff | api/disk_room.go:146-159 | An entry stays if and only if the disk has grown by less than its bytes since and it is less than 30 s old. |
| DiskRoom.FitsIff | api/disk_room.go:66-77 | A request fits if and only if the free bytes and those being freed cover it with the running reservations, the floor and what is promised. |
| DiskRoom.NoOvergrant | api/disk_room.go:736-747 | However requests and releases interleave, everything promised at a grant, the grant included, fits the room that grant read. |
| DiskRoom.GrantedIff | api/disk_room.go:736-747 | A request is granted if and only if it fits the room it read with what was promised then, and a grant adds exactly its bytes. |
| DiskRoom.WithoutLockOvergrants | api/disk_room.go:736-747 | Without the admission lock two requests can each be granted the whole room. |
| MemoryAdmission.PromisedWithinSlack | api/admit_memory.go:57-88 | In every run of admissions, pool fills and pops, the memory promised to leases and pool is within the cap plus what some grant's reading missed, settled since its read or in limbo at it; the inflight figure is the sum of the holds not given back. |
| MemoryAdmission.CapHoldsInQuietRuns | api/service.go:5712-5744 | If no hold is given back between a read and its check and no read comes between a pop and its raise, the cap itself holds throughout. |
| MemoryAdmission.GrantWithinCapIff | api/preempt.go:74-86 | A grant keeps within the cap if and only if its headroom covers the promised memory neither in its reading nor inflight. |
| MemoryAdmission.UndoCountsOnce | api/admit_memory.go:77-87 | Giving back takes exactly what was held, its clamp at zero never bites and a second call changes nothing. |
| MemoryAdmission.LoneRequest | api/preempt.go:74-86 | A lone request, lease or fill, gets its memory if and only if the cap covers it. |
| MemoryAdmission.LeaseLife | api/admit_memory.go:57-88 | A lease that starts, runs, settles and ends, or fails to start, leaves nothing inflight. |
| MemoryAdmission.PooledLife | api/service.go:3248-3345 | A fill that is stocked, popped, raised, made live, settled and ended has held its memory twice and leaves nothing inflight. |
| MemoryAdmission.StaleReadOvercommits | api/admit_memory.go:68-69 | A run that promises twice the cap because a lease settles between a read and its check. |
| MemoryAdmission.PopGapOvercommits | api/service.go:3248-3287 | A run that promises twice the cap because an admission reads and checks between a pop and its raise. |
| MemoryAdmission.PromisedSplits | api/preempt.go:50-66 | Promised memory is running, pool included, plus inflight plus in limbo, less what is counted twice or no longer promised. |
| Secrets.GateExcludes | api/secrets.go:302-358 | A save and a staging never hold a lease together, nor do two saves. |
| Secrets.GateAnswersIff | api/secrets.go:310-348 | In every reachable state a staging or removal is let in if and only if no save holds the lease, a save if and only if nobody does, and a save goes past its check if and only if no running job was given secrets and the limit leaves room. |
| Secrets.CheckpointsAreClean | api/named_snapshots.go:268-398 | No checkpoint captures a secret file, and a row marked secret-free means no exec or job file had ever been written on the lease. |
| Secrets.NoSaveUnderARunningJob | api/named_snapshots.go:306-310 | No save scrubs or checkpoints the lease while a job that was given secrets runs there. |
| Secrets.SaveRestoresCreateFiles | api/named_snapshots.go:287-304 | A save that got past its scrub leaves exactly the create-time files when its re-stage writes them all, whatever jobs deferred meanwhile. |
| Secrets.SaveGoesThrough | api/named_snapshots.go:268-398 | From any reachable state with nobody holding the lease and no job running with secrets, a save takes an empty checkpoint, records whether secrets had reached the lease, removes what was deferred and puts the create-time files back. |
| Secrets.FailedSaveRestores | api/named_snapshots.go:281-304 | A save whose scrub, checkpoint or row fails adds no row, removes what was deferred and leaves the create-time files in place, and once scrubbed no others. |
| Secrets.JobGoesThrough | api/jobs.go:982-1000 | From any reachable state without a save, a job removes what it was given when it ends, whatever the guest deleted meanwhile, and puts back the create-time files among them. |
| Secrets.ExecGoesThrough | api/jobs.go:1016-1046 | So does an exec; a job that does not start only removes them. |
| Secrets.LeftoversAreDeferred | api/secrets.go:508-538 | When everything has finished and no removal missed a file, whatever is left beside the create-time files is recorded as deferred. |
| Secrets.NothingLeftInTime | api/secrets.go:508-538 | If every deferral was made while some save was still to drain, nothing but create-time files is left once everything has finished and no removal missed a file. |
| Secrets.LateNameStays | api/jobs.go:992-995 | A name deferred with no drain ahead stays, its file with it, until another save begins, the guest deletes it or someone else who staged the name removes it. |
| Secrets.LateDeferralLeavesFile | api/jobs.go:992-995 | A run that ends with a job's file in place, because its names were deferred after the save had drained them. |
| Secrets.InvHolds | api/jobs.go:982-1046 | The invariant of saves, execs, jobs and deferred removals in every reachable state. |
| Secrets.Gate.BeginSave | api/secrets.go:310-322 | Granted exactly when neither a save nor a staging holds the lease. |
| Secrets.Gate.EndSave | api/secrets.go:324-332 | One holder fewer on that lease, no other changed. |
| Secrets.Gate.BeginStaging | api/secrets.go:336-348 | Granted exactly when no save holds the lease. |
| Secrets.Gate.EndStaging | api/secrets.go:350-358 | One holder fewer on that lease, no other changed. |
| DrainGate.DrainExcludesRecovery | api/admin.go:267-281 | In every run no resume attempt or probe recovery is inside its gated section while the node drains: none when draining is set and none begins while it holds. |
| DrainGate.DrainWaitsItsTurn | api/admin.go:267-281 | A recovery inside its gated section keeps a drain from its lock; once it backs off the drain gets in and draining is set. |
| DrainGate.RecoveryIsTurnedAway | api/rootfs_probe.go:428-498 | While the node drains a recovery is turned away at its test. |
| DrainGate.ClearingLetsThemIn | api/admin.go:764-782 | A drain that is cleared lets recoveries in again, and a write that fails changes nothing. |
| DrainGate.InvHolds | api/rootfs_probe.go:428-498 | The gate's invariant in every reachable state. |
| DrainGate.ResumeDrained | api/admin.go:617-697 | Whatever the node and the resumes answer: what is returned is the answer of the last attempt, or that the node drains when a test found so; every attempt follows a test that found it not draining; the loop holds the lock for every attempt and no wait and ends with one acquire outstanding; at most 1 + retries answers are other than not ready, and it gives up on a retryable one only with that budget spent and on a not-ready one only after the window, unless cut off. |
| DrainGate.BackoffFor | api/admin.go:424-440 | The pause before retry n is the shortest times two to the n - 1, but at most the longest. |
| DrainGate.DecisiveAnswerEndsIt | api/admin.go:643-655 | A success, a refusal, a permanent not-found or any other answer not to be retried ends the call at once and is what it returns. |
| Undrain.Holder.Settle | api/admin.go:869-1023 | What a resume's outcome does to the lease and whether it is deferred, for every error. |
| Undrain.InvHolds | api/admin.go:617-726 | The invariant of undrain calls, the owner's own resumes, restores and pauses, and the box's rows, files and image, in every reachable state. |
| Undrain.LossNeedsAMiss | api/service.go:3893-4019 | In every run a failed resume loses the lease only after an attempt that found its image, its build's row or the build's files missing. |
| Undrain.UnchangedIsNotIntact | api/admin.go:721-726 | While the lease is still on the build an attempt did not find, a loss takes nothing that could have been resumed. |
| Undrain.LosesIntactIff | api/admin.go:900-945 | With builds and image protected, an outcome that missed something loses an intact lease if and only if the lease has been moved to another build since, or the image is registered again and the build was whole then, and the lease is suspended, idle and unreleased and the error neither deferrable nor cut off. |
| Undrain.IntactIsNeverLost | api/admin.go:946-1023 | From a state with no miss outstanding and a lease that can be resumed, no protected run loses it. |
| Undrain.LivesIff | api/service.go:3893-4019 | A lease comes back to life exactly by an attempt that found everything and ended without error, or by its owner. |
| Undrain.MarkedIff | api/admin.go:869-879 | A resumed or restored lease is not marked drained, and only a drain marks one. |
| Undrain.LostIff | api/admin.go:900-945 | A lease is lost exactly when its sandbox dies, or when a not-found, neither deferrable nor cut off, is applied while it is suspended, idle and unreleased. |
| Undrain.BrokenIsLost | api/admin.go:900-945 | When the row or files of a suspended lease's build go, the next call finds it out and the lease is lost, once and for that reason. |
| Undrain.FailureIsRetried | api/admin.go:617-697 | An attempt that fails for a passing reason leaves everything as it was and the call tries again. |
| Undrain.ReleaseWins | api/admin.go:869-945 | A lease released during an attempt stays as the release left it. |
| Undrain.RestoredLeaseIsLost | api/restore.go:88-205 | A run in which the owner restores the lease to an existing build and the old not-found then loses it. |
| Undrain.ReturnedImageIsLost | api/service.go:3958-3961 | A run in which the image is registered again and the old not-found then loses the lease. |
| Undrain.DrainedMarkDropsIff | api/admin.go:869-879 | From a drained lease, suspended and unreleased, some run clears the mark with the lease suspended throughout if and only if some call has already succeeded in that state. |
| Undrain.LateSuccessUnmarks | api/admin.go:869-879 | A run in which a new drain's mark is cleared by a success that came before it. |
| FairShares.CacheIsFresh | api/fair_shares.go:117-265 | In any interleaving of writers and torn computes the cached snapshot differs from a fresh one only where a writer's invalidate is pending. |
| FairShares.QuietComputeIsCached | api/fair_shares.go:117-265 | From any reachable state a compute nobody disturbs is cached and is the quantities as they are. |
| FairShares.WriteDropsTheCache | api/fair_shares.go:117-265 | A write and its invalidate empty the cache, and a compute begun before is not cached after. |
| FairShares.CellsAreWritten | api/fair_shares.go:117-265 | In every run the quantities are what the writers wrote last. |
| FairShares.ComputeSlices | api/fair_shares.go:313-346 | Each owner is shown its equal part, or the part it would get. |
| FairShares.SliceIs | api/fair_shares.go:313-346 | An active owner is shown the largest whole part of which as many as there are active owners fit the box, an idle one of one more; nothing while the capacity is unknown. |
| FairShares.IdleSliceIsKept | api/fair_shares.go:435-440 | What an idle owner is shown is what it gets on becoming active. |
| FairShares.SlicesFit | api/fair_shares.go:319-346 | The active owners' slices never sum past the box. |
| OrphanSweep.SweepSparesOwners | api/orphan_sweep.go:174-300 | The sweep deletes no sandbox being created or handed over, no pool entry's and no lease's that is not lost, except one its guard found being handed over without a mark. |
| OrphanSweep.GuardFoundIt | api/orphan_sweep.go:276-297 | Whatever the sweep deletes, its guard found unclaimed or claimed by a lost lease nobody was working on. |
| OrphanSweep.UnclaimedTwice | api/orphan_sweep.go:224-239 | An unclaimed sandbox is taken up only if the previous pass found it unclaimed with the same start time. |
| OrphanSweep.RememberedIff | api/orphan_sweep.go:146-167 | An id is remembered if and only if its delete failed, and until a retry deletes it or finds it being created or owned. |
| OrphanSweep.RetryGoesThrough | api/orphan_sweep.go:146-167 | A remembered sandbox that nobody owns or is making is deleted by the next retry and forgotten, or remembered again when the delete fails. |
| OrphanSweep.PooledLife | api/service.go:3246-3345 | A sandbox made for the pool, stocked, popped and taken over is in flight from its begin to the filler's end and from the pop to the grant's end. |
| OrphanSweep.AbortedLife | api/orphan_sweep.go:75-101 | A create that fails gives up its mark, cleaned up or not, and a sandbox that stops by itself is no longer listed. |
| OrphanSweep.SweptIffUnmarked | api/orphan_sweep.go:174-300 | A running sandbox being handed over, with the sweep idle, can be swept while it is if and only if its in-flight mark is gone. |
| OrphanSweep.FillerErasesMark | api/service.go:5761-5766 | A run in which the filler's end call erases the mark of the grant that popped the sandbox. |
| OrphanSweep.HandOverIsSwept | api/service.go:3246-3345 | The run goes on to sweep a sandbox that the grant is taking over. |
| OrphanSweep.InvHolds | api/orphan_sweep.go:75-101 | The invariant of creators, hand-offs and the sweep in every reachable state. |
| EgressCeiling.SubnetIff | api/egress_ceiling.go:198-201 | Comparing prefix lengths and the first address decides whether one network holds another. |
| EgressCeiling.HalvesSplit | api/egress_ceiling.go:177-204 | A network with a free bit is the disjoint union of the two with one bit more; one without is its address alone. |
| EgressCeiling.EntryWithin | api/egress_ceiling.go:176-215 | The loop accepts exactly when one ceiling entry passes. |
| EgressCeiling.AddressEntryIff | api/egress_ceiling.go:177-204 | An IP or CIDR entry passes a ceiling entry if and only if that entry covers all of its addresses. |
| EgressCeiling.NameEntryIff | api/egress_ceiling.go:205-214 | A domain or wildcard entry passes a ceiling entry if and only if that entry allows every host it allows. |
| EgressCeiling.AllowsIff | api/egress_ceiling.go:205-214 | A wildcard allows exactly the names that end in a dot and its parent, and any other pattern the name itself. |
| EgressCeiling.OutsideCeiling | api/egress_ceiling.go:72-101 | Nothing is reported exactly when the policy stays inside the ceiling; otherwise exactly the offending entries. |
| EgressCeiling.WordIff | api/egress_ceiling.go:76-88 | A one-word policy is inside if and only if it lets nothing through or the ceiling has a word that reaches as far. |
| EgressCeiling.InsideInMeaning | api/egress_ceiling.go:90-101 | A restricted allowlist has nothing outside if and only if every entry, in meaning, is covered by one ceiling entry. |

## Left out

- HTTP handlers, JSON shapes, error codes and texts, metrics, journal lines: no effect on the state reasoned about.
- The substrate and the SQL store: each call is an outcome taken from the step or chosen freely.
- Choosing memory victims and the memory take-back loop: only the admission after it is modelled.
- Tickets: a pass may try any queued ticket next and end at any time, so its results hold for every order and every end; the loop itself is module AdmissionPass.
- AdmissionPass.Queue.TryAdmit: assumes finitely many tickets can be queued during one call; ratios are exact numbers.
- The start-up passes, which rebuild the in-memory maps from the store, and the held-lease rules.
- The proxy, shares, image builds and the language-model gateway: separate from the lease backend's state.
- AdmissionQueue.Queue.CancelForOwner: one caller's work; what others do between its detaching and its refusals is covered by `Tickets.NoTicketDropped` and `Tickets.SweptOwnersAreSettled`.
- AdmissionQueue.Queue.Drain: one caller's work, likewise.
- CatalogGC.Collector.KeepLeases: a lost lease without a loss time counts as lost now; writing that time back and deleting lapsed pin rows are not modelled.
- CatalogGC.Collector.GcPass: the kept set and the candidate loop; failing stale builds, pruning deleted rows, releasing expired leases and reaping orphans are other passes over the same catalogue.
- CatalogGC.CheckedBuildStaysFree: for rows that go or hold less; a row added between the two checks can keep the build, as `CatalogGC.NewChildKeeps` shows.
- EventBus.Bus.Emit: sequence numbers do not wrap at 64 bits; the event's other fields are one opaque payload.
- EventBus.Bus.Unsubscribe: the subscriber's channel and what is left in it are not part of the bus; a closed channel is not modelled.
- EventBus.ExactlyOnce: for one backend run and connections on which nothing is shed; what shedding does to a connection that breaks off is module StreamLoss.
- StreamLoss.MissedIff: one backend run; on the later connections nothing is shed, and every matching event is visible to the client, since the access check made again at each write is not modelled.
- JobCap.ReadAfterCleanRun: over the range reader; the fallback for a substrate without one and a file rolled back by a snapshot restore are not modelled.
- DiskVictims.ChooseVictims: ratios are exact quotients rather than 64-bit floats.
- Reclaim.Box.TakeVictim: the answer of each kept-set check is free; that the second agrees with the first is `CatalogGC.CheckedBuildStaysFree`.
- Reclaim.Box.ReclaimForRoom: assumes finitely many lease ids can be named during one call and that ids are not reused.
- DiskRoom.NoOvergrant: the room without the pending bytes is one number per read; the free space it comes from may change afterwards.
- MemoryAdmission.PromisedWithinSlack: a fixed known cap; the cached hugepage reading is only a possible refusal of a fill, and a sandbox that failed its probe or was discarded counts as gone at once.
- Secrets.CheckpointsAreClean: files the backend staged; a file the guest itself puts under /run/secrets is not.
- DrainGate.ResumeDrained: errors are the answers of the tests the code makes on them; the clock is abstract and does not go back; the shortest and longest pause are positive, as they are after the source has put its defaults in their place.
- Undrain.LosesIntactIff: one lease; its build and the image are not deleted while it names them, as the collector's kept set ensures for the build, and a create answers not-found only for missing files.
- FairShares.CacheIsFresh: the time-to-live only makes a reader compute again, so it is not modelled; every writer invalidates after writing, as the source requires.
- OrphanSweep.SweepSparesOwners: sandbox ids are fresh; a resume that reuses its lease's id and a substrate that chooses the id itself are not modelled.
- EgressCeiling.AddressEntryIff: IPv4-mapped IPv6 forms are not modelled; parsing, trimming and lower-casing are parameters.
