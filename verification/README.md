# Verified models of Project Poutine's stateful cores

Dafny models of five parts of the repository whose correctness spans several functions, processes or whole runs, with proofs about every input, every reachable state and every interleaving. `dafny verify dfyconfig.toml` checks all of it.

1. **The Postgres job queue.** `JobTable` holds the `background_jobs` table and the functions of `pkg/pgqueue` as methods of a `Database` class, each tied to a function from the old table to the new one. `Poller` and `WrapupHandler` are proved against the same functions. `QueueSystem` runs any number of workers over one table: open claim transactions, commits that succeed, fail, or take effect without being reported, one goroutine per claimed job, refused and unreported status updates, crashes, and a clock. `QueueTheorems` states what holds in every reachable state and over every run, `QueueDispatch` who handles a claimed job, what becomes of it and what each step leaves alone, and `QueueRuns` has runs in full that reach the bounds; `ClaimOrder` is about claims that overlap, and `ClaimRuns` carries that over to runs of the workers; `Ingest`, `Events` and `Pipeline` put the durable event consumers in front of the table.
2. **The presence relay.** `Relay` interleaves any number of replicas, each with its own copy of the stream, its subscriptions, its connection table and its receive loops. `RelayReplica` is one replica as its classes are written. `RelayProofs` holds the invariant, `RelayDelivery` the copy counts over whole runs, `RelayDuplicates` a run in full. `Registry` is the connection table against its history; `WsServer` the connection life cycle and shutdown.
3. **The migration runner.** `Migrate` has the loop as a method, resumed runs, and any number of concurrent runners.
4. **The token caches.** `Tokens` and `TenantClient`.
5. **The subject codec.** `Subjects`: printer, parsers, `classify` and the wildcard filters over all strings.

Each state machine has an `Action` datatype with `Enabled` and `Step`; `Valid` and `Run` extend them to lists of actions. Classes carry the source's fields. The postconditions of `JobTable.Database`, `Poller`, `WrapupHandler`, `RelayReplica` and `TenantClient` name the functions that the state machines step with; for `WsServer.Server` and `Migrate.Database.Migrate`, whose calls are several steps, the lemmas `WsServer.ConnectSteps`, `WsServer.DisconnectSteps` and `Migrate.LoopIsMigrated` tie them to the steps. Every lemma switches automatic induction off, so that its proof is its own body and the lemmas it calls.

## What the code does that its documentation does not say

The models follow the code. Where the two differ, a lemma states what the code does.

- `maxAttempts` is described as retrying while attempts are "at or under" it (services/background-worker-pool/internal/wrapupsync/handler.go:24-30); the guard is `<`, so the fifth failure is final (`QueueTheorems.BoundedAttempts`, and `QueueRuns.FifthFailureIsFinal` for a run that gets there).
- services/agent-presence/internal/relay/fanout.go:44-46 concludes that each event is written by one replica. Every replica whose registry holds the slot writes, and each replica that handles the event publishes it, so a holding connection is written one copy per publish: `RelayDelivery.CopiesEqualPublishes` gives the exact count for every run, for each such connection, and `RelayDuplicates.TwoReplicasTwoCopies` a run of two replicas for any forwarded message.
- `classify` accepts an empty tenant token, which no filter matches; elsewhere they agree exactly (`Subjects.ClassifyAgreesWithFilters`, `Subjects.ClassifyAcceptsEmptyTenant`).
- `Shutdown` is said to close every open connection. Of the connections that are upgraded and whose read loop has not ended, it misses exactly those that have not passed their track step, registered or not (`WsServer.ShutdownReaches`); it reaches all of them if and only if no connection is between its upgrade and its track step (`WsServer.ShutdownReachesAll`, with `WsServer.MissedBeforeRegister` and `WsServer.MissedWhenSuperseded` as runs where one is missed).
- Migration files are said to run in name order. A successful run leaves the applied files in name order if and only if they were so before and every file it had to apply sorts after all of them (`Migrate.NameOrderIffMissingLast`; `Migrate.InsertedFileIsAppliedLate` is a run where one does not).
- A claimed row can stay in `processing` for good. In a reachable state that happens exactly when no handler has the row (`QueueTheorems.StuckIffOrphan`), and a worker crash after the commit, a commit that is not reported, and a refused status update all lead there (`QueueRuns.OrphansAreReached`).
- Under the durable consumers an unacked message can be acked by some continuation if and only if the table can store a record for it (`Ingest.NeverAckedIffUndecodable`). For task.completed that fails exactly when the subject does not parse, the data do not decode, the taskId is missing, or the taskId or agentId holds U+0000, which the JSONB column refuses (`Pipeline.NeverAckedIffNoJob`); such a message is redelivered for good.
- The 64-bit product in `nextRunAfter` is exact if and only if attempts are at most 307,445,734 (`WrapupHandler.ProductExactIff`). Beyond that the delay is still right exactly when the wrapped product reaches the cap, and is negative at 307,445,735 (`WrapupHandler.DelayIsCappedLinear`). No reachable state comes near (`QueueTheorems.RetryWait`).

## Assumptions

- The claim is one atomic statement: it takes due, pending, unlocked rows in run_after order, ties open, and holds their locks until its transaction ends. A transaction's own writes are unseen by others until it commits.
- Database and workers read one non-decreasing clock. Time is in microseconds, the resolution of TIMESTAMPTZ; durations are 64-bit nanoseconds.
- `uuid.Parse` is a parameter that is only assumed to read back the canonical text of section 4 of RFC 9562 (`Subjects.Inverts`); `Subjects.DashedParserInverts` shows that such a parser exists.
- A channel subscription is in force once `Fanout.Subscribe` returns, and then receives every later publish once and in order. Any stream message may be delivered to any replica any number of times.
- Of decoded texts the tables refuse exactly those that hold U+0000, which TEXT and JSONB columns do not store; whether a nested field's JSON is accepted is part of the field. Every other insert can succeed.
- The issuer, HTTP responses, decoding of message bytes and the fate of each statement are arbitrary inputs.

## Model

| member | source | states |
|---|---|---|
| QueueTheorems.ExclusiveHolder | pkg/pgqueue/pgqueue.go:42-66 | In every reachable state at most one open claim or handler, over all workers, has a job id; a claimed row is still committed as pending, and a handler's row is processing and equals its snapshot |
| QueueTheorems.UpdatesByIdAreSafe | pkg/pgqueue/pgqueue.go:96-126 | The status updates by id alone always meet the processing row their handler claimed, with the same attempts, are never blocked by a lock, and leave every other row alone |
| QueueTheorems.BoundedAttempts | services/background-worker-pool/internal/wrapupsync/handler.go:30-174 | Attempts equal the number of committed claims and never pass five; a pending row has at most four; a job is posted at most as often as it was claimed |
| QueueTheorems.StepConserves | pkg/pgqueue/pgqueue.go:53-126 | Every claimed row and every effective settle costs exactly one unit of a measure over the table, every insert adds ten, and nothing else changes it |
| QueueTheorems.RunConserves | pkg/pgqueue/poller.go:63-92 | Over every run, claims plus settles equal the measure lost plus ten per insert, and are bounded: without inserts only finitely many happen |
| QueueTheorems.StepIsLater | pkg/pgqueue/pgqueue.go:33-126 | No step removes a row or changes its tenant, type, payload or creation time; attempts never fall; done and failed rows never change |
| QueueTheorems.RowsLast | pkg/pgqueue/pgqueue.go:33-126 | The same over every run: rows are conserved and done and failed are absorbing |
| QueueTheorems.RetryWait | services/background-worker-pool/internal/wrapupsync/handler.go:160-186 | In every reachable state a retry after the k-th claim has k between 1 and 4, is due exactly 30k seconds after the decision and later than before, and its 64-bit product is exact and below the cap |
| QueueTheorems.ClaimsAreSpaced | services/background-worker-pool/internal/wrapupsync/handler.go:180-186 | Over a job's whole life, claim k+1 begins at least 30k seconds after claim k |
| QueueTheorems.FifthClaim | services/background-worker-pool/internal/wrapupsync/handler.go:160-186 | A fifth claim begins at least 300 seconds after the first |
| QueueTheorems.RolledBackClaimIsUndone | pkg/pgqueue/poller.go:64-79 | A rollback, failed commit or crash leaves every row as it was, and each row the claim held is claimable again with its attempts unchanged |
| QueueTheorems.OrphansAreNeverReclaimed | pkg/pgqueue/pgqueue.go:53-66 | A processing row without a handler stays exactly so over every run: nothing takes it back |
| QueueTheorems.StuckIffOrphan | pkg/pgqueue/pgqueue.go:53-126 | In a reachable state a processing row stays processing in every continuation if and only if no handler has it |
| QueueDispatch.CommitDispatches | pkg/pgqueue/poller.go:77-90 | A reported commit starts exactly one handler for each job of its batch and none for anything else, and leaves the handlers there were as they are |
| QueueDispatch.NoLossNoOrphan | pkg/pgqueue/poller.go:77-90 | From a reachable state, a run without a crash, an unreported commit or a refused status update leaves no processing row without a handler that had none |
| QueueDispatch.HandlerOutcome | services/background-worker-pool/internal/wrapupsync/handler.go:67-174 | In every reachable state a handler that decides and updates leaves its row as the spelled-out outcome says, counts a post exactly if the request went out, and changes no other row or handler |
| QueueDispatch.ClaimEnabledExactly | pkg/pgqueue/pgqueue.go:53-66 | A claim step is possible if and only if it is a claim as spelled out: distinct pending, due, unheld rows, at most the limit, none left that is due earlier, none left at all below the limit |
| QueueDispatch.StepIsOwn | pkg/pgqueue/poller.go:63-92 | No step of one worker or its handlers touches another's transaction or handlers |
| QueueDispatch.CrashIsLocal | pkg/pgqueue/poller.go:63-92 | A crash ends its own worker's transaction and handlers and changes no row and nothing else |
| QueueTheorems.HandlerFinishes | services/background-worker-pool/internal/wrapupsync/handler.go:67-174 | From any stage a handler's own remaining steps are possible and take its row out of processing |
| QueueRuns.OrphansAreReached | pkg/pgqueue/poller.go:77-90 | Three runs from an empty table, by a crash after the commit, an unreported commit and a refused update, that leave a processing row without a handler |
| QueueRuns.FifthFailureIsFinal | services/background-worker-pool/internal/wrapupsync/handler.go:160-186 | The bounds are reached: a run in which one job is claimed and posted at 0, 30, 90, 180 and 300 seconds, fails five times and ends failed |
| QueueSystem.StepKeeps | pkg/pgqueue/poller.go:63-92 | Every step of any worker keeps the invariant that ties rows, claim histories, open transactions and handlers together |
| QueueSystem.ReachableInv | pkg/pgqueue/poller.go:63-92 | That invariant holds in every reachable state |
| QueueSystem.HandlersAndClaimsApart | pkg/pgqueue/pgqueue.go:53-66 | No open claim holds a row that a handler is working on |
| QueueSystem.CommitChanges | pkg/pgqueue/poller.go:77-79 | A commit replaces exactly the rows of its batch and extends exactly their histories |
| QueueSystem.SettleChanges | services/background-worker-pool/internal/wrapupsync/handler.go:67-174 | A settle turns the handler's own processing row into done, failed, or pending at the retry time, and no other row |
| QueueSystem.RetryIsSpaced | services/background-worker-pool/internal/wrapupsync/handler.go:160-186 | A retry is only decided for a wrap-up row of one to four attempts, for a time the full backoff after both the decision and the claim |
| JobTable.Database.ClaimJobs | pkg/pgqueue/pgqueue.go:53-84 | The loop takes as many due, pending, unlocked rows as the limit and the table allow, none left behind is due earlier than one taken, each snapshot differs in status and attempts + 1 only; a negative limit is an error without effect |
| JobTable.Database.Enqueue | pkg/pgqueue/pgqueue.go:33-42 | One new pending row with no attempts, unless the insert is refused |
| JobTable.Database.Commit | pkg/pgqueue/poller.go:77-79 | The claimed versions become the committed rows and the locks go, or only the locks go |
| JobTable.Database.Rollback | pkg/pgqueue/poller.go:68 | The locks go and the rows stay |
| JobTable.Database.MarkDone | pkg/pgqueue/pgqueue.go:96-102 | The row with the id, whatever its status, becomes done; no such row is no error |
| JobTable.Database.MarkFailed | pkg/pgqueue/pgqueue.go:111-126 | The row with the id becomes pending at the retry time, or failed |
| JobTable.InstallMeaning | pkg/pgqueue/pgqueue.go:61-65 | Committing a batch of distinct ids sets those rows and keeps all others |
| JobTable.TakenIsSelection | pkg/pgqueue/pgqueue.go:54-60 | Rows taken one by one in run_after order until the limit or the end are a least choice of the right size |
| JobTable.ClaimableIs | pkg/pgqueue/pgqueue.go:54-66 | Every claim of the model is one as spelled out row by row |
| JobTable.ClaimIsClaimable | pkg/pgqueue/pgqueue.go:54-66 | And every one so spelled out is a claim of the model |
| ClaimOrder.OverlappingClaimsAreOneClaim | pkg/pgqueue/pgqueue.go:54-66 | Any number of overlapping claims, each skipping what the earlier ones locked, take disjoint rows that together are one claim's choice of as many rows |
| ClaimOrder.SameInstantClaimsAddUp | pkg/pgqueue/pgqueue.go:54-66 | Overlapping claims at one instant take together what a single claim with the summed limit takes |
| ClaimOrder.NextClaim | pkg/pgqueue/pgqueue.go:54-60 | A claim on top of a choice already locked extends it to a larger choice of the same kind |
| ClaimOrder.CommitsCommute | pkg/pgqueue/pgqueue.go:61-65 | Two disjoint batches give the same table in either order of commit, and as one batch |
| ClaimRuns.RunClaimsAreOneClaim | pkg/pgqueue/pgqueue.go:54-66 | From a reachable state, over every run of claims, commits, handlers and inserts in which no claim is given up and nothing becomes due by the horizon of the claims: the rows claimed are as many as the claims took and together one claim's choice of the starting table at the latest transaction time; at the end each is locked or no longer due |
| ClaimRuns.SameInstantRunClaims | pkg/pgqueue/pgqueue.go:54-66 | If those transactions began at one time, the rows are what one claim with the summed limit takes then |
| ClaimRuns.OverlappingClaimsCommitAsOne | pkg/pgqueue/poller.go:64-79 | Over every interleaving of claims and commits after which what was claimed is committed, the table is the one that committing a single claim of those rows leaves |
| ClaimRuns.RunCommits | pkg/pgqueue/poller.go:77-79 | Over every run in which only commits change rows, they turn exactly the rows their workers held, each pending until then and each once, into their claimed versions |
| ClaimRuns.StepIsQuiet | pkg/pgqueue/pgqueue.go:53-126 | A step that gives up no claim and makes nothing due keeps every free due row free and unchanged, but for those it claims, and frees no other |
| Poller.PollOnce | pkg/pgqueue/poller.go:63-92 | Jobs are dispatched only after their claim's commit was reported; on every path the transaction is closed; on every path but an effective commit the table is unchanged |
| WrapupHandler.HandleJob | services/background-worker-pool/internal/wrapupsync/handler.go:67-78 | After an effective update the row is done exactly if a decodable wrap-up job's target was found, its request was built and the answer was 200 to 299; pending, 30 seconds per attempt from now, exactly if the lookup or the sent request failed below five attempts; failed in every other case; nothing else of it and no other row changes; the request went out exactly if all checks passed |
| WrapupHandler.HandleWrapupSync | services/background-worker-pool/internal/wrapupsync/handler.go:83-153 | The same for a wrap-up job, branch by branch of the source |
| WrapupHandler.DecisionOutcome | services/background-worker-pool/internal/wrapupsync/handler.go:67-174 | The verdict that the worker system steps with has that same outcome on the table |
| WrapupHandler.RetryOrFail | services/background-worker-pool/internal/wrapupsync/handler.go:160-174 | Pending again with backoff exactly while attempts are below five, failed otherwise |
| WrapupHandler.ProductExactIff | services/background-worker-pool/internal/wrapupsync/handler.go:180-186 | The 64-bit product of attempts and base backoff is exact if and only if attempts are at most 307,445,734 |
| WrapupHandler.DelayIsCappedLinear | services/background-worker-pool/internal/wrapupsync/handler.go:180-186 | The delay is the smaller of 30 seconds per attempt and five minutes if and only if the product is exact or its wrapped value reaches the cap; the cap takes over at ten attempts; the first inexact attempt gives a negative delay |
| WrapupHandler.RetryDelayExact | services/background-worker-pool/internal/wrapupsync/handler.go:37-40 | Below the cutoff the cap is never reached: the wait is exactly 30 seconds per attempt |
| Events.HandleCompleted | services/background-worker-pool/internal/wrapupsync/consumer.go:136-184 | A message whose subject parses and whose fields hold a non-empty taskId becomes one pending wrapup_sync row with that taskId, the agentId or the empty text, the subject's tenant, and now as run_after and created_at, if the texts can be stored; any other is an error and inserts nothing |
| Events.AskedJob | services/background-worker-pool/internal/wrapupsync/consumer.go:136-176 | The job a message is decoded to is exactly the one its subject and fields ask for |
| Events.HandleEvent | services/historical-reporting/internal/eventconsumer/consumer.go:159-188 | A message whose subject parses and whose data decode appends one record with the three parts, the subject and all fields, if they can be stored; any other is an error and stores nothing |
| Events.ToldEvent | services/historical-reporting/internal/eventconsumer/consumer.go:159-188 | The event a message is decoded to is exactly the one its subject and fields tell |
| Ingest.StepKeeps | pkg/eventbus/eventbus.go:165-174 | Deliveries, handlers, crashes and acks keep the invariant that counts records and pending inserts per message |
| Ingest.AckedIsStored | pkg/eventbus/eventbus.go:165-174 | After every run an acked message has a record, every record is what its message decodes to, and no message has more records than deliveries |
| Ingest.UndecodableIsNeverAcked | pkg/eventbus/eventbus.go:165-171 | A message without a storable record is not acked in any run |
| Ingest.NeverAckedIffUndecodable | pkg/eventbus/eventbus.go:165-174 | In a reachable state an unacked message stays unacked in every continuation if and only if the table can store no record for it |
| Ingest.DecodableCanBeAcked | pkg/eventbus/eventbus.go:165-174 | From any state an unacked message with a storable record is acked by one delivery whose insert succeeds |
| Pipeline.EveryAckedEventHasItsJob | services/background-worker-pool/internal/wrapupsync/consumer.go:136-184 | In every reachable state of consumer and workers together, an acked task.completed event has a wrap-up row whose whole payload is the event's taskId, its agentId or the empty text, and its subject's tenant, and no more rows than deliveries |
| Pipeline.ConsumeInserts | services/background-worker-pool/internal/wrapupsync/consumer.go:159-176 | A consumer step inserts exactly its message's job, due and created at the present time, or nothing |
| Pipeline.PostsPerDelivery | services/background-worker-pool/internal/wrapupsync/handler.go:30-174 | In every reachable state of consumer and workers together, the posts of all of a message's jobs are at most five per delivery of the message |
| Pipeline.NeverAckedIffNoJob | services/background-worker-pool/internal/wrapupsync/consumer.go:136-184 | In a reachable state of both, an unacked task event stays unacked in every continuation if and only if it does not decode to a job or holds a text the column refuses |
| Pipeline.StepKeeps | services/background-worker-pool/internal/wrapupsync/consumer.go:136-184 | Every step of the consumer, the workers or another producer keeps each consumed event linked to a row that carries its contents |
| Pipeline.EveryAckedEventIsInTheHistory | services/historical-reporting/internal/eventconsumer/consumer.go:159-188 | An acked event published through eventbus.Subject is stored under the same three parts, with its subject and all its fields |
| RelayDelivery.OwnerGetsItsCopies | services/agent-presence/internal/relay/consumer.go:98-147 | If the owner of a steadily held slot publishes an event and drains its queue, the connection was written the event at least once, exactly as often as publishes of it were popped, and at most once per delivery |
| RelayDelivery.CopiesEqualPublishes | services/agent-presence/internal/relay/fanout.go:41-47 | Over every run in which a connection keeps its slot, from any start: copies written plus copies still queued equal copies queued before plus the publishes, by any replica, since its replica subscribed; these are all publishes of the run if it was subscribed at the start |
| RelayDelivery.CopiesAtMostDeliveries | services/agent-presence/internal/relay/fanout.go:101-145 | Over any steady run the copies written are the popped publishes, at most the handle calls of all replicas for the event |
| RelayDelivery.SteadyProgress | services/agent-presence/internal/relay/fanout.go:101-145 | Over any run in which a connection keeps its slot, it is written exactly the popped messages for its agent, in channel order |
| RelayDelivery.ChannelCountsPublishes | services/agent-presence/internal/relay/fanout.go:82-91 | A tenant's channel gains exactly the run's effective publishes of each event |
| RelayDelivery.DeliveryPublishes | services/agent-presence/internal/relay/consumer.go:98-131 | In every reachable state a delivery of a forwarded message can be handled to its end, and then counts once, has subscribed its replica and has appended exactly that message to its tenant's channel |
| RelayProofs.PublisherReceivesOwnCopy | services/agent-presence/internal/relay/consumer.go:123-147 | A publishing replica is subscribed by then, and its publish goes to the end of the queue of every subscribed replica, its own included |
| RelayProofs.QueueIsUnseenChannel | services/agent-presence/internal/relay/fanout.go:101-119 | seenTenants is what a replica is subscribed to; popped plus queued messages are exactly the publishes since its one subscription, in order |
| RelayProofs.WritesGoToTheOccupant | services/agent-presence/internal/relay/fanout.go:127-145 | A pop writes its message to the connection that then holds the slot on that replica, or to none, and no other step writes |
| Relay.AnnouncedIsForwarded | services/agent-presence/internal/relay/envelope.go:79-89 | For every event type and message: if that type's filter matches and agentId is a non-empty text, the message is forwarded as that type, to the wildcard's tenant and that agent, with all its fields |
| Relay.DroppedIffUnannounced | services/agent-presence/internal/relay/consumer.go:98-121 | Unless its tenant token is empty, a message is dropped if and only if no filter matches, the data do not decode, or agentId is absent, not a text or empty |
| Relay.TenantMissingForwarded | services/agent-presence/internal/relay/subjects.go:56-78 | With an empty tenant token a message is forwarded, to the empty tenant, exactly as with another token in its place |
| RelayProofs.EmitTakesAnnounced | services/agent-presence/internal/relay/consumer.go:98-121 | The relay's steps take each stream message as exactly what it announces |
| RelayProofs.CrashIsLocal | services/agent-presence/internal/relay/consumer.go:98-147 | A replica's crash takes its own subscriptions, connections and handlings and touches no other replica |
| RelayProofs.StepKeeps | services/agent-presence/internal/relay/consumer.go:98-147 | Every step of any replica keeps the invariant of subscriptions, queues, handlers and delivery counts |
| RelayDuplicates.TwoReplicasTwoCopies | services/agent-presence/internal/relay/fanout.go:41-47 | For any forwarded message, a run in which two replicas handle it once each: the one that holds the connection writes it twice, the other not at all |
| RelayDuplicates.DeletedIsForwarded | services/agent-presence/internal/relay/consumer.go:98-121 | An agent-deleted message with a non-empty agentId is forwarded under its subject's tenant, whatever the agentId |
| RelayReplica.Consumer.Handle | services/agent-presence/internal/relay/consumer.go:98-131 | The channel gains exactly the envelope that the message's tokens and fields announce, or a message that announces nothing is dropped without effect; the replica subscribes first and publishes second, so an effective publish is in its own queue on return and in every other subscriber's; only an unreported or lost publish is an error |
| RelayReplica.Consumer.EnsureSubscribed | services/agent-presence/internal/relay/consumer.go:139-147 | The first sight of a tenant subscribes from the channel's present end; later ones change nothing |
| RelayReplica.Fanout.Publish | services/agent-presence/internal/relay/fanout.go:82-91 | A publish reaches the queue of every subscription to the channel, or none |
| RelayReplica.Fanout.Receive | services/agent-presence/internal/relay/fanout.go:101-119 | n turns of the receive loop are n pops of the relay model, in order |
| RelayReplica.Fanout.DeliverIfLocal | services/agent-presence/internal/relay/fanout.go:127-145 | One write to the slot's occupant, or nothing when there is none |
| Registry.LookupMeaning | services/agent-presence/internal/registry/registry.go:74-127 | A slot holds c exactly when c's registration is its last one and neither Unregister nor c's own cleanup followed |
| Registry.CleanupNeverEvictsSuccessor | services/agent-presence/internal/registry/registry.go:110-117 | A superseded connection's cleanup changes nothing, and no call changes another slot |
| Registry.Registry.Register | services/agent-presence/internal/registry/registry.go:74-86 | An empty id or nil connection is refused without effect; otherwise the registration is the newest event |
| Registry.Registry.Unregister | services/agent-presence/internal/registry/registry.go:96-101 | The slot is emptied, whoever holds it |
| Registry.Registry.UnregisterIfCurrent | services/agent-presence/internal/registry/registry.go:110-117 | The slot is emptied only if this connection holds it |
| Registry.Registry.Lookup | services/agent-presence/internal/registry/registry.go:121-127 | The answer is c exactly when c's registration still stands in the history |
| Registry.Registry.Len | services/agent-presence/internal/registry/registry.go:131-135 | The number of slots held after the history of calls |
| WsServer.SlotHoldsLastLive | services/agent-presence/internal/wsserver/wsserver.go:204-227 | Over all interleavings of connects and deferred disconnects, a slot holds the last connection that registered for it if its own disconnect has not run, otherwise none |
| WsServer.TrackingCoversRegistry | services/agent-presence/internal/wsserver/wsserver.go:210-236 | An occupant is in the tracked set exactly from its own track step on |
| WsServer.ShutdownReaches | services/agent-presence/internal/wsserver/wsserver.go:196-236 | In every reachable state an upgraded connection whose read loop has not ended is in Shutdown's snapshot if and only if it is past its track step |
| WsServer.ShutdownReachesAll | services/agent-presence/internal/wsserver/wsserver.go:306-322 | The snapshot covers every open connection if and only if none is between its upgrade and its track step |
| WsServer.MissedBeforeRegister | services/agent-presence/internal/wsserver/wsserver.go:196-210 | A run with an open, untracked connection that no slot holds yet |
| WsServer.MissedWhenSuperseded | services/agent-presence/internal/wsserver/wsserver.go:210-216 | A run with an open, untracked connection whose slot a second, tracked connection has taken |
| WsServer.ConnectSteps | services/agent-presence/internal/wsserver/wsserver.go:210-216 | The register and track steps together record the registration and track the connection, or with an empty id do neither |
| WsServer.DisconnectSteps | services/agent-presence/internal/wsserver/wsserver.go:221-227 | The two deferred steps together record the cleanup and untrack the connection |
| WsServer.StepIsOwn | services/agent-presence/internal/wsserver/wsserver.go:204-236 | No step moves another connection or changes whether it is tracked |
| WsServer.ShutdownGap | services/agent-presence/internal/wsserver/wsserver.go:210-216 | A run, for any slot, after which the slot's own holder is open and not in the snapshot |
| WsServer.Server.Shutdown | services/agent-presence/internal/wsserver/wsserver.go:311-322 | Closes each tracked connection exactly once and no other |
| WsServer.Server.Connect | services/agent-presence/internal/wsserver/wsserver.go:204-216 | Registers and then tracks, or refuses empty ids with neither |
| WsServer.Server.Disconnect | services/agent-presence/internal/wsserver/wsserver.go:221-227 | Cleans up only its own registration and untracks itself |
| Migrate.ConcurrentRunnersAreSafe | services/background-worker-pool/internal/pgstore/migrate.go:99-179 | For any number of runners and any interleaving, the committed files are a duplicate-free prefix of the name order and equal the tracking table; one runner at a time holds the lock; a runner that grants or has finished has all its files applied |
| Migrate.ApplyExtendsPrefix | services/background-worker-pool/internal/pgstore/migrate.go:125-156 | Whichever runner commits a file, it is the next one of the common order |
| Migrate.StepKeeps | services/historical-reporting/internal/pgstore/migrate.go:108-191 | Every check, apply, failure, crash and lock step keeps the prefix and tracking invariant |
| Migrate.Database.Migrate | services/background-worker-pool/internal/pgstore/migrate.go:79-182 | The loop applies and records exactly the missing files in order up to the first failure; it grants only after all of them |
| Migrate.MigrationNames | services/background-worker-pool/internal/pgstore/migrate.go:112-123 | Exactly the .sql files, none twice, in name order |
| Migrate.RunExtends | services/background-worker-pool/internal/pgstore/migrate.go:125-156 | A run never takes a file back, and one without an error leaves all of its files applied |
| Migrate.MigratedExactly | services/background-worker-pool/internal/pgstore/migrate.go:125-156 | A run stops at the first file whose check fails or that is missing and does not commit cleanly, with an error exactly then; it has appended the missing files before it in order, and that file only if its commit took effect unreported |
| Migrate.FailedStaysUnapplied | services/background-worker-pool/internal/pgstore/migrate.go:136-156 | A file whose check or application fails is not among the applied ones |
| Migrate.ApplyEffects | services/background-worker-pool/internal/pgstore/migrate.go:136-156 | A runner that meets a name another has recorded stops without effect; else file and record are committed together |
| Migrate.StepIsOwn | services/background-worker-pool/internal/pgstore/migrate.go:99-179 | No step moves another runner or takes its lock |
| Migrate.PrefixStaysPrefix | services/historical-reporting/internal/pgstore/migrate.go:134-165 | Started on a prefix of the files, a run ends on a prefix at least as long, on all of them if it reports no error |
| Migrate.ResumeEqualsCleanRun | services/background-worker-pool/internal/pgstore/migrate.go:123-156 | After any number of runs stopped anywhere, one that succeeds leaves the log and schema of one uninterrupted run, and a further run applies nothing |
| Migrate.NameOrderIffMissingLast | services/background-worker-pool/internal/pgstore/migrate.go:114-156 | A successful run leaves the applied files in name order if and only if they were in name order and each missing file sorts after every applied one |
| Migrate.OwnFilesIffPrefix | services/background-worker-pool/internal/pgstore/migrate.go:125-156 | A successful run leaves exactly its own files, in its order, if and only if it started on a prefix of them |
| Migrate.InsertedFileIsAppliedLate | services/background-worker-pool/internal/pgstore/migrate.go:125-156 | One successful run, over b.sql applied and a.sql added, that leaves the files out of name order |
| Migrate.LoopIsMigrated | services/background-worker-pool/internal/pgstore/migrate.go:125-156 | The method's loop is a run of the concurrent model: a runner by itself has steps that end on the log and error that the loop's specification gives, for any outcome of each file |
| Tokens.IssueBound | pkg/jwtauth/client.go:99-114 | For calls at non-decreasing times and non-empty tokens that live at least T, successful issues number at most 1 + span / (T - margin) |
| Tokens.AnswersAreCurrent | pkg/jwtauth/client.go:99-114 | A returned token was just issued, or issued earlier and more than the margin from its expiry; a failed call leaves the cache as it was |
| Tokens.CacheWasIssued | pkg/jwtauth/client.go:107-113 | The cached pair of token and expiry came from one and the same issue |
| Tokens.TokenSource.Token | pkg/jwtauth/client.go:99-114 | Answer, new cache and whether the issuer was asked, for every cache, time and issuer answer |
| Tokens.TokenSource.constructor | pkg/jwtauth/client.go:87-92 | The margin is 30 seconds unless a positive one is given; the cache starts empty |
| TenantClient.TenantsAreIsolated | services/digital-channels-gateway/internal/webhookapi/taskrouterclient.go:94-127 | In any mix of requests, a tenant's cache is that of a source used for its own requests alone |
| TenantClient.TokensStayWithTheirTenant | services/digital-channels-gateway/internal/webhookapi/taskrouterclient.go:114-127 | Every token used for a tenant was issued for that tenant and is current |
| TenantClient.TokenUsedExactly | services/digital-channels-gateway/internal/webhookapi/taskrouterclient.go:114-127 | Over every run, a request goes without a token if and only if its tenant never got a source, or its cached token would not do and the issue failed; otherwise it uses the token its tenant's cache holds afterwards |
| TenantClient.TenantIssueBound | services/digital-channels-gateway/internal/webhookapi/taskrouterclient.go:114-127 | The issue bound holds per tenant in any mix |
| TenantClient.ClosersMatchSources | services/digital-channels-gateway/internal/webhookapi/taskrouterclient.go:94-109 | Over any run, closers and sources stay one to one |
| TenantClient.RequestKeepsConnections | services/digital-channels-gateway/internal/webhookapi/taskrouterclient.go:98-100 | No request replaces an existing source or drops a closer |
| TenantClient.CloseReleasesEachOnce | services/digital-channels-gateway/internal/webhookapi/taskrouterclient.go:82-92 | One Close releases each source's connection once and nothing else |
| TenantClient.TenantScopedTaskRouterClient.Close | services/digital-channels-gateway/internal/webhookapi/taskrouterclient.go:82-92 | Every closer runs, whichever fail, and the first failure is returned |
| TenantClient.FirstFailureMeaning | services/digital-channels-gateway/internal/webhookapi/taskrouterclient.go:85-91 | The error returned is that of the first closer that fails, and there is none only if none fails |
| TenantClient.TenantScopedTaskRouterClient.TokenSourceFor | services/digital-channels-gateway/internal/webhookapi/taskrouterclient.go:94-109 | An existing source is returned as it is; a failed dial leaves no trace; otherwise one source and one closer are added |
| TenantClient.TenantScopedTaskRouterClient.EnqueueTask | services/digital-channels-gateway/internal/webhookapi/taskrouterclient.go:114-127 | Uses and updates the named tenant's cache only |
| Subjects.SubjectRoundTrip | pkg/eventbus/eventbus.go:29-31 | Parsing a printed subject gives its parts back if and only if the domain is non-empty and dot-free and the event type non-empty; dots in the event type survive |
| Subjects.SubjectInjective | pkg/eventbus/eventbus.go:29-31 | Equal subjects of well-formed parts have equal parts |
| Subjects.SubjectTokens | pkg/eventbus/eventbus.go:29-31 | A printed subject's tokens are the word tenant, the canonical id, the domain, and those of the event type |
| Subjects.ParseRefusals | services/historical-reporting/internal/eventconsumer/subject.go:31-59 | Which of the five errors is reported, as an exact condition on the subject's tokens for each |
| Subjects.ReprintExactlyCanonical | services/historical-reporting/internal/eventconsumer/subject.go:31-59 | Printing a successful parse gives the text back if and only if its tenant segment was canonical |
| Subjects.UpperCaseTenantReprints | services/background-worker-pool/internal/wrapupsync/subject.go:33-61 | A subject that parses but prints differently |
| Subjects.SplitNMeaning | services/historical-reporting/internal/eventconsumer/subject.go:32-35 | SplitN is Split with the pieces from the n-th on joined again |
| Subjects.JoinSplit | services/agent-presence/internal/relay/subjects.go:57-64 | Joining the pieces of any text gives it back, and no piece holds a dot |
| Subjects.ClassifyAgreesWithFilters | services/agent-presence/internal/relay/subjects.go:26-78 | classify names an event type with a non-empty tenant if and only if that type's filter matches, and the tenant is the wildcard's token |
| Subjects.FiltersExclusive | services/agent-presence/internal/relay/subjects.go:26-47 | No subject matches two filters |
| Subjects.ClassifyAcceptsEmptyTenant | services/agent-presence/internal/relay/subjects.go:56-78 | A subject that classify accepts and no filter matches |
| Subjects.EmptyTenantKinds | services/agent-presence/internal/relay/subjects.go:56-78 | With an empty tenant token classify gives a type exactly when that type's filter would match with another token in its place |
| Subjects.ClassifyAgreesWithParser | services/agent-presence/internal/relay/subjects.go:56-78 | Where classify and parseSubject both accept, tenant, domain and event type agree |

## Left out

- Task Router's matching engine and the generated code under pkg/genproto.
- Token signing and verification, HTTP, sockets, JSON and protobuf encoding: their outcomes are inputs, and a message's bytes are a decoded field map or undecodable.
- PostgreSQL, JetStream and Redis themselves: their guarantees are the step rules listed under Assumptions. Rechecking a row version under READ COMMITTED is inside the claim's one step.
- Redis drops and reconnects: a subscription in the model loses nothing. The Pub/Sub client's bounded buffer is not modelled.
- Poller.Run's ticker loop, contexts and graceful stop: a poll may happen at any moment.
- Liveness: nothing says that a job is eventually done or an event eventually delivered; the code has no reaper for rows whose worker died.
- Consumer start positions: SubscribeEphemeral sets no deliver policy although its comment promises events from about now on; the model lets any message reach any replica, so no result rests on it.
- Wsserver authentication, ResolveClaims and the read loop's payloads.
- Role and GRANT text, configuration, logging and deployment files.
- The further UUID spellings that uuid.Parse accepts, beyond what is assumed of the parser.
- WsServer.Server.Shutdown: the order in which a Go map is walked is left open, and close errors are ignored as in the source.
- Migrate.Database.Migrate: a file's SQL is its name in the log; a failing file and a failing record are one outcome, because both roll the transaction back.
- A second Close of the tenant client: the code keeps its closers, so it would release each connection again; only one Close is stated.
- The column widths of the table: ids are unbounded and attempts are proved to stay below six.
