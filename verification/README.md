# GeoGuessMe: verified models of its concurrent and algorithmic cores

A Dafny 4.11 project that models the parts of GeoGuessMe whose correctness depends on
interleavings, loops or algebra, and proves what their documentation promises of them.
`dafny verify dfyconfig.toml` checks everything.

## What is modelled

Protocols are state machines over atomic steps: one step per database transaction, per
object-store call, per atomic operation on shared memory, per callback of the browser.
`Enabled` says when a step can happen, `Step` what it does, and the theorems speak of
every run from the initial state. Code that changes one object in place is a class whose
methods are tied to a specification function of its state.

- **Publication** (`groups.go`, `handlers/feed/media.go`): reservations under advisory
  locks, puts, commits that report an error and are decided later, Resolve, compensation,
  the deletion worker, retention, and the author's delete. **PublicationLeaks** says which
  of its steps leave objects behind, **PublicationProgress** that they lead to its end
  and that nothing comes back: neither a retired photo nor an ended deletion job.
- **MediaJobs, MediaProcessing** (`media_processing.go`, `media_jobs.go`, `cleanup.go`,
  `worker.go`): the rows and their transactions; uploads, workers with lease tokens that
  may resume after a requeue, sweeps and queue drains. **MediaSources** and **MediaResults**
  follow the raw and the canonical objects through every run, whatever fails and whatever
  failed calls did all the same; **MediaObjects** shows that nothing leaks when they did
  nothing. **MediaTimes** says how long claims and jobs last, **MediaProgress** that the
  steps lead to their end.
- **ChatSocket, ChatRestart, ChatCallbacks, ChatDelivery** (`chatSocketController.ts`, the stable cursor of
  `useGroupMessages.ts`, the paging of `repository/chat/messages.go`): tickets, sockets,
  timers and page replies in any order; what the host has been given.
- **Hub, HubRuns** (`hub.go`): the indexes, the bounded queues, and the revalidation sweeps.
- **MessageLog, MessageRules, ChatStream, ChatStreamFields** (`messageLog.ts`,
  `chatStream.ts`): merging and the reducer.
- **Limiter, LimiterStore, LimiterWindow, LimiterRuns** (`limiter.go`): the decision as a
  function, the store with counters shared by reference, and what a fixed window admits over
  time.
- **Geography, GeographyScan** (`countries.go`): ray casting with and without the bounding
  boxes, and what it decides.
- **Elo, EloMeaning** (`elo.go`): the double loop and the replay, over exact reals.
- **ObjectUrlCache, ObjectUrlRuns** (`objectUrlCache.ts`) and **PushNotifier, PushRuns**
  (`notifier.go`).
- **Ordering, Rounding**: orders, a stable sort and rounding shared by the others.

Times are integers. Floating-point numbers are reals; `10^x` is any function that is
positive and whose values at `d` and `-d` multiply to 1 (`Elo.IsPow`). Outcomes of foreign
calls (database, object store, network, timers) are part of the step taken.

## Where the code does not do what is said of it

Each is a concrete run or input, beside a theorem that says exactly when the promise holds.

- Reconnecting is said to skip nothing (`docs/api.md:20-30`,
  `chatSocketController.ts:138-141`). A catch-up page that is empty has no stable cursor,
  the host stores the empty string (`useGroupMessages.ts:163`), and the next reconnect asks
  for the latest 50 messages only: `ChatDelivery.EmptyPageLosesTheCursor`. A page that
  arrives after its generation was superseded moves the cursor too:
  `ChatDelivery.LatePageMovesTheCursor`. Nothing is missing if and only if the first page
  (or the socket's queue) starts no later than the first message the host lacks:
  `ChatDelivery.CompleteIffBridged`, `ChatDelivery.FirstPageBridges`.
- Retries are said never to overwrite or clean up another request's objects
  (`groups.go:66-70`). The author's delete removes the public_challenges row but leaves the
  group photos live; reusing the idempotency key then overwrites their objects, fails on
  the photo row, and deletes them: `Publication.RetryAfterDeleteLosesPhoto`. So does the
  compensation of an uncertain commit whose publication the author deletes before Resolve:
  `Publication.DeleteBeforeResolveLosesPhoto`. Either is safe if and only if no live photo
  has one of the request's keys:
  `Publication.ReservationSafeIffKeysFree`, `Publication.CompensationSafeIffKeysFree`.
- Once Stop has returned, the queue gauge need not be 0 when two Stop calls overlap
  (`notifier.go:117-136`): `PushNotifier.StopReturnsWithGaugeRaised`. It is 0 if and only if
  no other Stop call is between receiving a leftover and lowering the gauge:
  `PushNotifier.GaugeZeroAfterStop`.
- With the tolerance of 1e-10 the bounding boxes can change an answer, for points just
  outside a box: `Geography.ToleranceOverhangsTheBox`. `Geography.BoxTestExactIff` says
  exactly when they cannot.
- A second start of the socket controller takes the generation back to 0 and revives
  sequences of the first: `ChatRestart.RestartRevivesTheFirstSequence`. A start, the
  first or any later one, keeps one live socket and one timer and answers no page request
  from before if and only if no timer, ticket request, page request or live socket is
  pending when it comes: `ChatRestart.CleanIffNothingPending`.
- Compensation is said to leave no raw bytes unowned (`backend/handlers/photo.go:132-137`). If
  recording a job reports an error but has committed, it deletes the source of a queued
  job: `MediaSources.UncertainRecordLosesSource`. In any run all queued and processing jobs
  keep their sources if and only if no compensation deletes while its own upload's job is
  queued or processing, `MediaSources.SourcesKeptIff`; straight after the failure that is
  if and only if there is no job row, `MediaSources.CompensationSafeIffNoJob`. If it only
  queues the key, a drain may later complete the deletion job with the object still there:
  `MediaSources.QueuedCompensationLeavesSource`, and `MediaSources.FinishedCoveredIff` for
  exactly when.
- The media worker does not clean up the key whose put failed (`worker.go:252-256`):
  `MediaResults.FailedPutLeaks`. The object stays for ever without an owner if and only if
  the put stored it: `MediaResults.FailedPutLeaksIffStored`.
- A completion that fails but has committed lets the worker's cleanup delete a live photo's
  object (`worker.go:274-285`): `MediaResults.UncertainCommitLosesPhoto`. In any run live
  records keep their objects if and only if no cleanup deletes a key that has a live record,
  `MediaResults.LiveKeptIff`; straight after the failure that is if and only if none of the
  worker's keys has one, `MediaResults.CleanUpSafeIffNoneLive`.
- The update factor is called the most that two equally rated players can exchange on one
  comparison (`elo.go:32-35`); they exchange half of it, `EloMeaning.EqualsExchangeHalf`,
  and no two players exchange as much as the factor, `EloMeaning.HigherScoreGains`.
- Publications can leave objects behind: on a conflict after an uncertain commit
  (`media.go:168-170`), `PublicationLeaks.ConflictLeavesObject`, and when a deletion job is
  completed while the author's delete drops the reference it was kept for
  (`media_jobs.go:104-119`), `PublicationLeaks.DrainForgetsObject`.
  `PublicationLeaks.PublicationsLeakIff` says exactly which steps can.

## Model

| member | source | states |
|---|---|---|
| Publication.CommittedObjectsSurvive | backend/internal/repository/groups.go:71-289 | In every interleaving in which reservations find their keys free of live photos, each committed and unretired row has its object as its own publication wrote it |
| Publication.ReservationSafeIffKeysFree | backend/internal/repository/groups.go:109-148 | A reservation that goes ahead can store all its objects without overwriting a committed one if and only if no live photo has one of its keys |
| Publication.CompensationSafeIffKeysFree | backend/internal/repository/groups.go:167-195 | The same of the compensation after Resolve finds no row |
| Publication.RetryAfterDeleteLosesPhoto | backend/handlers/feed/media.go:125-176 | A run in which a retry after the author's delete leaves a live group photo without its object |
| Publication.DeleteBeforeResolveLosesPhoto | backend/handlers/feed/media.go:149-176 | A run in which the author deletes between an uncertain commit and Resolve, and compensation deletes the live photo's object |
| Publication.AtMostOnePublication | backend/internal/repository/groups.go:248-289 | Commits under an idempotency key are the author's deletes plus the row in place, so at most one without deletes, uncertain commits included |
| Publication.AnswersAreTrue | backend/handlers/feed/media.go:107-184 | Every 200 or 201 has a committed publication with the request's owner, metadata and groups; a 201 its own |
| Publication.RowInPlaceWhenAnswering | backend/handlers/feed/media.go:107-184 | At the step that decides 200 or 201 the matching row is in place, for a 201 with the request's token |
| Publication.ReserveAnswersExactly | backend/internal/repository/groups.go:113-148 | With a publication of the key in place, a reservation is answered 200 if and only if it has the request's owner, metadata and groups, in whatever order they were listed, else 409; with none it goes ahead |
| Publication.ResolveAnswersExactly | backend/internal/repository/groups.go:199-240 | After an uncertain commit the answer is 201, with a broadcast, if and only if the publication in place is the upload's own; another's is 200 if it is the same publication, else 409; with none it compensates |
| Publication.BroadcastOnce | backend/handlers/feed/media.go:160-184 | No publication is broadcast twice, and only by the upload whose token its row stores, exactly when it answers 201 |
| Publication.StepKeepsLocks | backend/internal/repository/groups.go:83-107 | Every step keeps: whoever works on objects holds all their locks, finds no row, and has written what it says |
| PublicationProgress.PublishingSucceeds | backend/handlers/feed/media.go:107-184 | A new request whose keys are free and which is not disturbed is stored, committed, answered 201 and broadcast, and holds no lock any more |
| PublicationProgress.CompensationEnds | backend/internal/repository/groups.go:235-247 | Compensation that has nothing left to do gives back exactly its own locks |
| PublicationProgress.DrainDecides | backend/internal/repository/media_jobs.go:95-123 | An undisturbed drain deletes the object if and only if nothing refers to it, and completes the deletion job either way |
| PublicationProgress.LateWorkerCompletesNothing | backend/internal/repository/media_jobs.go:98-123 | A cleanup worker whose deletion job has ended meanwhile completes no other: jobs queued later for the same key stay queued, however late the worker is |
| PublicationProgress.RetiredForGood | backend/internal/repository/cleanup.go:184-220 | A photo that retention has removed is queued for deletion and nothing refers to its object again in any continuation, commits still undecided at the time included; every other object is referred to as before |
| Publication.SortedGroupsCompareSets | backend/internal/repository/groups.go:342-357 | Comparing sorted group lists decides equality of the group sets |
| Publication.SameGroupIDs | backend/internal/repository/groups.go:348-357 | The loop decides list equality |
| Publication.Media.CompensateKeys | backend/handlers/feed/media.go:272-293 | Every key is deleted, or else queued where the queue takes it, and nothing else changes |
| Publication.Media.StoreAll | backend/handlers/feed/media.go:119-140 | Stores in order up to the first failure and then compensates exactly the keys attempted |
| Publication.UndoRun | backend/handlers/feed/media.go:272-293 | In the protocol's steps uninterrupted compensation has on objects and queue the effect that the loop has |
| PublicationLeaks.PublicationsLeakIff | backend/handlers/feed/media.go:107-184 | In any run every stored object is answered for by a row, an upload or a deletion job if and only if none of five kinds of step lets go of the last of them |
| PublicationLeaks.OpLeaksIff | backend/handlers/feed/media.go:149-176 | A publisher's step leaves an object behind exactly if it ends in another's favour, cannot resolve nor queue, fails to delete and to queue, or aborts unwatched, with nobody else to answer for the key |
| PublicationLeaks.DrainLeaksIff | backend/internal/repository/media_jobs.go:95-123 | A drain leaves one behind exactly if it completes the deletion job of an object that is there and that nobody answers for |
| PublicationLeaks.ConflictLeavesObject | backend/handlers/feed/media.go:168-170 | A run in which a conflict after an uncertain commit leaves a group photo's object |
| PublicationLeaks.DrainForgetsObject | backend/internal/repository/media_jobs.go:104-119 | A run in which a deletion job is completed, for a reference, while the author's delete drops that reference |
| MediaJobs.Repository.ClaimProcessingJob | backend/internal/repository/media_processing.go:45-55 | Claims a queued job than which none is older, or finds none queued |
| MediaJobs.Repository.CompleteProcessing | backend/internal/repository/media_processing.go:69-149 | Commits records, result and source deletion together for the lease holder alone, else changes nothing |
| MediaJobs.Repository.FailClaimedProcessingJob | backend/internal/repository/media_processing.go:153-172 | Fails the job and queues its source for the lease holder alone, else changes nothing |
| MediaJobs.Repository.RequeueStaleProcessingJobs | backend/internal/repository/media_processing.go:188-196 | Leaves no stale claim, revokes exactly the stale leases, keeps queued_at and every other job, and counts the jobs whose status changed |
| MediaJobs.Repository.AbandonQueuedProcessingJobs | backend/internal/repository/media_processing.go:220-255 | Fails exactly the old queued jobs, queues each source, and lists each once |
| MediaJobs.Repository.PurgeExpiredProcessingJobs | backend/internal/repository/media_processing.go:201-208 | Drops exactly the finished jobs past retention |
| MediaJobs.Repository.EnqueueMediaDeletion | backend/internal/repository/media_jobs.go:22-41 | Every key ends with one active deletion job, the one it had if it had one |
| MediaJobs.EnqueuedAll | backend/internal/repository/media_jobs.go:31-39 | Keys queued are the old ones and the new ones; existing jobs keep their identity |
| MediaJobs.Repository.RetireRetainedMedia | backend/internal/repository/cleanup.go:184-220 | A live record ends removed with its key queued and no longer referenced; any other call changes nothing, nor does this one anything else |
| MediaProcessing.RecordsInsertedOnce | backend/internal/repository/media_processing.go:69-149 | In every run a job's records are inserted at most once, and it is ready exactly when they were, by the claim its row names |
| MediaProcessing.InsertedWithReady | backend/internal/repository/media_processing.go:88-149 | Records appear only in the step that makes their job ready, by its lease holder, for exactly the objects it wrote |
| MediaProcessing.TerminalIsFinal | backend/internal/repository/media_processing.go:151-208 | Ready and failed are left only by purging |
| MediaProcessing.MostStepsKeepRecords | backend/internal/mediaprocessing/worker.go:233-419 | No other step inserts a record or touches a finished job |
| MediaTimes.ClaimLastsFiveMinutes | backend/internal/repository/media_processing.go:188-196 | Whatever else happens, a claim is its holder's for 300 seconds, and a requeue after more than that returns the job to the queue |
| MediaTimes.LostClaimStaysLost | backend/internal/repository/media_processing.go:45-55 | A claim that is lost or over is never held again |
| MediaTimes.AbandonedAfterAnHour | backend/internal/repository/media_processing.go:220-255 | The sweep fails a job, queues its source and lists it if and only if it is in the queue and was recorded more than 3600 seconds before, claims and requeues in between notwithstanding |
| MediaTimes.PurgedAfterADay | backend/internal/repository/media_processing.go:201-208 | A purge drops a job if and only if it has finished and was recorded more than 86400 seconds before |
| MediaProgress.UploadBecomesJob | backend/handlers/photo.go:138-161 | An upload in which nothing fails ends as a queued job with its raw object |
| MediaProgress.QueuedCanBeClaimed | backend/internal/repository/media_processing.go:45-55 | While a job is queued a new worker can claim one no younger |
| MediaProgress.WorkerCompletes | backend/internal/mediaprocessing/worker.go:233-310 | A worker that keeps its lease, and whose calls go well, ends with one live record and object per target, the job ready and its source queued for deletion |
| MediaProgress.FailureIsRecorded | backend/internal/mediaprocessing/worker.go:400-406 | What cannot be prepared is failed and its source queued if the lease is still held, and left alone if not |
| MediaProgress.FailureCleansUpAndFails | backend/internal/mediaprocessing/worker.go:252-286 | After a put or a completion that fails the worker deletes what the puts before it wrote, and the job is then failed and its source queued if the lease is still held |
| MediaProgress.LoserCleansUpAndReturns | backend/internal/mediaprocessing/worker.go:274-278 | A worker that finds its lease lost deletes what it has written and returns without touching a row |
| MediaProgress.OneRecordPerTarget | backend/internal/mediaprocessing/worker.go:240-274 | In every run a job is completed with exactly one record per target, each under a fresh key, and no worker writes more objects than that |
| MediaProgress.DrainDeletes | backend/internal/repository/media_jobs.go:95-123 | An undisturbed drain of a key that nothing refers to deletes the object and completes the deletion job |
| MediaProgress.DrainSpares | backend/internal/repository/media_jobs.go:95-123 | One of a key that is referred to leaves the object |
| MediaProgress.SweepDeletes | backend/internal/repository/cleanup.go:152-169 | A sweep in which nothing fails deletes the raw object of every job that it failed, and no other |
| MediaSources.SourcesKeptIff | backend/internal/repository/media_processing.go:69-255 | In any run, whatever fails, every queued or processing job has its raw object throughout if and only if no compensation deletes while its upload's job is queued or processing |
| MediaSources.CompensationSafeIffNoJob | backend/handlers/photo.go:157-161 | Compensation straight after a failed recording leaves every unfinished job its source if and only if there is no job row, that is, if nothing was committed |
| MediaSources.SourceKeptThenCovered | backend/internal/repository/cleanup.go:152-169 | With failed puts that stored, failed completions that committed and refused fallbacks allowed: an unfinished job's raw object is there and nobody may delete it; after the job has finished it is gone or has an active deletion job |
| MediaSources.CoveredForGood | backend/internal/repository/media_processing.go:201-208 | From any point at which a job exists its raw object stays so covered, also after the row is purged |
| MediaSources.ObligationMeansFinished | backend/internal/repository/media_jobs.go:95-123 | A deletion job or a drain on a job's key implies that the job has finished |
| MediaSources.FinishedCoveredIff | backend/internal/repository/media_jobs.go:95-123 | In any run every finished job's raw object is gone or queued throughout if and only if no drain completes a finished job's deletion job with the object still there |
| MediaSources.UncertainRecordLosesSource | backend/handlers/photo.go:157-161 | A run in which a recorded job that failed to report loses its source |
| MediaSources.QueuedCompensationLeavesSource | backend/handlers/photo.go:157-161 | A run in which compensation that only queued leaves a failed job's source with no deletion job |
| MediaResults.LiveKeptIff | backend/internal/mediaprocessing/worker.go:233-419 | In any run, whatever fails, every live record has its object throughout if and only if no worker's cleanup deletes a key that has a live record |
| MediaResults.CleanUpSafeIffNoneLive | backend/internal/mediaprocessing/worker.go:274-285 | The cleanup after a failed completion keeps every live record's object if and only if none of its keys has one when it starts, that is, if nothing was committed |
| MediaResults.FailedPutLeaksIffStored | backend/internal/mediaprocessing/worker.go:252-256 | After a failed put the key has no owner in any continuation, and its object is there if and only if the put stored it |
| MediaResults.StaleWorkerIsHarmless | backend/internal/mediaprocessing/worker.go:274-285 | In every run a worker without the lease changes no job, no record and no job's raw object |
| MediaResults.FailedPutLeaks | backend/internal/mediaprocessing/worker.go:252-256 | A run in which a failed put that stored leaves an object nobody owns |
| MediaResults.UncertainCommitLosesPhoto | backend/internal/mediaprocessing/worker.go:274-285 | A run in which a committed completion that failed loses a live photo's object |
| MediaObjects.DrainKeepsObjects | backend/internal/repository/media_jobs.go:95-123 | Draining the queue keeps every object that is needed |
| MediaObjects.WorkerLeavesNothing | backend/internal/mediaprocessing/worker.go:233-419 | When a worker is done each canonical object it wrote is referred to by a record of a ready job, or gone, or queued |
| MediaObjects.NothingLeaks | backend/internal/mediaprocessing/worker.go:233-419 | Every stored object has an owner, and every live record its object |
| ChatSocket.OneThingAtATime | frontend/src/chat/chatSocketController.ts:174-257 | Started once, a controller has at most one ticket request, live socket or timer between them, of the current generation, and the timer is the one stop clears |
| ChatSocket.NothingAfterStop | frontend/src/chat/chatSocketController.ts:239-257 | After stop returns no callback is delivered in any continuation without a start |
| ChatSocket.GenerationsNeverGoBack | frontend/src/chat/chatSocketController.ts:174-182 | Callbacks come from generations in order: once one has called back, nothing of a superseded one does |
| ChatCallbacks.FirstPageOnce | frontend/src/chat/chatSocketController.ts:189-206 | In any run with one start onFirstPage is called once, with the first page that arrives for the generation that opened first and just before onMessages gets it, and not at all if none does |
| ChatCallbacks.PageIsAnnounced | frontend/src/chat/chatSocketController.ts:193-206 | A page of the current generation is announced as the first page if and only if it is the first of the generation that opened first, and always goes to onMessages |
| ChatCallbacks.GivenIsWhatWasTold | frontend/src/chat/chatSocketController.ts:193-215 | What the host has been given, of which the delivery theorems speak, is exactly what onMessages was called with |
| ChatCallbacks.HostKnowsPhaseAndSocket | frontend/src/chat/chatSocketController.ts:117-121 | The last phase and socket that the host was told of are the controller's, however often it is started |
| ChatCallbacks.PhaseIsTrue | frontend/src/chat/chatSocketController.ts:174-237 | The phase says what the controller waits for: ticket or open, an open socket, its timer, or nothing after stop |
| ChatCallbacks.NeverIdle | frontend/src/chat/chatSocketController.ts:130-136 | Until it is stopped the controller has a timer, a ticket request or a live socket, unless a ticket was refused for good |
| ChatCallbacks.RefusedIsIdle | frontend/src/chat/chatSocketController.ts:230-236 | And when one is it waits for nothing |
| ChatCallbacks.CatchUpDrains | frontend/src/chat/chatSocketController.ts:138-172 | A page request of the current generation leads on, page after page, to the end of the messages, and the host is given all from where it began |
| ChatCallbacks.LiveBringsEverything | frontend/src/chat/chatSocketController.ts:208-216 | An open socket of the current generation can bring the host every message up to now |
| ChatCallbacks.RetryCountsFailures | frontend/src/chat/chatSocketController.ts:130-136 | The number that the reconnect delay depends on counts the failures since the last open or start |
| ChatRestart.CleanIffNothingPending | frontend/src/chat/chatSocketController.ts:259-265 | After any number of starts, a further one is followed by one live socket and one timer at most, and by no answer to an earlier page request, if and only if nothing is pending when it comes |
| ChatRestart.RestartRevivesTheFirstSequence | frontend/src/chat/chatSocketController.ts:259-265 | A run with two live sockets after a second start |
| ChatSocket.PageOf | backend/internal/repository/chat/messages.go:80-132 | A page is no longer than its limit, starts at its cursor, and reaches the end unless there is more |
| ChatDelivery.CompleteIffBridged | frontend/src/chat/chatSocketController.ts:142-207 | With its catch-up drained and its socket open a generation leaves nothing out if and only if the host had all before it when its first page came |
| ChatDelivery.FirstPageBridges | frontend/src/hooks/useGroupMessages.ts:153-169 | That holds if and only if the page or the socket's queue starts no later than the first missing message; without a cursor, if at most 50 messages came since |
| ChatDelivery.CarefulRunsLeaveNothingOut | frontend/src/chat/chatSocketController.ts:142-207 | In every run of disconnects and failures without late pages and cursorless catch-ups, a drained and open generation has delivered every message since the first fetched page |
| ChatDelivery.EmptyPageLosesTheCursor | frontend/src/hooks/useGroupMessages.ts:163 | A run, every reply in time, in which messages are never delivered |
| ChatDelivery.LatePageMovesTheCursor | frontend/src/hooks/useGroupMessages.ts:163 | A run in which a superseded page makes the next catch-up skip a message |
| Hub.NoGapWhileRegistered | backend/internal/chat/hub.go:142-211 | A registered client has been queued every accepted broadcast of its group since it registered, in order, and its done channel is open |
| Hub.RemovedOnceWithoutGap | backend/internal/chat/hub.go:231-242 | A removed client had its done channel closed once and everything queued up to then |
| Hub.WhyRemoved | backend/internal/chat/hub.go:150-220 | A client is removed by its unregistering, a matching disconnect, the result of its failed check, a broadcast that finds its queue full, or Stop, if and only if |
| Hub.OneSweepAtATime | backend/internal/chat/hub.go:133-169 | At most one sweep is in flight, and a pending request has one to wait for |
| HubRuns.FailedCheckRemoves | backend/internal/chat/hub.go:160-163 | In any run a client whose check fails is out once the loop has taken all results |
| HubRuns.NotedRequestIsServed | backend/internal/chat/hub.go:133-169 | A request made while a sweep runs is served at its acknowledgement by a sweep of everyone registered then |
| HubRuns.NoRequestNoSweep | backend/internal/chat/hub.go:164-169 | Without such a request the acknowledgement starts none |
| HubRuns.RequestSweepsEveryone | backend/internal/chat/hub.go:135-141 | With no sweep running a request starts one of everyone registered |
| HubRuns.SweepChecksEveryone | backend/internal/chat/hub.go:282-330 | A sweep ends only when it has reported on every client that it started with |
| HubRuns.WritesFollowTheQueue | backend/internal/chat/client.go:91-106 | The n-th write to a socket is of the n-th entry ever queued for it |
| HubRuns.NothingGetsStuck | backend/internal/chat/hub.go:133-220 | Until Stop every request is taken, every sweep can go on to its end, and the channels hold no more than they may |
| HubRuns.NothingAfterStop | backend/internal/chat/hub.go:212-220 | After Stop nobody is registered and nothing is accepted |
| Hub.ByUserIsPartition | backend/internal/chat/hub.go:144-149 | The user index holds each client under its user and under no other, without empty entries |
| Hub.ChatHub.RegisterClient | backend/internal/chat/hub.go:144-149 | Enters the client in both indexes |
| Hub.ChatHub.Remove | backend/internal/chat/hub.go:231-242 | Takes the client out of both indexes and closes its done channel; twice is once |
| Hub.ChatHub.DisconnectSockets | backend/internal/chat/hub.go:269-275 | Going through the user index removes exactly the matching clients |
| Hub.ChatHub.Deliver | backend/internal/chat/hub.go:196-205 | Queues the message for each client of the group with room and removes the others of the group |
| Hub.ChatHub.HandleBroadcast | backend/internal/chat/hub.go:170-205 | A message that was not saved reaches nobody and its sender is told |
| Hub.ChatHub.RequestRevalidation | backend/internal/chat/hub.go:135-141 | Starts a sweep of all clients, or notes the request while one runs |
| Hub.ChatHub.HandleDone | backend/internal/chat/hub.go:164-169 | Ends the sweep and serves the noted request |
| Hub.ChatHub.StopHub | backend/internal/chat/hub.go:212-220 | Closes every client's done channel once |
| MessageLog.MergeMessages | frontend/src/chat/messageLog.ts:29-58 | The loops compute the merge on which the laws below are proved |
| MessageLog.MergeWellFormed | frontend/src/chat/messageLog.ts:57 | The log stays strictly sorted by (created_at, id) with unique ids |
| MessageLog.MergeBatches | frontend/src/chat/messageLog.ts:29-58 | Merging a and then b is merging both at once, so pages and events can be batched in any way |
| MessageLog.MergeIdempotent | frontend/src/chat/messageLog.ts:29-58 | Merging the same list again changes nothing, reaction deltas included |
| MessageLog.EarlierCopyRedundant | frontend/src/chat/messageLog.ts:35-56 | A copy delivered earlier than another of the same message can be dropped, whatever came between |
| MessageLog.Absorbed | frontend/src/chat/messageLog.ts:37-55 | A re-delivered message erases what its earlier copy did to the entry |
| MessageLog.MergeIds | frontend/src/chat/messageLog.ts:29-58 | The log's ids are the old ones and the delivered ones |
| MessageLog.CompareIsTotalOrder | frontend/src/chat/messageLog.ts:6-11 | The comparison is a total order that identifies no two ids |
| MessageRules.LogIsOldestFirst | frontend/src/chat/messageLog.ts:6-11 | A merged log shows older messages first, and by id those of one time |
| MessageRules.EntryAfterMerge | frontend/src/chat/messageLog.ts:29-58 | The entry of an id depends on its entry before and the incoming messages of that id alone |
| MessageRules.ResolvedIsSticky | frontend/src/chat/messageLog.ts:26-27 | An entry is resolved if and only if it was before or some delivered copy is |
| MessageRules.MergeOfOne | frontend/src/chat/messageLog.ts:18-27 | One message changes no other entry; its own keeps what the message omits, and a reaction update flips the viewer's own selection and no other flag |
| MessageRules.PruneIsSuffix | frontend/src/chat/messageLog.ts:60-71 | Pruning a sorted log leaves exactly its messages from the anchor on |
| ChatStream.StaleActionsChangeNothing | frontend/src/chat/chatStream.ts:60-67 | Dropping every action of a superseded session leaves the same final state |
| ChatStream.OnlyDeliveredMessagesSurvive | frontend/src/chat/chatStream.ts:73-94 | After a first page the log holds only ids delivered in this session, and all delivered since |
| ChatStream.FirstPageDropsHints | frontend/src/chat/chatStream.ts:83-94 | A first page leaves no unconfirmed cached id |
| ChatStream.LogStaysWellFormed | frontend/src/chat/chatStream.ts:59-116 | Every history keeps the log strictly sorted with unique ids |
| ChatStreamFields.HintUntilConfirmed | frontend/src/chat/chatStream.ts:72-94 | A cached message is a hint until the session merges it or has a first page, and no longer |
| ChatStreamFields.FirstPageKeepsLive | frontend/src/chat/chatStream.ts:83-94 | A first page keeps exactly the messages that are no hint and not older than its oldest |
| ChatStreamFields.LoadingUntilAnswered | frontend/src/chat/chatStream.ts:103-115 | The session is loading if and only if its last paging action was a start |
| ChatStreamFields.MoreOlderIffFullPage | frontend/src/chat/chatStream.ts:83-113 | There may be more if and only if the last page had 50 messages or more |
| ChatStreamFields.LastErrorShows | frontend/src/chat/chatStream.ts:70-115 | The last error of the session shows |
| LimiterStore.BucketStore.Allow | backend/internal/middleware/limiter.go:151-209 | With counters held by reference across evictions, a call decides and leaves the store as the specification says, keeps it within its bound, and counts rejections |
| LimiterStore.BucketStore.SweepLocked | backend/internal/middleware/limiter.go:106-112 | Deletes exactly the expired counters |
| LimiterStore.BucketStore.EvictExpiringLocked | backend/internal/middleware/limiter.go:118-136 | Deletes one counter that expires no later than any of a sample of up to 256 |
| LimiterStore.BucketStore.CheckAll | backend/internal/middleware/limiter.go:163-198 | Phase 1 counts nothing and finds what the specification finds |
| LimiterStore.BucketStore.CountAll | backend/internal/middleware/limiter.go:205-207 | Phase 2 counts once per bucket that passed, and harmlessly for one evicted since |
| LimiterStore.BucketStore.SetStoreCapacity | backend/internal/middleware/limiter.go:272-282 | Evicts to the new bound and no further, each victim soonest of its sample |
| Limiter.NeverOverCapacity | backend/internal/middleware/limiter.go:169-189 | No call takes the store over its bound |
| Limiter.RejectionConsumesNothing | backend/internal/middleware/limiter.go:146-202 | A rejected call leaves every surviving counter's count |
| Limiter.RetryAfterTheWaitIsAdmitted | backend/internal/middleware/limiter.go:190-202 | After a rejection for a limit, the same request when the announced wait is over is admitted |
| Limiter.RetryAfter | backend/internal/middleware/limiter.go:220-227 | Whole seconds, at least one, never short of the reset and less than a second past it |
| Limiter.ApplicableExactly | backend/internal/middleware/limiter.go:163-168 | A request is measured by one counter per bucket of the policy that can count and for which it has a key, in policy order |
| Limiter.ApplicableIff | backend/internal/middleware/limiter.go:163-168 | Which counters those are, without the order |
| LimiterRuns.AllowsAtMostTwiceTheLimit | backend/internal/middleware/limiter.go:146-209 | Of the allow calls in any half-open interval as long as a bucket's window at most twice its limit admit a request with the bucket's key |
| LimiterRuns.AllowedIffNoneExhausted | backend/internal/middleware/limiter.go:146-209 | With room for its counters a request is admitted if and only if no bucket that measures it has let through its limit in its current window |
| LimiterRuns.WaitIsLongestReset | backend/internal/middleware/limiter.go:190-202 | A refusal announces the wait of the exhausted bucket that resets last, and no longer one |
| LimiterRuns.OpenNeverFull | backend/internal/middleware/limiter.go:175-189 | A policy that fails open is never refused for lack of room |
| LimiterRuns.ClosedEvictsNothing | backend/internal/middleware/limiter.go:175-189 | One that fails closed evicts nothing live and refuses only when live counters fill the store |
| LimiterRuns.FullAnnouncesAWindow | backend/internal/middleware/limiter.go:180-184 | Such a refusal announces a whole window |
| LimiterWindow.AtMostTwiceTheLimit | backend/internal/middleware/limiter.go:151-209 | With a steady clock and no evictions any half-open interval as long as the window admits at most twice the limit |
| LimiterWindow.RunKeepsWindows | backend/internal/middleware/limiter.go:151-209 | A live counter equals what its window admitted, windows do not overlap, and none exceeds the limit |
| LimiterWindow.IncrementOnce | backend/internal/middleware/limiter.go:203-207 | Distinct buckets are counted once each |
| Geography.BoxesChangeNothing | backend/internal/geography/countries.go:188-207 | Without tolerance the lookup with bounding boxes is the scan of every polygon |
| Geography.BoxTestExactIff | backend/internal/geography/countries.go:194-203 | For any tolerance a shape's box test is exact if and only if the point is in the box or no outer edge claims it |
| Geography.OutsideBoxEvenCrossings | backend/internal/geography/countries.go:231-250 | A point outside the box crosses the outer ring an even number of times to its east |
| Geography.ClosedRingCrossesEvenly | backend/internal/geography/countries.go:234-239 | A closed ring crosses any parallel an even number of times |
| Geography.ToleranceOverhangsTheBox | backend/internal/geography/countries.go:262-269 | A shape and a point for which the tolerance makes the box test wrong |
| Geography.CountryAt | backend/internal/geography/countries.go:188-207 | Returns the first country, in order, with a polygon that passes its box and contains the point, and none out of range |
| Geography.PolygonContains | backend/internal/geography/countries.go:209-228 | In the outer ring or on it, and in no hole, hole borders included |
| Geography.LocateInRing | backend/internal/geography/countries.go:231-250 | Boundary if any edge claims the point, else the parity of the crossings to its east |
| GeographyScan.OnSegmentIff | backend/internal/geography/countries.go:262-269 | Without tolerance an edge claims exactly the points of the segment |
| GeographyScan.OnSegmentWithin | backend/internal/geography/countries.go:262-269 | With one, those whose cross product and whose distance in each coordinate from the segment's box are within it |
| GeographyScan.CrossingIsOnEdge | backend/internal/geography/countries.go:238-242 | The crossing of a parallel is the edge's one point on it |
| GeographyScan.CrossesEastIff | backend/internal/geography/countries.go:238-244 | An edge counts if and only if one end is above the parallel and the other is not, and it has a point on it to the east |
| GeographyScan.LocationIff | backend/internal/geography/countries.go:231-250 | On an edge, or else inside if and only if an odd number of edges count |
| GeographyScan.RectangleIsWhatItLooks | backend/internal/geography/countries.go:231-250 | A rectangle has inside what is strictly between its sides, and its sides on its border |
| GeographyScan.ContainsIff | backend/internal/geography/countries.go:209-228 | A point strictly inside a hole is not contained, unless it is on the border of an earlier one; all else inside the outer ring or on it is |
| GeographyScan.AnswerIff | backend/internal/geography/countries.go:188-207 | There is an answer if and only if the coordinate is in range and some shape has it in its box and contains it, and it is the first such country |
| Geography.WrapLongitude | backend/internal/geography/countries.go:252-260 | The loops reach the longitude's copy near the reference |
| Geography.LongitudeNear | backend/internal/geography/countries.go:252-260 | Within half a turn of the reference |
| Geography.LongitudeNearSameMeridian | backend/internal/geography/countries.go:252-260 | It is the same meridian, whole turns away |
| Geography.MakePolygons | backend/internal/geography/countries.go:122-183 | Fails exactly on unreadable rings and empty geometry, else yields unwrapped, tightly boxed polygons with recentred holes |
| Geography.ReadRing | backend/internal/geography/countries.go:130-157 | Unwraps each point to within half a turn of the one before |
| Geography.ShiftHole | backend/internal/geography/countries.go:162-175 | Moves a hole by whole turns so that its middle is within half a turn of the outer ring's |
| Geography.DescribedIsValid | backend/internal/geography/countries.go:122-183 | What construction yields satisfies the assumptions of the box theorem |
| Elo.Replay | backend/internal/elo/elo.go:73-116 | The nested loops compute the replay on which the laws below are proved |
| Elo.PairLoop | backend/internal/elo/elo.go:88-105 | Every guesser's entry is the sum of the gains of all pairs it is in |
| Elo.ApplyRounded | backend/internal/elo/elo.go:106-111 | Adds each rounded delta to its rating, whatever the map's order |
| Elo.GainAntisymmetric | backend/internal/elo/elo.go:64-103 | What one player of a pair gains the other loses |
| Elo.DeltaPermutation | backend/internal/elo/elo.go:88-105 | Reordering the guesses of a challenge changes no delta |
| Elo.OrderDoesNotMatter | backend/internal/elo/elo.go:68-116 | Shuffling the challenges and the guesses inside them changes no rating and no delta |
| Elo.RatingsAreSumsOfDeltas | backend/internal/elo/elo.go:73-116 | A final rating is 1000 plus the player's deltas over all challenges |
| Elo.ExactDeltasCancel | backend/internal/elo/elo.go:102-103 | Before rounding the deltas of a challenge sum to zero |
| Elo.RoundedDeltasNearlyCancel | backend/internal/elo/elo.go:106-111 | The rounded deltas of a challenge with n guessers sum to within n/2 of zero |
| EloMeaning.HigherScoreGains | backend/internal/elo/elo.go:90-103 | The higher score gains less than the factor but something, and the lower one loses as much |
| EloMeaning.FavouriteGainsLess | backend/internal/elo/elo.go:64-66 | For the same result a player gains less, the higher it is rated |
| EloMeaning.EqualsExchangeHalf | backend/internal/elo/elo.go:32-35 | Players of one rating exchange half the factor, or nothing in a draw |
| EloMeaning.DrawFavoursTheLower | backend/internal/elo/elo.go:64-103 | In a draw the lower rated gains |
| EloMeaning.ChallengeMovesRatings | backend/internal/elo/elo.go:106-111 | A challenge moves its guessers' ratings by their deltas to within a half, and no other rating |
| EloMeaning.LatestIsReplayedLast | backend/internal/elo/elo.go:73-78 | A challenge no older than the others is played on the ratings that they lead to |
| EloMeaning.RatedIffCompared | backend/internal/elo/elo.go:118-124 | Exactly those are rated who shared a challenge with somebody |
| ObjectUrlCache.EveryUrlHasOneOwner | frontend/src/utils/objectUrlCache.ts:23-71 | In every run each delivered blob URL is cached under one key or was revoked once, never both, and pending requests of the current generation are those in flight |
| ObjectUrlCache.ClearRevokesEverything | frontend/src/utils/objectUrlCache.ts:57-64 | A clear leaves every blob URL delivered so far revoked once |
| ObjectUrlCache.BustedStaysGone | frontend/src/utils/objectUrlCache.ts:65-70 | After a bust no older fetch brings the key back |
| ObjectUrlRuns.FetchedIsCached | frontend/src/utils/objectUrlCache.ts:36-56 | A fetch that is not busted, cleared or rejected can resolve, and its URL is then cached, whatever happens in between |
| ObjectUrlRuns.SettlesOnce | frontend/src/utils/objectUrlCache.ts:41-53 | A fetch resolves or fails once, and then its finally callback is due |
| ObjectUrlRuns.FinallyFreesItsOwn | frontend/src/utils/objectUrlCache.ts:51-53 | The finally callback frees its own key, unless a later fetch has it, and nothing else |
| ObjectUrlCache.ObjectUrlStore.Get | frontend/src/utils/objectUrlCache.ts:33-35 | Never returns a revoked URL |
| ObjectUrlCache.ObjectUrlStore.GetOrFetch | frontend/src/utils/objectUrlCache.ts:36-56 | Returns the current request of the key, started only if there is none |
| ObjectUrlCache.ObjectUrlStore.Resolved | frontend/src/utils/objectUrlCache.ts:41-50 | Caches a current URL in place of the revoked previous one and revokes a stale one |
| ObjectUrlCache.ObjectUrlStore.Settled | frontend/src/utils/objectUrlCache.ts:51-53 | Clears the in-flight entry only if it is its own |
| ObjectUrlCache.ObjectUrlStore.BustKey | frontend/src/utils/objectUrlCache.ts:65-70 | Revokes and forgets the key and supersedes its fetches |
| ObjectUrlCache.ObjectUrlStore.ClearAll | frontend/src/utils/objectUrlCache.ts:57-64 | The loop supersedes and revokes every key once |
| PushNotifier.GaugeNeverNegative | backend/internal/push/notifier.go:259-293 | In every interleaving the gauge counts the queue and what is in transit, so it is never negative |
| PushNotifier.GaugeAfterStop | backend/internal/push/notifier.go:117-136 | After a Stop call has returned the gauge is the number of other Stop calls between receiving and lowering it |
| PushNotifier.GaugeZeroAfterStop | backend/internal/push/notifier.go:117-136 | So it is 0 if and only if there is no such call |
| PushNotifier.FinishedAfterStop | backend/internal/push/notifier.go:117-293 | Then every finished enqueue was taken or dropped, or is in such a call's hands |
| PushNotifier.EverythingAccountedFor | backend/internal/push/notifier.go:117-293 | With all Stop calls back the gauge is 0 and enqueues are those taken plus the drop counter |
| PushNotifier.StopReturnsWithGaugeRaised | backend/internal/push/notifier.go:124-135 | A run in which Stop returns with the gauge at 1 |
| PushRuns.EnqueueNeverBlocks | backend/internal/push/notifier.go:274-293 | Unless a Stop holds the lock an enqueue runs to its end; it queues behind the others if there is room, and drops and counts the drop if there is none or once a Stop has begun |
| PushRuns.WorkerTakesTheOldest | backend/internal/push/notifier.go:259-272 | A worker takes the oldest notification, lowers the gauge, delivers, and is back |
| PushRuns.WorkersStayUntilTold | backend/internal/push/notifier.go:259-272 | Workers stay until the context is cancelled or a Stop has begun, and can go from then on |
| PushRuns.StopGetsThrough | backend/internal/push/notifier.go:117-124 | A first Stop with no enqueue under way sets the flag and goes on as soon as the workers have gone |
| PushRuns.StopEmptiesTheQueue | backend/internal/push/notifier.go:125-136 | A Stop that drains undisturbed drops what is left and lowers the gauge by it |
| PushRuns.QueueIsBounded | backend/internal/push/notifier.go:274-293 | The queue never exceeds its capacity |
| PushNotifier.HostGates.HostSem | backend/internal/push/notifier.go:184-202 | At most 32 hosts get a gate of their own, which they keep; the others share one |

## Left out

- Deadlock and progress: advisory locks are taken in any order, which covers the sorted
  order of `groups.go:83-107`. Beyond single runs that go well, liveness is not treated.
- Publication without a publisher (`media.go:143-145`), form parsing, image normalisation
  and the HTTP status texts.
- Account and group deletion with their cascades; chat message deletion.
- Two keys with one advisory-lock hash: they would exclude each other more, not less.
- The database's collation of group ids, taken to agree with Go's string order.
- Connection loss while locks are held, and process crashes of the media worker.
- Publication, MediaProcessing, ChatSocket, PushNotifier: the handlers are steps of one
  state instead of methods on their objects, since they interleave at every await, channel
  operation and transaction; aliasing inside a handler is not modelled.
- MediaProcessing: the advisory lock of a drain is not modelled; the invariants hold
  without it. Downloads, ffprobe and ffmpeg are one step that may fail.
- ChatSocket.OneThingAtATime: is about the first sequence; what a later start keeps is
  `ChatRestart.CleanIffNothingPending`.
- MediaObjects.NothingLeaks, MediaObjects.WorkerLeavesNothing: are about runs in which a
  failed put stores nothing, a failed commit commits nothing and fallback enqueues succeed
  (`MediaObjects.Assumed`); `MediaSources` and `MediaResults` cover the other runs.
- ChatSocket: delays and jitter of reconnects, and the text of errors. Messages that a
  viewer may not see, that are deleted, or that commit out of cursor order.
- Hub: push notifications, assigned ids and times, the websocket pumps beyond queueing and
  draining, and the five-second limit of Stop.
- MessageLog.CompareIsTotalOrder: timestamps are integers, so `localeCompare` on
  created_at is taken to be chronological.
- MessageLog: fields that merge by plain replacement are one opaque part of a message.
- MessageLog, ChatStream, ObjectUrlCache: browser storage, React and promise scheduling
  beyond the order of callbacks; a fetcher that calls back into the cache.
- LimiterStore.BucketStore.Allow: rendering of composite keys as strings, and so collisions
  between them; the rejection log line; integer overflow of durations.
- Geography: floating-point rounding, NaN and infinities; decoding of the boundary file and
  its country codes.
- Elo: floating-point rounding, and the weekly and monthly selection of challenges.
- PushNotifier: delivery, retries and the subscription-count loop; Start after Stop.
