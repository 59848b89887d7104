# Verified models of NiceAgent's stateful cores

This project models, in Dafny, the parts of the NiceAgent repository whose correctness depends on many
actors, many runs or many bytes, and proves properties of those models for every run and every input.

* **Run quota** (`QuotaKeys`, `QuotaProtocol`, `QuotaLedger`, `QuotaSafety`, `QuotaRelease`, `QuotaCharges`,
  `QuotaTheorems`, `QuotaHandlers`, `QuotaAdmission`, `ReleasingRepository`): requests that reserve, commit and roll back slots, hourly runs and
  tokens in Redis, and releases of finished runs. Each store call is one atomic step and any of them may
  fail; the theorems hold for every interleaving. The imperative methods of `QuotaHandlers` are proved to be
  runs of that machine.
* **Run events** (`EventFanout`, `EventDelivery`, `EventHandlers`): the log, the bounded local channel, the
  fanout of local events and lossy nudges, the two replays of the SSE handler, and the reconnecting browser.
* **Run queue** (`RunQueue`, `RunQueueBound`, `RunQueueWorker`, `QueuedRuns`, `RunClaims`): a Redis stream
  with a consumer group, pending entries, delivery counts, a dead-letter stream and competing workers that may
  crash at any step; and the leases under which runs are claimed.
* **Limiters** (`RateWindows`, `RedisRateWindows`, `Semaphore`): two anchored one-minute windows, the
  calendar-minute window in Redis, and the slots for concurrent model calls.
* **Run completion** (`RunSink`, `RunSinkTheorems`) and the **daily tool quota** (`ToolQuota`).
* **Text and files**: the RESP encoder and reader (`Resp`), the SSE frame writer and reader (`SseFrames`), the
  quoted-cell splitter of the artifact preview (`CsvLine`), and the workspace diff of the sandbox
  (`Paths`, `WorkspaceDiff`).

`Common` holds sums and runs of state machines, `Text` the trimming functions of Go, Python and JavaScript.

## Assumptions

* A store, repository or network call that reports an error had no effect. Redis keys of the run quota do not
  expire while they are in use. Ids of new runs and artifacts are fresh, so a run's marker can be kept with the
  request that created the run. A project's quota policy does not change during a history.
* One writer per run appends events, so the local channel sees them in order; the Redis stream is not trimmed.
* The dead-letter stream's name is not blank. A name of spaces gets no default (worker.go:483), and `deadLetter` then
  writes nothing and reports success (worker.go:288-291), so a spent message would be acknowledged unaccounted for.
* Calls that take outcomes, clock readings or server answers as parameters stand for all of them: theorems
  quantify over those parameters.

## Properties that do not hold, and when they do

* *Every terminal run frees its slot.* A run cancelled between `AddUserMessage` and `Commit` is released before
  its marker exists and keeps its slot (`CanceledBeforeCommitKeepsSlot`). Over every interleaving, a release whose
  own calls work is sure to leave no marker behind if and only if, when it begins, the run's request is not still
  waiting to commit what it reserved (`LeavesNoMarkerIff`, `ReleasedRunHoldsNothing`).
* *The browser always sees a gap-free prefix.* The local channel holds 32 events and drops what does not fit. A
  dropped event that a nudge, a replay or a reconnect repairs does no harm; it is lost for good if a live fanout
  takes a later event past it and that event arrives (`ExactlyOnceIff`, `JumpDecides`, `LostForGood`).
  `GapFreeIff` gives the number of events that every run tolerates. `after` in the URL wins over Last-Event-ID
  (`NothingBefore`), which is harmless because the client drops what it has seen.
* *A message is handed to execution at most MaxDeliveries - 1 times when count queries succeed.* A query that no
  longer finds the entry counts as 0 deliveries, so a message that was executed and acknowledged meanwhile is
  handed over again; claiming its run may then find the run terminal
  (`SuccessfulQueriesExceedTheLimit`, with the exact bound in `BoundedRedelivery` and `BoundHoldsIff`).
* *A succeeded run has one assistant message.* A completion retried after its status update failed writes a
  second one (`RetriedCompletion`); `MessagesOfARun` and `OneMessage` say exactly how many there are.
* *An artifact is announced exactly once.* One whose event could not be written is never announced, as the retry
  finds it in place (`LostAnnouncement`); one that a lookup misses, because the store failed or the artifact has
  expired, is stored and announced again (`MissedLookup`); one that was first filed under another run is announced
  twice. It is exactly once for every call sequence if and only if neither lookups nor event writes may fail
  (`EachAnnouncedIff`), and at most once if and only if lookups may not fail and artifacts are filed under this run
  alone (`AtMostOneEachIff`).
* *At most 2L - 1 calls of a skill pass in a minute.* The limiter reads the clock before it takes its lock, so a call
  may take effect after one that was read later. `SlidingBound` gives the bound for readings that go back by up to any
  amount, 3L - 2 if that is less than a minute, and `SlidingBoundIsReached` histories that reach each of these bounds.
* *Tool calls of a day stay within the day's limit.* Reservations for a run created on an earlier day are not
  counted (`LimitHoldsIff`).

## Model

| member | source | states |
|---|---|---|
| QuotaTheorems.LedgerConservation | services/control-plane/internal/quota/redis_limiter.go:104-193 | in every state of every interleaving each counter equals what uncommitted holders, run markers, actors between a denial or `Del` and their decrement, and failed decrements answer for, and is never negative |
| QuotaTheorems.AdmissionSafety | services/control-plane/internal/quota/redis_limiter.go:113-191 | what is admitted and not released on a key, plus what releases hold or settled there, never exceeds the limit but for usage beyond a run's own token reservation; for active slots and hours there is no such excess |
| QuotaTheorems.NeverOverTheLimit | services/control-plane/internal/quota/redis_limiter.go:164-241 | if no run uses more tokens than it was charged, what is admitted and what is settled never exceed the limit, for tokens, slots and hours alike |
| QuotaTheorems.OwnLimitHolds | services/control-plane/internal/httpapi/server.go:2615-2626 | the limit of a project's own policy holds, be it above or below the default, if no chat belongs to another project whose name sanitizes to the same |
| QuotaAdmission.AcceptedIff | services/control-plane/internal/quota/redis_limiter.go:104-200 | for every outcome of its calls but failing decrements, a message is accepted if and only if its sender may write, its calls work and every limit that is switched on has room for one slot, one run and the hinted or default tokens; which limit or call refuses it; and what it leaves on every counter and in the marker |
| QuotaCharges.ChargedAsAsked | services/control-plane/internal/quota/redis_limiter.go:164-200 | over every interleaving a request is charged its hint if positive and else the default, holds a slot, an hour and tokens exactly for the limits switched on once it is past its reservations, and its marker records that |
| QuotaCharges.SmoothIsLossless | services/control-plane/internal/quota/redis_limiter.go:213-241 | if no decrement or settlement fails, no increment stays behind and every settlement is at the actual usage |
| QuotaTheorems.SettleExactlyOnce | services/control-plane/internal/quota/redis_limiter.go:206-241 | the rollback's delete and any number of racing releases together remove a marker exactly as often as it is gone, at most once; a release decrements the slot key that was incremented and settles against the key and amount the run was charged |
| QuotaTheorems.QuietLedger | services/control-plane/internal/quota/redis_limiter.go:321-357 | once all handlers have returned, and if no decrement or settlement failed on the way, active counters count unreleased runs, hour counters accepted messages, and token counters what unreleased runs were charged plus what the runs with a taken marker used |
| QuotaTheorems.ReleaseFreesSlotIffMarked | services/control-plane/internal/quota/redis_limiter.go:202-227 | an undisturbed release gives back a slot if and only if it finds a marker holding one, puts the actual usage in the place of the tokens the marker records, and changes no other counter |
| QuotaTheorems.CanceledBeforeCommitKeepsSlot | services/control-plane/internal/httpapi/server.go:320-326 | a run released between its user message and its commit ends accepted, released and still holding its slot |
| QuotaRelease.LeavesNoMarkerIff | services/control-plane/internal/quota/redis_limiter.go:206-227 | over every interleaving, a release about to begin is sure to leave no marker of its run behind if and only if the run's request is not still waiting to commit what it reserved |
| QuotaTheorems.ReleasedRunHoldsNothing | services/control-plane/internal/quota/redis_limiter.go:213-241 | a run released after its commit holds nothing on any active or token counter once everything has returned, whatever came in between |
| QuotaRelease.AlwaysTied | services/control-plane/internal/quota/redis_limiter.go:285-319 | in every reachable state the token line, the marker and the settlement of a run are those it was charged |
| QuotaSafety.Reachable | services/control-plane/internal/quota/redis_limiter.go:104-357 | every interleaving keeps the ledger, one settlement per marker, and the phase facts of each request and release |
| QuotaLedger.RequestBalances | services/control-plane/internal/quota/redis_limiter.go:113-191 | one step of a request changes what it answers for by what it changes in the store, and wins an amount only on its way forward and when the returned count is within the limit |
| QuotaSafety.ReleaseBalances | services/control-plane/internal/quota/redis_limiter.go:213-241 | one step of a release moves the marker's stake to the release and settles it against the store |
| QuotaProtocol.RequestRunEmbeds | services/control-plane/internal/httpapi/server.go:280-346 | a request running alone is a run of the whole system that changes nothing else |
| QuotaProtocol.ReleaseStepsEmbed | services/control-plane/internal/quota/redis_limiter.go:202-243 | a release running alone, whatever its calls do, is a run of the whole system |
| QuotaHandlers.CreateMessage | services/control-plane/internal/httpapi/server.go:280-346 | the handler, for every outcome of every call and even if the run's marker exists already, ends with the counters, marker and reservation of the request machine |
| QuotaHandlers.Reservation.ReserveRun | services/control-plane/internal/quota/redis_limiter.go:104-193 | the three reservations in order, with their denials and roll-backs, are steps of that machine |
| QuotaHandlers.Reservation.CommitRun | services/control-plane/internal/quota/redis_limiter.go:285-319 | the commit makes the marker answer for slot and tokens, and fails, changing nothing, if the call fails or a marker is there already |
| QuotaHandlers.Reservation.Rollback | services/control-plane/internal/quota/redis_limiter.go:321-357 | the rollback takes slot and tokens back only if its own delete removed the marker, the hour always |
| QuotaHandlers.DriveIsRun | services/control-plane/internal/httpapi/server.go:302-345 | every scripted request is a finite run of the machine and reaches its end |
| QuotaHandlers.ReleaseRun | services/control-plane/internal/quota/redis_limiter.go:202-243 | if its delete removed the marker, and only then, it takes one from the slot counter and changes the token counter by the actual usage less the recorded tokens, as far as those calls work |
| QuotaHandlers.ReleaseIsRun | services/control-plane/internal/quota/redis_limiter.go:213-241 | those effects are four steps of the release machine with the same outcomes |
| QuotaKeys.RenderInjective | services/control-plane/internal/quota/redis_limiter.go:245-280 | no two counters or markers share a Redis key |
| QuotaKeys.CleanNamesApart | services/control-plane/internal/quota/redis_limiter.go:245-269 | actors whose names need no replacement share a slot counter only if they are the same |
| ReleasingRepository.ReleasedIffEnded | services/control-plane/internal/quota/releasing_repository.go:24-38 | over all interleavings of status updates a run has ended if and only if a release was called or its project could not be found, and with every project found a release is called if and only if the run has ended |
| ReleasingRepository.ReleasedOnce | services/control-plane/internal/quota/releasing_repository.go:24-38 | updates made one after another release a run once when it ends, plus once per later update that failed to read it, but for those that cannot find its project |
| ReleasingRepository.BothRelease | services/control-plane/internal/quota/releasing_repository.go:25-31 | two overlapping terminal updates both release |
| ReleasingRepository.Repository.UpdateRunStatus | services/control-plane/internal/quota/releasing_repository.go:24-38 | the update's new status and whether it releases, keeps, or misses the run's project |
| EventDelivery.ExactlyOnce | services/control-plane/internal/events/eventbus.go:183-244 | over any disconnects, reconnects to any replica, resume points, dropped events and lost or repeated nudges, if no live fanout jumps, the client has applied a gap-free, duplicate-free prefix of the log in order |
| EventDelivery.ExactlyOnceIff | services/control-plane/internal/events/eventbus.go:204-244 | in every run the client applies in order and without duplicates, and its prefix is gap-free if and only if it received no event that a live fanout took past a missing one |
| EventDelivery.JumpDecides | services/control-plane/internal/events/eventbus.go:221-223 | when a live, intact connection takes its next local event and what is under way arrives, the client has a gap if and only if that event is beyond the one after both the last forwarded and the last written |
| EventDelivery.LostForGood | frontend/src/app/useNiceAgentWorkspace.ts:488-496 | no later step, reconnect or replay closes a gap |
| EventDelivery.CaughtUp | services/control-plane/internal/httpapi/server.go:562-604 | a live connection with drained queues that lost nothing has brought the client to everything the fanout has seen, and to the whole log if the channel was sent the last append |
| EventDelivery.GetsThrough | services/control-plane/internal/events/eventbus.go:214-240 | a nudge for a logged event at any replica, the next event of the channel, and all that is in the log at the second replay reach the client, with no event left out, once the connection is drained and nothing was lost, however it went on |
| EventDelivery.Drains | services/control-plane/internal/httpapi/server.go:583-597 | the handler and the browser alone can always drain a live connection |
| EventDelivery.NothingBefore | services/control-plane/internal/httpapi/server.go:569-584 | a connection carries only events above its resume point: what the page has seen, or on a reconnect the `after` of the URL before Last-Event-ID |
| EventDelivery.OverflowLosesAnEvent | services/control-plane/internal/repository/store.go:1432-1437 | a run in which one event, dropped at a full channel and overtaken, never reaches the client |
| EventDelivery.GapFreeIff | services/control-plane/internal/repository/store.go:1454-1470 | every run with at most k events is gap-free if and only if k is at most the channel's capacity plus one |
| EventHandlers.LocalChannelTolerates | services/control-plane/internal/repository/store.go:1455 | with the capacity of 32, that number is 33 |
| EventDelivery.Reachable | services/control-plane/internal/events/eventbus.go:198-244 | up to a jump, every queue between log and client holds, in order, all that is still to come |
| EventFanout.FanIncreases | services/control-plane/internal/events/eventbus.go:204-244 | whatever local events and nudges arrive, in any order, the forwarded numbers increase strictly |
| EventFanout.FanContiguousIff | services/control-plane/internal/events/eventbus.go:221-238 | they form a contiguous piece of the log exactly when no local event ahead of the next number is forwarded |
| EventFanout.NudgeCatchesUp | services/control-plane/internal/events/eventbus.go:228-238 | after a nudge for a logged event the last forwarded number is at or past it, and everything up to it has been forwarded unless a local event had jumped ahead before |
| EventFanout.FanoutLoop | services/control-plane/internal/events/eventbus.go:204-244 | the goroutine's loop forwards what the fanout machine forwards |
| EventFanout.MaxEventSeq | services/control-plane/internal/events/eventbus.go:247-255 | the largest number of a list, or 0 |
| EventFanout.ListEventsIsSuffix | services/control-plane/internal/repository/store.go:1441-1452 | the events above a number are the suffix of the log after it |
| EventHandlers.EventStream.WriteReplayEvents | services/control-plane/internal/httpapi/server.go:606-614 | a replay writes the log above the resume point and moves it to the last written event, also from a negative point and when the connection breaks, and is the delivery model's replay |
| EventHandlers.EventStream.Forward | services/control-plane/internal/httpapi/server.go:588-597 | an event from the subscription is written exactly if it is beyond the last one, as the delivery model's handler does |
| EventHandlers.SeenEvents.MarkRunEventSeen | frontend/src/app/useNiceAgentWorkspace.ts:488-496 | events of other runs are refused, unnumbered ones pass, numbered ones pass exactly when they are new |
| EventHandlers.SeenEvents.OnEvent | frontend/src/app/useNiceAgentWorkspace.ts:466-471 | the listener does with a numbered event what the delivery model's client does, applies an unnumbered one, and ignores those of other runs |
| RunQueue.NoLostRun | services/agent-runtime/internal/runqueue/worker.go:107-152 | with crashing and competing workers each enqueued message is exactly one of undelivered, pending and acknowledged, and an acknowledged one was executed, found terminal, dead-lettered or undecodable |
| RunQueue.BoundedRedelivery | services/agent-runtime/internal/runqueue/worker.go:180-216 | a message is handed to execution at most max(1, MaxDeliveries - 1) times, plus once per claim that could not read its delivery count |
| RunQueue.TotalRedelivery | services/agent-runtime/internal/runqueue/worker.go:180-216 | all hand-offs together are bounded by the number of messages times that limit, however many workers crash and claim |
| RunQueue.StepCounted | services/agent-runtime/internal/runqueue/worker.go:180-205 | every step keeps hand-offs plus open claims within what the delivery count allows, the measure that bounds redelivery |
| RunQueueBound.LimitIsReached | services/agent-runtime/internal/runqueue/worker.go:189-203 | that many hand-offs do happen |
| RunQueueBound.SuccessfulQueriesExceedTheLimit | services/agent-runtime/internal/runqueue/worker.go:207-216 | with every query answered, one that finds the entry gone makes an executed message run once more |
| RunQueueBound.BoundHoldsIff | services/agent-runtime/internal/runqueue/worker.go:207-216 | the bound holds of all runs if and only if no message is handed over without its count |
| RunQueueWorker.RedisWorker.ProcessNext | services/agent-runtime/internal/runqueue/worker.go:107-152 | one iteration is a run of the queue machine that ends idle; it handles the next new entry, or else the first claimed one not spent, and success means that entry left the pending list or there was none; without a group it does nothing; an acknowledged decodable entry was executed unless its claim found the run ended |
| RunQueueWorker.RedisWorker.ReadNextMessage | services/agent-runtime/internal/runqueue/worker.go:169-178 | a new entry is taken first, else the first claimed one that has deliveries left |
| RunQueueWorker.RedisWorker.AutoClaimPending | services/agent-runtime/internal/runqueue/worker.go:180-205 | the claimed entries up to the first that may be executed, and no others, were spent, dead-lettered in order and acknowledged |
| RunQueueWorker.RedisWorker.PendingRetryCount | services/agent-runtime/internal/runqueue/worker.go:207-216 | the delivery count of a pending entry, 0 for a failed query or a missing entry |
| RunQueueWorker.ExecuteQueuedRun | services/agent-runtime/internal/runqueue/worker.go:322-355 | a run fails without an engine, context, URL or claim, is left alone exactly if its claim says succeeded, failed or canceled, and is executed otherwise |
| RunClaims.Store.ClaimRunAttempt | services/control-plane/internal/repository/store.go:1305-1332 | an ended run is reported as it is, a run that no other attempt holds is claimed and running, and any other claim is refused and changes nothing |
| RunClaims.LeaseExcludes | services/control-plane/internal/repository/store.go:1319-1321 | while an attempt keeps its lease no other can claim the run, over any sequence of claims |
| RunClaims.LeaseRunsOut | services/control-plane/internal/repository/store.go:1319-1328 | when the lease is over any attempt can |
| RunQueueWorker.Redis.Enqueue | services/control-plane/internal/dispatch/queue.go:131-147 | the producer appends an undelivered entry, decodable exactly if the run has an id, or nothing if the call fails |
| RunQueueWorker.RedisStreamsRunQueue.Dequeue | services/control-plane/internal/dispatch/queue.go:149-179 | the control plane's consumer returns the next entry if it is decodable and leaves it pending, and otherwise reports it and acknowledges it if that call works; a failed read, or a consumer group that cannot be created, takes nothing |
| RunQueueWorker.RedisStreamsRunQueue.Acknowledge | services/control-plane/internal/dispatch/queue.go:171-177 | the acknowledgement function keeps a failed run pending |
| QueuedRuns.RoundTripIff | services/control-plane/internal/dispatch/queue.go:221-256 | a normalised run is decoded unchanged exactly when it has an id; the attempt id and time it came with survive, missing ones are filled in |
| QueuedRuns.DecodableIff | services/control-plane/internal/dispatch/queue.go:231-256 | an enqueued entry can be decoded at all exactly if its run has an id |
| RateWindows.SlidingBound | services/agent-runtime/internal/tools/tool_bridge.go:110-128 | with a constant limit L and readings that go back by at most b nanoseconds, at most Bound(L, b) requests of a key pass in any 60 seconds, whatever other keys do |
| RateWindows.SlidingBoundIsReached | services/agent-runtime/internal/tools/tool_bridge.go:110-128 | for every limit and every such b a history reaches that bound |
| RateWindows.BoundValues | services/agent-runtime/internal/tools/tool_bridge.go:114-127 | the bound is 2L - 1 if readings do not go back, and 3L - 2 if they go back by less than a minute but more than a nanosecond |
| RateWindows.LetThrough | services/agent-runtime/internal/tools/tool_bridge.go:117-127 | with readings that do not go back, a call is let through if fewer than its limit of its key passed in the 60 seconds before it |
| RateWindows.DenialsLeaveNoTrace | services/agent-runtime/internal/tools/tool_bridge.go:122-124 | leaving out a denied call, or one of another key, changes the answer to no later call |
| RateWindows.LocalSkillRateLimiter.Allow | services/agent-runtime/internal/tools/tool_bridge.go:110-128 | the limiter's windows are those of its history of calls, and its answer is theirs; without a limit it always passes |
| RedisRateWindows.CalendarBound | services/agent-runtime/internal/tools/redis_rate_limiter.go:47-67 | at most 2L calls of a key pass in any 60 seconds, over all interleavings of increments and expiries |
| RedisRateWindows.CalendarBoundIsReached | services/agent-runtime/internal/tools/redis_rate_limiter.go:47-67 | for every limit a timely run lets exactly 2L pass within two nanoseconds |
| RedisRateWindows.CountedExactly | services/agent-runtime/internal/tools/redis_rate_limiter.go:47-67 | the calls of a minute that are not turned away are exactly as many as were counted, up to the limit |
| RedisRateWindows.NeverExpiresEarly | services/agent-runtime/internal/tools/redis_rate_limiter.go:69-84 | no counter expires before a minute past the end of its own |
| RedisRateWindows.KeptBriefly | services/agent-runtime/internal/tools/redis_rate_limiter.go:69-84 | a time to live is between one and two minutes |
| RedisRateWindows.RedisSkillRateLimiter.Allow | services/agent-runtime/internal/tools/redis_rate_limiter.go:47-67 | the call's increment and expiry as the machine takes them; it passes exactly without a limit, or if its increment works, counts within the limit and, as the first, its expiry works |
| Semaphore.Conservation | services/agent-runtime/internal/modelprovider/rate_limiter.go:42-69 | over all interleavings occupied slots equal the callers between acquire and release, never exceed the maximum, and no release falls through to its default branch |
| Semaphore.RefusalsHoldNothing | services/agent-runtime/internal/modelprovider/rate_limiter.go:64-68 | when nobody is acquiring, the occupied slots are the model calls in progress: refusals cost none |
| Semaphore.GetsInIff | services/agent-runtime/internal/modelprovider/rate_limiter.go:46-52 | after any interleaving a waiting caller gets in if fewer than the maximum hold slots, and waits on if not: no slot leaks |
| Semaphore.CallsPerMinute | services/agent-runtime/internal/modelprovider/rate_limiter.go:71-88 | at most 2 * RequestsPerMinute - 1 model calls start in any 60 seconds, across callers |
| Semaphore.LocalRateLimiter.Acquire | services/agent-runtime/internal/modelprovider/rate_limiter.go:42-69 | a caller holds a slot exactly if it acquired, and cancellation or a window denial leaves the slot count unchanged |
| Semaphore.LocalRateLimiter.WithSlot | services/agent-runtime/internal/modelprovider/operational_model.go:45-69 | acquire, call and deferred release leave the slots as they were |
| RunSinkTheorems.OneTerminalEvent | services/control-plane/internal/app/runs.go:47-94 | over any sequence of calls there is at most one terminal event, it fits the status, and it is the last event |
| RunSinkTheorems.NothingAfterTheEnd | services/control-plane/internal/app/runs.go:47-94 | calls after the end change nothing |
| RunSinkTheorems.MessagesOfARun | services/control-plane/internal/app/runs.go:59-64 | a run has one message if it succeeded, and one for each completion that failed between message and status |
| RunSinkTheorems.OneMessage | services/control-plane/internal/app/runs.go:59-64 | if no completion fails there, success and exactly one message go together |
| RunSinkTheorems.RetriedCompletion | services/control-plane/internal/app/runs.go:59-64 | a completion retried after its status update failed leaves two messages |
| RunSinkTheorems.SavedUsage | services/control-plane/internal/app/runs.go:70-82 | the usage of a run is that of the last completion that got past its save, whatever failed afterwards, and no other call changes it |
| RunSinkTheorems.CompletesInFull | services/control-plane/internal/app/runs.go:47-68 | a completion whose calls work registers the artifacts, adds one message and ends the run, its event last |
| RunSinkTheorems.FailsInFull | services/control-plane/internal/app/runs.go:84-97 | a failure that is written ends the run as failed, its event last |
| RunSinkTheorems.EndIsAnnounced | services/control-plane/internal/app/runs.go:63-96 | if terminal events can be written, a run that succeeded or failed has its event |
| RunSinkTheorems.AnnouncedOnce | services/control-plane/internal/app/runs.go:23-43 | events announcing an artifact of the run, written or lost, balance its ownership and the times it was stored over |
| RunSinkTheorems.ExactlyOneEvent | services/control-plane/internal/app/runs.go:23-43 | when lookups and event writes work, an artifact has exactly one event if it is the run's and none if not |
| RunSinkTheorems.AtMostOneEvent | services/control-plane/internal/app/runs.go:23-43 | when lookups work, an artifact has at most one event of the run, whatever else fails |
| RunSinkTheorems.MissedLookup | services/control-plane/internal/app/runs.go:24-39 | an artifact that a lookup misses is stored and announced a second time, though every write works and it is filed under this run alone |
| RunSinkTheorems.LostAnnouncement | services/control-plane/internal/app/runs.go:25-40 | an artifact whose event could not be written is never announced, though it is registered again |
| RunSinkTheorems.EachAnnouncedIff | services/control-plane/internal/app/runs.go:23-43 | every artifact of the run is announced exactly once in every sequence of calls if and only if neither artifact lookups nor event writes may fail |
| RunSinkTheorems.AtMostOneEachIff | services/control-plane/internal/app/runs.go:30-39 | every artifact id is announced at most once in every sequence of calls, event writes failing or not, if and only if lookups may not fail and artifacts are filed under this run alone |
| RunSinkTheorems.RepositorySink.RegisterArtifacts | services/control-plane/internal/app/runs.go:14-45 | the loop over artifacts stops at the first failure, leaves what the specification says and returns the stored artifacts |
| RunSinkTheorems.RegisteredAreStored | services/control-plane/internal/app/runs.go:22-44 | registration that succeeds names one stored artifact for each given one, in order, under its own id if it came with one |
| RunSinkTheorems.RepositorySink.Complete | services/control-plane/internal/app/runs.go:47-68 | artifacts, message, status and event in order, with what each failure leaves behind |
| RunSinkTheorems.RepositorySink.CompleteWithUsage | services/control-plane/internal/app/runs.go:70-82 | the usage is saved first; if that works the rest is a completion, else nothing happens |
| RunSinkTheorems.RepositorySink.Fail | services/control-plane/internal/app/runs.go:84-97 | the failure's status and event; success is reported only of an ended run |
| RunSinkTheorems.Repository.UpdateRunStatus | services/control-plane/internal/repository/store.go:1360-1382 | a terminal status is never replaced by another |
| ToolQuota.UsageStaysWithinLimits | services/control-plane/internal/httpapi/server.go:2066-2090 | from any state within a limit on, a day's runs never have more usage than it: calls, and milliseconds up to 1000 times the seconds despite the rounding |
| ToolQuota.DailyLimit | services/control-plane/internal/httpapi/server.go:2066-2105 | on every day of every history reservations take at most the limit plus what went to runs of earlier days |
| ToolQuota.LetThroughIff | services/control-plane/internal/httpapi/server.go:2051-2110 | in every history a well-formed request whose calls work is let through if and only if it fits both limits beside the reservations made today for today's runs; a denial names the calls first; and what it is charged |
| ToolQuota.FailsClosed | services/control-plane/internal/httpapi/server.go:2046-2064 | a blank skill or a failing call lets nothing through and changes nothing |
| ToolQuota.LimitHoldsIff | services/control-plane/internal/httpapi/server.go:2067-2068 | the limit bounds an owner's reservations of a day if and only if none of them is for a run of an earlier day |
| ToolQuota.Server.InternalReserveToolQuota | services/control-plane/internal/httpapi/server.go:2040-2111 | the handler's reply, and its new state, which differs from the old only if the request is let through |
| ToolQuota.Server.SumRunUsageSince | services/control-plane/internal/repository/store.go:322-357 | calls, sandbox commands and milliseconds of the owner's runs created since a time |
| Resp.RoundTrip | scripts/smoke_redis_capacity.py:184-216 | reading an encoded command with anything behind it gives back exactly its parts, whatever bytes they hold, and leaves exactly the rest |
| Resp.ReplyRoundTrip | scripts/smoke_redis_capacity.py:193-216 | status, error, number, null, bulk and array replies of any depth are read back as such, and the rest is left |
| Resp.EncodeInjective | scripts/smoke_redis_capacity.py:184-190 | no command's encoding is, or begins, another's |
| Resp.EncodeCommand | scripts/smoke_redis_capacity.py:184-190 | the encoder's loop builds the array of bulk strings |
| Resp.ReadReply | scripts/smoke_redis_capacity.py:193-216 | the recursive reader consumes the stream as its specification says, including nulls, short reads, lines that are not UTF-8 and errors |
| Resp.ParseDigits | scripts/smoke_redis_capacity.py:185-188 | a printed length is parsed back |
| SseFrames.RoundTrip | packages/common/platform/sse.go:13-31 | reading up to a count or up to the first event of a type gives back exactly the frames up to there, in order, outer white space gone, whatever follows |
| SseFrames.ReadFrames | scripts/smoke_sse_replay.py:198-224 | reading a written stream line by line is reading it frame by frame, also when a payload is invalid |
| SseFrames.RoundTripIff | scripts/smoke_sse_replay.py:198-224 | one-line frames arrive unchanged exactly when no name or payload has outer white space |
| SseFrames.LastIdOfStream | packages/common/platform/sse.go:18-22 | a browser that reads a written stream by section 9.2.6 of the HTML standard resumes with the id of the last frame that has one |
| SseFrames.WriteSSEWithID | packages/common/platform/sse.go:13-31 | what gets out of a frame for every combination of failing writes |
| SseFrames.WrittenInFull | packages/common/platform/sse.go:18-29 | a failed frame is a proper prefix of the frame |
| SseFrames.ReadSseEvents | scripts/smoke_sse_replay.py:198-224 | the line loop returns the events the specification reads, stops at the count or the type, and fails at an invalid payload |
| SseFrames.CheckStrictlyIncreasing | scripts/smoke_sse_replay.py:228-231 | comparing neighbours decides that every pair increases |
| CsvLine.RoundTrip | frontend/src/features/artifacts/ArtifactList.tsx:235-260 | splitting joined fields gives back every cell trimmed, whichever were quoted by RFC 4180 section 2, rules 5 to 7 |
| CsvLine.RoundTripIff | frontend/src/features/artifacts/ArtifactList.tsx:235-260 | cells come back unchanged exactly when none has outer white space |
| CsvLine.PiecesRoundTrip | frontend/src/features/artifacts/ArtifactList.tsx:235-260 | quotes may open anywhere in a cell, after leading blanks for one: what they enclose belongs to the cell and they do not |
| CsvLine.Unclosed | frontend/src/features/artifacts/ArtifactList.tsx:239-256 | a quote that is never closed reaches to the end of the line |
| CsvLine.Normalises | frontend/src/features/artifacts/ArtifactList.tsx:235-260 | any line, well-formed or not, has the cells of its properly quoted form |
| CsvLine.SplitDelimitedLine | frontend/src/features/artifacts/ArtifactList.tsx:235-260 | the index loop with its look-ahead computes the cells |
| WorkspaceDiff.DiffRebuildsAfter | packages/common/sandbox/executor.go:275-303 | removing the deleted files and laying the reported artifacts over the rest turns the old contents into the new |
| WorkspaceDiff.DiffIsUnique | packages/common/sandbox/executor.go:294-302 | the sorted difference does not depend on the order in which the map is walked |
| WorkspaceDiff.ArtifactsAreUnique | packages/common/sandbox/executor.go:280-293 | nor do the artifacts |
| WorkspaceDiff.DiffIsDisjoint | packages/common/sandbox/executor.go:280-302 | no path is in two of created, updated and deleted |
| WorkspaceDiff.CollectArtifacts | packages/common/sandbox/executor.go:275-303 | created, updated and deleted are exactly those paths, sorted, and artifacts the new state of the first two in path order; it fails exactly if the scan does |
| WorkspaceDiff.ScanOutput | packages/common/sandbox/executor.go:305-370 | a scan succeeds exactly if the output directory is usable, all limits are kept and there are no links or unreadable entries, and then snapshots every regular file |
| Paths.OrderedIsUnique | packages/common/sandbox/executor.go:299-301 | a set of paths can be put in order in one way only |
| Paths.SortOrdered | packages/common/sandbox/executor.go:299-301 | sorting distinct paths orders them, losing and adding none |

## Left out

- Expiry of quota keys, trimming of the stream, and errors of calls that did take effect: excluded by assumption.
- HTTP routing, authentication, agent loop, model providers, mail, Docker, metrics, tracing and user interface: library calls or plumbing.
- The in-memory run queue, the no-op limiter and the nil checks around optional collaborators: easy members.
- JSON encoding of run markers, events and payloads: markers and events are kept as values, SSE payloads as texts.
- QuotaHandlers.CreateMessage: runs a request alone; that its steps interleave with others is the machine's part, in QuotaSafety and QuotaTheorems. Usage checks made before the Redis reservation are one step that may deny.
- QuotaRelease.LeavesNoMarkerIff: the release's own calls do not fail; other calls may.
- QuotaTheorems.AdmissionSafety: for a key shared by projects of chats whose sanitized names collide the limit is the largest of theirs; QuotaTheorems.OwnLimitHolds has the other projects.
- EventHandlers.SeenEvents.OnEvent: what applying an event does to the page, and closing the source at a terminal one, are not modelled.
- EventDelivery.ExactlyOnce: one run and one client; a connection's channel is sent every append that fits, or none if its replica is not the one that appends. With several writing replicas only EventFanout.FanIncreases and EventFanout.FanContiguousIff apply.
- RunQueueWorker.RedisWorker.ProcessNext: runs one iteration without other workers in between; interleavings are the queue machine's. Metrics, lease heartbeats and the new attempt id of a claimed run are not modelled.
- RunQueue.BoundedRedelivery: claims may take any pending entries at any time, which covers every reclaim count and idle time.
- QueuedRuns.RoundTripIff: time formatting and parsing are parameters that are assumed to be inverse.
- RateWindows.SlidingBound: a key's limit does not change during a history.
- RateWindows.LetThrough: readings that go back are the matter of RateWindows.SlidingBound only.
- QuotaAdmission.AcceptedIff: decrements and the marker's delete in a roll-back work; QuotaTheorems.LedgerConservation covers those that fail.
- RedisRateWindows.CalendarBound: assumes one clock and increments that reach Redis before the minute after their own is over; two keys with the same digest count as one.
- Semaphore.CallsPerMinute: readings must not go back; the limiter reads the clock under its lock.
- ToolQuota.DailyLimit: each reservation is one step; the source reads, checks and saves in separate calls. Integers are unbounded, completion does not overwrite usage, and the token total that normalisation fills in is not part of the model.
- WorkspaceDiff.ScanOutput: file sizes are unbounded integers, so the running total cannot wrap. Entries come from the directory walk as a list with distinct paths.
- Resp.ReadReply: texts are checked but stay bytes, and Python's limit on the digits of a number is not modelled.
- SseFrames.ReadSseEvents: the deadline is taken as not reached, and JSON decoding is a parameter that says which payloads are objects and of which type they are.
- CsvLine.SplitDelimitedLine: the split into lines and the preview's limits on rows and columns are not modelled.
- RunSinkTheorems.MissedLookup: artifact expiry is not modelled as such; a lookup of an expired artifact is one that fails.
- ToolQuota.Server.SumRunUsageSince: of the totals, those of tokens, cost, latency, errors, output, memory and artifacts are not modelled; the limits do not use them.
