# Verified model of the Discord bot's job manager, audio pipeline and credential selection

This project models, in Dafny 4.11, the parts of the bot that many goroutines work on at once, and
proves what holds over whole runs of them.

* **The job manager** (`internal/jobs`). Automatic stop, automatic start, rejoin, Start and Stop,
  reconnection and participant publishing share one lock and are kept apart only by generations,
  revisions, epochs and reservation identity. `ManagerState` has one function per stretch of code
  under that lock, `ManagerObject.Manager` is the object whose methods are proved to compute those
  functions, and `ManagerSystem` runs them as a state machine: a goroutine or timer is a *task* that
  holds what the goroutine captured, every event and every answer of the outside world is arbitrary,
  and a trace records what the outside can see. `PublishOrder`, `AutoStopSafety`, `RequestIdentity`,
  `StopProgress`, `StopAnswers`, `SnapshotOrder`, `AutoStartSafety`, `ReservationOrigin`, `StopFence`,
  `RejoinIntents`, `AssignmentEpoch` and `StopEpoch` prove the claims about all runs. `RosterLaws`,
  `JoinLaws`, `LifecycleLaws` and `ActingPaths` say what each event and each stage does, in the terms of
  what it is for, and that undisturbed stops and starts do reach the panel. `RefreshLock` has the lock
  that serialises Start with the refreshes, and `SystemFrames` what each kind of task may change.
* **The worker retry queue** (`RetryQueue`): a bounded, coalescing, newest-wins queue with one consumer;
  `RetryTimes` proves when its reports are sent.
* **Audio forwarding**: `AudioForward` has the event loop with its two batches and the held buffers of
  speakers not known yet; `AudioOrder`, `AudioConservation` and `AudioFidelity` prove order,
  conservation and content over all runs; `BatchQueue` proves on the heap that a queued batch shares no bytes with its sender.
* **Credential selection**: `CurrentAuthority`, `GatewayProfile` and `WaitingGateway`, their
  composition `RuntimeGateway`, and the composition with the manager's unique-match lookup.
* **Compact algorithms**: `VoiceFence`, `Notification`, `Watchdog`, `RetryBudget`, `DuplicateKeys`.

## How to read it

Times are integer nanoseconds and counters are unbounded naturals, except in `RetryBudget`, where
64-bit wrap-around is the point. Identifiers of the manager are already trimmed; the two selectors,
which test for trimming, use the trimming of `Text`. Keys that the source joins with NUL bytes are
tuples. A loop over a Go map takes its elements in an arbitrary order. The identity of a heap object
that only serves as identity (a reservation, a receipt, a cancelable context, a stop channel) is a
number. The many fields of the manager are grouped into records by the protocol they belong to.

Network calls, snapshots, presence readings, SSRC lookups, clocks and timers are parameters of the
events, so every theorem about a run covers every answer and every interleaving. A goroutine that
publishes and then goes on is split into two tasks, and retry deliveries and synchronisation calls may
happen at any time with any content that the code could give them: the model has more runs than the code.

Six promises turned out to need a condition. For each the project has the exact condition and an
input that shows why it is needed:

* A refresh that omits a pinned stream keeps its epoch exactly under the condition of
  `AssignmentEpoch.ProjectionDecidesEpoch`. A caller that never supplies an execution snapshot can lose
  it (`OmissionForgetsWithoutSnapshot`); one that supplies a snapshot before its first non-empty
  projection never does (`PinnedIsNeverForgotten`). The program is of the second kind: it supplies the
  snapshot before every non-empty projection (cmd/discord-bot/main.go:552-560).
* Stop is sure to fence with the epoch and channel of the job it was asked to stop exactly when no start
  and no other stop is under way at that moment (`StopEpoch.StopFencesExactly`), with or without the
  lock that serialises starts and refreshes. Under that lock too, restarting a running stream while it
  is stopped fences it with the newer epoch (`StopEpoch.RestartMisfences`).
* Caption packets stay in arrival order exactly as long as no packet overtakes its own held buffer
  (`AudioOrder.HeardKeepsExactly`), which needs a speaker that becomes unknown again between two
  lookups of one event (`AudioConservation.FlickerReordersCaptions`).
* The retry delays are the doubled ones exactly while the last doubling fits into 64 bits
  (`RetryBudget.DelaysAreIdealExactly`); the first delay beyond is negative, so nothing is waited.
* The retry queue's `latest` has keys only of pending reports and the report in hand exactly when no
  latest report has failed its refresh without anything touching its key since
  (`RetryQueue.NothingElseRememberedExactly`); `FailedRefreshLeavesTheKey` is a run that leaves one.
* The duplicate check compares names by lower-casing, the authority field by EqualFold. It misses
  EqualFold-equal names exactly when lower-casing separates two of one object
  (`DuplicateKeys.MissesExactly`), and over all values exactly when lower-casing splits an EqualFold
  orbit (`CatchesAllExactly`), which it does for "s" and U+017F (`LongSPasses`).

`dafny verify dfyconfig.toml` checks the whole project.

## Model

| member | source | states |
|---|---|---|
| ManagerObject.Manager.UpdateAutoStopForParticipantSet | internal/jobs/auto_stop.go:51-80 | an occupied channel cancels the stop and records a rejoin when a request is out; an empty one arms a new generation unless one is pending or the cooldown runs |
| ManagerObject.Manager.IssueAutoStop | internal/jobs/auto_stop.go:145-156 | the last check before a stop request, and the in-flight record it leaves with epoch, generation and job |
| ManagerObject.Manager.CompleteAutoStop | internal/jobs/auto_stop.go:159-163 | the answer clears only the in-flight record of its own generation and tells whether to go on or to reconcile a rejoin |
| ManagerObject.Manager.ScheduleAutoStopRetry | internal/jobs/auto_stop.go:194-220 | a retry uses up one attempt of the valid generation, and the last one finishes it |
| ManagerObject.Manager.FinishAutoStop | internal/jobs/auto_stop.go:253-260 | finishing touches the pending flag and attempts only of the generation it was called for |
| ManagerObject.Manager.CancelAutoStop | internal/jobs/auto_stop.go:262-272 | cancelling ends the request's context, forgets the record and starts a new generation |
| ManagerObject.Manager.ParticipantChanged | internal/jobs/participants.go:35-91 | one participant event: participants, speakers, revision, stop arming and the report to make |
| ManagerObject.Manager.ParticipantsSynced | internal/jobs/participants.go:109-195 | one snapshot: which are ignored, which replace the participants, and what is reported |
| ManagerObject.Manager.ParticipantsSnapshot | internal/jobs/participants.go:369-376 | one row per participant, each exactly once, with its speaking flag |
| ManagerObject.Manager.SetSpeakerState | internal/jobs/active_speakers.go:29-81 | only current participants become speakers; the revision and the reports that follow |
| ManagerObject.Manager.ClearSpeakerStates | internal/jobs/active_speakers.go:83-109 | clears all speakers under a new revision |
| ManagerObject.Manager.VoiceUserJoined | internal/jobs/auto_start.go:53-115 | the first section of a join: ignored, rejoin intent, refresh or reservation |
| ManagerObject.Manager.ReserveAutoStart | internal/jobs/auto_start.go:119-171 | the reserving section: authority, fence, existing reservation, cooldown, new reservation |
| ManagerObject.Manager.MatchingAutoStartStream | internal/jobs/auto_start.go:361-381 | the unique enabled stream of a voice channel, whatever the map order, or none |
| ManagerObject.Manager.DecideAutoStart | internal/jobs/auto_start.go:280-318 | passes exactly when the reservation may still dispatch and presence is known; otherwise a valid reservation and its pending start go |
| ManagerObject.Manager.FinishAutoStartRetry | internal/jobs/auto_start.go:327-337 | removes the reservation only if it is still this one |
| ManagerObject.Manager.AutoStopRejoinIntentForStream | internal/jobs/auto_stop_rejoin.go:84-92 | an intent of the stream, whichever the map order gives first, or none |
| ManagerObject.Manager.DecideAutoStopRejoin | internal/jobs/auto_stop_rejoin.go:144-166 | the deciding section for whichever intent its second lookup meets: retry, stop, or consume the intent and rejoin |
| ManagerObject.Manager.InFlightAutoStopStreamForVoice | internal/jobs/auto_stop_rejoin.go:27-44 | the only stream with a request for that channel, whatever the map order, or none |
| ManagerObject.Manager.RecordAutoStopRejoinIntent | internal/jobs/auto_stop_rejoin.go:46-69 | one intent per channel, numbered, with the epoch of the request |
| ManagerObject.Manager.StartBegin | internal/jobs/manager.go:127-152 | which starts are refused, and the epoch a start captures |
| ManagerObject.Manager.StartCommit | internal/jobs/manager.go:158-179 | the state that a successful start leaves |
| ManagerObject.Manager.StopBegin | internal/jobs/manager.go:195-221 | the first section of Stop |
| ManagerObject.Manager.StopRevert | internal/jobs/manager.go:226-242 | a failed LeaveVoice leaves the job running with a new queue, and the invalidated generation behind |
| ManagerObject.Manager.StopCommit | internal/jobs/manager.go:244-265 | the fence and the empty job that Stop leaves |
| ManagerObject.Manager.DiscordConnected | internal/jobs/reconnect.go:32-58 | a running job gets a new retry queue, otherwise there is none |
| ManagerObject.Manager.DiscordDisconnected | internal/jobs/reconnect.go:60-83 | a new reconnect generation without reservations and without a queue |
| ManagerObject.Manager.RejoinCommit | internal/jobs/reconnect.go:107-119 | a voice rejoin commits only for the same job and generation |
| ManagerObject.Manager.SetStreamVoiceDefaults | internal/jobs/voice_defaults.go:73-157 | the projection: defaults, retained epochs, pending starts, reservations and fences it leaves |
| ManagerObject.Manager.SetExecutionAuthorityStreams | internal/jobs/runtime_gateway.go:29-38 | the set of executing streams that pins epochs |
| PublishOrder.PublicationsInOrder | internal/jobs/participants.go:306-348 | over every run published lists carry non-decreasing (generation, revision), each is exactly the view of some reached state at that revision, and every active speaker is a participant |
| PublishOrder.ViewsExisted | internal/jobs/event_retry.go:355-410 | every view handed to the reporter, retries included, was the manager's view in a state of the run |
| SnapshotOrder.StaleSnapshotChangesNothing | internal/jobs/participants.go:131-148 | a numbered snapshot no newer than the last one installed changes nothing in the manager, whoever brings it |
| SnapshotOrder.SnapshotInstallsExactly | internal/jobs/participants.go:109-195 | a snapshot of the running job, not overtaken and unnumbered or newer, installs exactly its named users and the largest revision; every other leaves the manager alone; which ones are reported, and with what rows |
| SnapshotOrder.InstalledRevisionNeverDecreases | internal/jobs/participants.go:149-151 | over every run between two commits of Start the installed revision never goes back |
| SnapshotOrder.NoOlderSnapshotFollows | internal/jobs/participants.go:145-148 | over every such run the later of two numbered snapshots installed has the larger revision |
| RosterLaws.ParticipantMeans | internal/jobs/participants.go:35-91 | which participant events count, the one user they add, update or remove, and the report and silence that follow |
| RosterLaws.SpeakerMeans | internal/jobs/active_speakers.go:29-81 | which speaker calls count, who speaks afterwards, and the reports |
| RosterLaws.ClearMeans | internal/jobs/active_speakers.go:83-109 | clearing silences everybody of the running stream, if anybody speaks |
| RosterLaws.PolicyMeans | internal/jobs/auto_stop.go:51-80 | whatever installs a roster: an empty one arms a stop exactly without a pending one and after the cooldown, an occupied one ends the generation and cancels its request |
| RosterLaws.ArmedTaskStarts | internal/jobs/participants.go:80-91 | the stop's goroutine starts exactly when the stop is armed |
| RosterLaws.ReportPublishesTheList | internal/jobs/participants.go:306-348 | in every reachable state a report of the running job and connection publishes the current list, and another one is dropped |
| RosterLaws.EdgePublishesTheFlag | internal/jobs/active_speakers.go:111-150 | a speaking edge is published only at the revision it was made at |
| RosterLaws.PublishingMeans | internal/jobs/participants.go:306-348 | publishing hands out what was captured and frees the report lock; nothing is reported meanwhile |
| RosterLaws.RetryPublishesTheState | internal/jobs/event_retry.go:355-400 | a retried report of the running job's own queue and connection publishes the state as it is |
| AutoStopSafety.RequestsBoundedAndConfirmed | internal/jobs/auto_stop.go:82-220 | over every run a generation makes at most 1 + retries requests, with two known-empty snapshots before the first and one before each retry, and one task per (stream, generation) |
| StopAnswers.OnlyRetryableFailuresAreRepeated | internal/jobs/auto_stop.go:171-220 | over every run a generation asks again only after a retryable failure was answered since, and never after a success or another failure |
| StopAnswers.AnswerLeadsOn | internal/jobs/auto_stop.go:157-184 | what an answer leads to: the request is forgotten, a wanted retryable failure goes to its retry, any other wanted answer to the end, an unwanted one ends the task and reconciles a recorded rejoin |
| StopAnswers.FailureLeadsOn | internal/jobs/auto_stop.go:194-220 | a retryable failure with a retry left waits again one attempt further, and without one the stop is over |
| StopAnswers.FinishedForGood | internal/jobs/auto_stop.go:181-184 | the finishing step ends the task, and over every run its generation is never pending again |
| ActingPaths.StopStagesMean | internal/jobs/auto_stop.go:82-144 | the waiting, confirming and giving-up stages of a stop |
| ActingPaths.ReadingMeans | internal/jobs/auto_stop.go:104-128 | an empty reading confirms, one with members is merged, no reading gives up |
| ActingPaths.RequestMeans | internal/jobs/auto_stop.go:145-156 | the request is made exactly if the generation is still wanted for its job and connection |
| ActingPaths.EmptyChannelIsStopped | internal/jobs/auto_stop.go:82-157 | an undisturbed stop of an empty channel asks the panel after two empty readings |
| AutoStopSafety.IssuedOnlyWhenEmpty | internal/jobs/auto_stop.go:145-156 | a request is issued only by the live generation's task, for the same job and reconnect generation and an empty channel |
| AutoStopSafety.OldAnswerTouchesNothingNewer | internal/jobs/auto_stop.go:159-308 | the answer to an older request changes no pending flag, attempt count or in-flight record of a newer generation |
| StopProgress.StopTaskEnds | internal/jobs/auto_stop.go:82-220 | every step of a stop task, in every stage, ends it, waits, or lowers (retries left, confirmation, stage) |
| StopProgress.PotentialStep | internal/jobs/auto_stop.go:22-80 | no event whatever raises that potential of a stop task that is there, and each of its own moves lowers it |
| StopProgress.StopTaskMovesAreBounded | internal/jobs/auto_stop.go:82-220 | so over every run one auto-stop goroutine moves at most 16 times the number of retries plus 17 times |
| RequestIdentity.StopNeverCancelsTheRequest | internal/jobs/manager.go:195-270 | in every reachable state no outstanding request is cancelled, and no section of Stop cancels or forgets one |
| AutoStartSafety.CallsBoundedAndPrepared | internal/jobs/auto_start.go:177-278 | over every run a reservation calls StartStream at most 1 + retries times, and with a presence source each call has its own check, known-present reading and second check |
| AutoStartSafety.OnlyRetryableRefusalsAreRepeated | internal/jobs/auto_start.go:172-278 | over every run a reservation calls again only after a call that was refused with a retryable error |
| AutoStartSafety.AnswerDecides | internal/jobs/auto_start.go:172-275 | a retryable refusal with a delay left waits for the next attempt, everything else finishes; the reservation notes a refusal for lack of capacity |
| AutoStartSafety.FinishingFreesTheCooldown | internal/jobs/auto_start.go:327-337 | the cooldown is freed exactly for the stream's own reservation that was last refused for lack of capacity, with no job started |
| ActingPaths.StartStagesMean | internal/jobs/auto_start.go:234-318 | the checking, reading, deciding, calling and waiting stages of a start |
| ActingPaths.JoinIsCalled | internal/jobs/auto_start.go:53-180 | an undisturbed join into a waiting stream's channel is reserved, checked, found present, checked and called |
| AutoStartSafety.PassedCheckMeans | internal/jobs/auto_start.go:280-325 | a passed check found the reservation live, no job, the same epoch and reconnect generation, and the stream unique for its channel |
| ReservationOrigin.EveryStartWasReserved | internal/jobs/auto_start.go:119-171 | over every run each start task goes back to one reserving step, made while the stream had no reservation, with the epoch, generation and authority of that moment |
| JoinLaws.LookupsMean | internal/jobs/auto_start.go:361-381 | the lookups find a stream exactly when it is the only one of its channel |
| JoinLaws.JoinWhileRunning | internal/jobs/auto_start.go:65-85 | while a stream runs only a genuine join into its own channel counts: it cancels the stop request and leaves an intent |
| JoinLaws.JoinWhileStopping | internal/jobs/auto_start.go:86-97 | a genuine join into a channel whose stop is not answered yet is kept as an intent of that stream's epoch |
| JoinLaws.JoinWhileIdle | internal/jobs/auto_start.go:98-115 | another join goes to a refresh exactly when no stream is known and the last refresh is long enough ago, and otherwise to the reservation of the only stream |
| JoinLaws.ReservesExactly | internal/jobs/auto_start.go:119-171 | when a join reserves: starts possible, epoch right, no reservation, cooldown over or fence falling, and a fence falls only to a genuine join; and what it leaves |
| AutoStartSafety.StartTaskTouchesOnlyItself | internal/jobs/auto_start.go:280-337 | no step of a start task touches the reservation or pending start of another stream, or a newer reservation of its own |
| StopFence.FenceHolds | internal/jobs/auto_start.go:136-143 | from Stop's commit on, over every run without a genuine join, changed projection or reconciled rejoin, the fence stands and the stream is not reserved |
| StopFence.PresenceAloneNeverRestarts | internal/jobs/auto_start.go:136-143 | over every run without projections, rejoins and genuine joins, events about members already there leave the fence and reserve nothing |
| RejoinIntents.IntentsConsumedOnce | internal/jobs/auto_stop_rejoin.go:114-178 | over every run no intent is consumed twice or still recorded after it was consumed |
| RejoinIntents.ConsumptionMeans | internal/jobs/auto_stop_rejoin.go:144-167 | an intent is consumed only for its own stream and epoch, with no job active at the deciding lock |
| JoinLaws.RejoinDecidesExactly | internal/jobs/auto_stop_rejoin.go:134-178 | the deciding step: a changed intent ends it, the stream's own job keeps the intent, another's drops it, and with none it is consumed if the stream may start there under its epoch |
| JoinLaws.ReconciliationMeans | internal/jobs/auto_stop_rejoin.go:94-132 | a reconciliation runs once per stream and only for an intent, and drops it when the delays are used up |
| AssignmentEpoch.ProjectionDecidesEpoch | internal/jobs/voice_defaults.go:73-131 | which epoch a refresh leaves a stream with: the projected one, and for an omitted stream its own exactly under the pin and snapshot condition |
| LifecycleLaws.ProjectMeans | internal/jobs/voice_defaults.go:73-157 | which defaults, reservations, pending starts and fences a projection leaves, and whose contexts it cancels |
| LifecycleLaws.StartMeans | internal/jobs/manager.go:127-152 | which starts are refused, and what an accepted one ends and captures |
| LifecycleLaws.StartCommitMeans | internal/jobs/manager.go:153-185 | the whole state a successful start leaves; a failed one changes nothing |
| LifecycleLaws.StopMeans | internal/jobs/manager.go:195-224 | Stop always cancels the reservations; which stops are accepted, and that the request under way stays |
| LifecycleLaws.LeaveMeans | internal/jobs/manager.go:225-265 | the whole state after a successful and a failed leave |
| LifecycleLaws.ConnectMeans | internal/jobs/reconnect.go:32-58 | a connection ends the pause, with a new retry queue for a running job only |
| LifecycleLaws.DisconnectMeans | internal/jobs/reconnect.go:60-83 | a lost connection pauses in a new generation without queue and reservations, and rejoins a running job |
| LifecycleLaws.RejoinMeans | internal/jobs/reconnect.go:85-130 | when a rejoin tries, what its success and failure do |
| AssignmentEpoch.OmissionForgetsWithoutSnapshot | internal/jobs/voice_defaults.go:102-131 | a run from the start, of a caller that supplies no execution snapshot, in which a refresh forgets the running stream's epoch |
| AssignmentEpoch.PinnedIsNeverForgotten | cmd/discord-bot/main.go:552-560 | with a snapshot before the first non-empty projection no event takes the epoch from a stream still referred to, unless it is projected with another |
| AssignmentEpoch.RetentionIsBounded | internal/jobs/voice_defaults.go:102-131 | retained epochs are those of projected or pinned streams, and an omitted stream is no auto-start candidate |
| AssignmentEpoch.EpochSurvives | internal/jobs/voice_defaults.go:73-157 | over any run whose refreshes project or find the stream pinned, its epoch stays |
| AssignmentEpoch.StartRecordsTheEpoch | internal/jobs/manager.go:147-166 | so the job that Start commits carries the epoch, however many refreshes omitted it |
| AssignmentEpoch.StopFencesWithTheEpoch | internal/jobs/manager.go:249-265 | over every run without another commit Stop fences with the epoch and channel of the job it ends |
| RefreshLock.OneStartAtATime | internal/jobs/voice_defaults.go:10-14 | over every run under the refresh lock at most one start is between its two sections |
| StopEpoch.StopFencesExactly | internal/jobs/manager.go:195-265 | an accepted Stop is sure of the right fence, over every run up to its commit, exactly when no start and no other stop is under way; the same under the lock |
| StopEpoch.RestartMisfences | internal/httpapi/server.go:203-212 | a run under the lock in which a restart commits during Stop: the stream is fenced with the newer epoch and the new job dropped |
| RetryQueue.WorkerEventRetryQueue.Stop | internal/jobs/event_retry.go:71-82 | a stopped queue is empty for good |
| RetryQueue.WorkerEventRetryQueue.Enqueue | internal/jobs/event_retry.go:84-104 | refuses exactly a stopped queue or a full one without chat; otherwise stamps the newest sequence and evicts at most the oldest chat |
| RetryQueue.WorkerEventRetryQueue.DropOldestChat | internal/jobs/event_retry.go:106-124 | removes a chat report that waited longest, if there is one |
| RetryQueue.WorkerEventRetryQueue.Next | internal/jobs/event_retry.go:126-151 | takes the longest waiting due report, or says how long none is due |
| RetryQueue.WorkerEventRetryQueue.MarkDropped | internal/jobs/event_retry.go:159-176 | forgets the key only if the report is still its latest |
| RetryQueue.WorkerEventRetryQueue.Requeue | internal/jobs/event_retry.go:178-203 | puts a report back only if it is still the latest, with the capped doubled delay |
| RetryQueue.WorkerEventRetryQueue.RetryDelay | internal/jobs/event_retry.go:191-198 | the doubling loop of requeue computes Backoff |
| RetryQueue.BackoffIsCappedDoubling | internal/jobs/event_retry.go:191-198 | the delay is base times a power of two, capped |
| RetryQueue.NewestWinsAndBounded | internal/jobs/event_retry.go:84-203 | over every run pending reports are the latest of their keys, exactly the abandoned keys are remembered besides, at most 257 are held, each is sent at most 4 times, and no older one returns after a newer |
| RetryQueue.NothingElseRememberedExactly | internal/jobs/event_retry.go:153-176 | `latest` has keys only of pending reports and the report in hand exactly when no key is abandoned |
| RetryQueue.FailedRefreshLeavesTheKey | internal/jobs/event_retry.go:393-397 | a run in which a failed refresh leaves a key without a report |
| RetryQueue.LossMeansOldestChat | internal/jobs/event_retry.go:84-124 | a step loses a pending report only to a newer one of its key, or as the oldest chat of a full queue |
| RetryTimes.QueuedWhenPut | internal/jobs/event_retry.go:90-104 | whatever is put into the queue is queued at that time, new with the next number, or back with its own |
| RetryTimes.EnqueueMeans | internal/jobs/event_retry.go:84-124 | an accepted report is the latest of its key; a full queue loses the chat report queued first, and nothing else goes |
| RetryTimes.SettleMeans | internal/jobs/event_retry.go:159-203 | a published report comes back exactly after a repeatable failure, fewer than four sends and nothing newer of its key |
| RetryTimes.TakenInItsTurn | internal/jobs/event_retry.go:126-151 | over every run a report is taken exactly when it has waited 250 ms, 500 ms or 1 s since it was queued, by its sends, and no other ripe one was queued before it |
| BatchQueue.BatchQueue.constructor | internal/audioforward/queue.go:16-21 | an empty queue of capacity at least one |
| BatchQueue.BatchQueue.Enqueue | internal/audioforward/queue.go:25-40 | accepts exactly a non-empty batch below capacity, and what it queues is in arrays of its own |
| BatchQueue.BatchQueue.RunTurn | internal/audioforward/queue.go:45-72 | takes batches whole and in order; a canceled context loses the one in hand, or keeps its result back |
| AudioForward.ForwardLoop.ResolveFallbackUser | internal/discord/audio_forward.go:161-168 | asks at most every 250 ms for the only human in the channel |
| AudioForward.ForwardLoop.FlushCaption | internal/discord/audio_forward.go:169-187 | one caption batch: queued, refused without token, stale, or dropped with its counters |
| AudioForward.ForwardLoop.FlushEncoder | internal/discord/audio_forward.go:169-188 | one encoder batch: queued, stale, or dropped with its counters |
| AudioForward.ForwardLoop.FlushExpiredUnresolved | internal/discord/audio_forward.go:199-218 | releases exactly the held buffers that are resolved or too old, whole, in some order of the map |
| AudioForward.ForwardLoop.Tick | internal/discord/audio_forward.go:225-239 | the ticker case |
| AudioForward.ForwardLoop.Hear | internal/discord/audio_forward.go:240-297 | the packet case |
| AudioForward.ForwardLoop.Serve | internal/discord/audio_forward.go:71-96 | one turn of a consumer with its result counters |
| AudioForward.VisitReleases | internal/discord/audio_forward.go:199-218 | deleting from the map while looping over it releases the same as releasing the list |
| AudioOrder.PlacedLine | internal/discord/audio_forward.go:273-287 | putting one packet in its place keeps the order of an SSRC exactly when the packet does not overtake its held buffer |
| AudioOrder.HeardKeepsExactly | internal/discord/audio_forward.go:240-297 | the same for the whole packet case |
| AudioOrder.OvertakesMeansUnresolvedAgain | internal/discord/audio_forward.go:251-287 | overtaking needs a resolved SSRC to become unresolved within the event |
| AudioOrder.HeldBuffersStayBounded | internal/discord/audio_forward.go:275-283 | over every run the two maps share their keys and each buffer holds 1 to 50 packets of its SSRC |
| AudioOrder.CaptionsInOrder | internal/discord/audio_forward.go:161-297 | over every run without overtaking, flushed, open and held caption packets of an SSRC are its received ones in order, less those a full buffer refused |
| AudioOrder.CaptionsInOrderWhileResolved | internal/discord/audio_forward.go:161-297 | so it is in every run in which a resolved SSRC stays resolved |
| AudioConservation.EncoderInOrder | internal/discord/audio_forward.go:278-297 | over every run flushed and open encoder packets are all received ones in order, in batches of 1 to 50 |
| AudioConservation.QueuesAreFifo | internal/audioforward/queue.go:25-72 | over every run a queue holds at most 64 batches and is served in order, missing only whole batches |
| AudioConservation.EncoderPacketsAreAccountedFor | internal/discord/audio_forward.go:71-108 | over every run each received packet is forwarded, dropped, queued, open, or in a batch with an unreported end |
| AudioConservation.FlickerReordersCaptions | internal/discord/audio_forward.go:199-287 | two packets whose captions change places when the second lookup fails |
| AudioFidelity.RecordedIsReceived | internal/discord/audio_forward.go:240-273 | a packet event records one packet, the voice it brought, under the looked-up speaker or the only human; no other event records any |
| AudioFidelity.ReceivedAreTheVoices | internal/discord/audio_forward.go:264-273 | over every run the packets received are the voices of the recorded events, with their audio, numbers and generations |
| AudioFidelity.CaptionTakesThePacket | internal/discord/audio_forward.go:273-287 | the caption path takes the recorded packet as it is, at its end or at the end of its held buffer |
| AudioFidelity.ReleaseMeans | internal/discord/audio_forward.go:199-218 | which held buffers are emptied, and under which speaker their packets leave |
| AudioFidelity.TickFlushesWhatIsDue | internal/discord/audio_forward.go:225-238 | a tick empties the open batches that have waited 100 ms, or the configured caption time |
| AudioFidelity.HearFlushesWhatIsFull | internal/discord/audio_forward.go:288-296 | a packet event leaves fewer than 50 encoder packets and fewer caption packets than configured |
| AudioFidelity.FlushMeans | internal/discord/audio_forward.go:169-188 | how an open batch ends and what is counted |
| AudioFidelity.ServeMeans | internal/discord/audio_forward.go:71-96 | a consumer takes the first batch and counts it as forwarded or as one error |
| CurrentAuthority.CurrentDiscordGatewayAuthority | cmd/discord-bot/current_discord_bindings.go:19-102 | grants exactly the authority that the lists determine, and refuses exactly when there is none |
| CurrentAuthority.CollectAssignments | cmd/discord-bot/current_discord_bindings.go:44-56 | collects the primary assignments, or finds one that no authority allows |
| CurrentAuthority.CheckBindings | cmd/discord-bot/current_discord_bindings.go:61-75 | accepts the bindings that each fit a primary assignment of their own, on one profile |
| CurrentAuthority.SelectProfile | cmd/discord-bot/current_discord_bindings.go:79-100 | the only profile of the identifier, and the binding of the first stream |
| CurrentAuthority.GrantIsUnique | cmd/discord-bot/current_discord_bindings.go:19-102 | a configuration grants at most one authority |
| CurrentAuthority.OrderDoesNotMatter | cmd/discord-bot/current_discord_bindings.go:42-101 | reordering the three lists changes no outcome and no error |
| CurrentAuthority.GrantIsABijection | cmd/discord-bot/current_discord_bindings.go:57-75 | bindings and primary assignments correspond one to one with equal epochs |
| CurrentAuthority.GrantHasOneCredential | cmd/discord-bot/current_discord_bindings.go:64-101 | all of them share one profile and its credential |
| CurrentAuthority.GrantMeans | cmd/discord-bot/current_discord_bindings.go:19-102 | what holds of every granted binding, its assignment and its profile |
| CurrentAuthority.OneStreamIsGranted | cmd/discord-bot/current_discord_bindings.go:19-102 | every such configuration of one stream is granted, whatever its names |
| Text.TrimMeans | cmd/discord-bot/current_discord_bindings.go:24 | trimming takes exactly the space at both ends |
| Text.LessMeans | cmd/discord-bot/current_discord_bindings.go:87-91 | the order of names is that of their first difference |
| GatewayProfile.GatewayCredentials.GatewayProfileForAssignments | internal/jobs/gateway_profile_authority.go:11-47 | returns the profile all current streams agree on, learns it, and empties the cache when there is none |
| GatewayProfile.GatewayCredentials.ReconcileGatewayCredential | internal/jobs/voice_defaults.go:30-52 | which calls resolve the secret, and the Gateway and cache they leave |
| GatewayProfile.ResolvedOnce | internal/jobs/voice_defaults.go:28-52 | over every run that resolves one reference, its secret is fetched successfully at most once |
| GatewayProfile.AgreementMeans | internal/jobs/gateway_profile_authority.go:11-47 | the agreed profile is the one every current stream has, by its binding or by what was learned for the same epoch |
| GatewayProfile.LearningMeans | internal/jobs/gateway_profile_authority.go:14-46 | what the cache holds of a stream afterwards |
| RuntimeGateway.ReconcileRuntimeGateway | cmd/discord-bot/main.go:512-550 | comes to the planned decision in every case, never takes the mismatch branch, and clears the defaults and disconnects on every refusal |
| RuntimeGateway.PlanIsUnique | cmd/discord-bot/main.go:512-550 | a configuration has one plan: refusal, nothing, current or waiting binding, and the profile cache it leaves |
| RuntimeGateway.PlanMeans | cmd/discord-bot/main.go:512-550 | the plan and the cache for a granted authority, in terms of the running stream and the monitor |
| WaitingGateway.SelectDiscordWaitingGateway | cmd/discord-bot/discord_waiting_monitor.go:25-95 | the outcome is the one that the bindings determine without their order |
| WaitingGateway.Gather | cmd/discord-bot/discord_waiting_monitor.go:47-75 | accepts exactly sound lists and keeps the candidates and the counts per channel |
| WaitingGateway.Pick | cmd/discord-bot/discord_waiting_monitor.go:79-91 | keeps the candidates alone on their channel and the binding of the first stream |
| WaitingGateway.OrderDoesNotMatter | cmd/discord-bot/discord_waiting_monitor.go:25-95 | two orders of the same bindings end the same way |
| WaitingGateway.SelectedTargetsAreDistinct | cmd/discord-bot/discord_waiting_monitor.go:64-91 | selected targets share one credential and are distinct channels |
| WaitingGateway.SelectedStreamIsFound | internal/jobs/auto_start.go:361-381 | after the projection the manager's lookup returns each selected stream for its channel |
| WaitingGateway.SelectionMeans | cmd/discord-bot/discord_waiting_monitor.go:47-91 | what holds of the binding behind every selected stream, and under which epoch and channel it waits |
| WaitingGateway.OneBindingIsSelected | cmd/discord-bot/discord_waiting_monitor.go:25-95 | every such single binding is selected, whatever its names |
| VoiceFence.RealClient.JoinVoice | internal/discord/voice.go:13-92 | a join replaces the connection, closes the old stop channel and takes a new generation |
| VoiceFence.RealClient.LeaveVoice | internal/discord/voice.go:98-145 | a leave of the right stream drops the connection and takes a new generation |
| VoiceFence.RealClient.MarkVoiceDisconnected | internal/discord/voice.go:201-233 | a disconnect keeps job and generation and may leave the stop channel open |
| VoiceFence.RealClient.Call | internal/discord/voice.go:168-199 | a callback changes something only while its connection is current |
| VoiceFence.CurrentAgainExactly | internal/discord/voice.go:168-172 | exactly which jobs and generations can ever be current again |
| VoiceFence.StaleCallbacksChangeNothing | internal/discord/voice.go:168-199 | the callbacks of a stale connection can be erased from any run |
| VoiceFence.ChannelsAreClosedOnce | internal/discord/voice.go:39-56 | over every run each stop channel and watcher is ended at most once, and all but the current one are |
| VoiceFence.ConnectionHoldsItsResources | internal/discord/voice.go:35-233 | over every run connected means a connection, a stop channel and a watcher of the latest join |
| VoiceFence.JoinMeans | internal/discord/voice.go:13-92 | the whole state after a join |
| VoiceFence.LeaveMeans | internal/discord/voice.go:98-145 | the whole state after a leave |
| VoiceFence.CallbackMeans | internal/discord/voice.go:168-233 | what a callback of the current connection changes; a speaker is idle after 1.25 s |
| JobTypes.SameJobMeans | internal/discord/voice.go:174-181 | two jobs are the same exactly when they differ in their settings at most |
| Notification.NotificationBoard.Begin | internal/jobs/notification.go:67-119 | the first section: objections, pruning, waiting, conflict, capacity, or a new receipt |
| Notification.NotificationBoard.Complete | internal/jobs/notification.go:121-152 | the second section: a failure removes the entry, a success keeps the result |
| Notification.NotificationBoard.Prune | internal/jobs/notification.go:155-180 | what was sent 24 hours ago goes; a younger sent receipt goes only from a full table, and only if none that stays is older |
| Notification.OneSendInFlight | internal/jobs/notification.go:96-121 | over every run two sends of one event never overlap |
| Notification.SendersOwnTheirEntries | internal/jobs/notification.go:136-147 | over every run at most 2048 receipts, and a sending call deletes only its own |
| Notification.RetainedIsNeverResent | internal/jobs/notification.go:96-112 | a retained event is never sent again |
| Notification.ResultsAreFinal | internal/jobs/notification.go:103-110 | a finished receipt never changes, so every waiter returns the original result |
| Notification.SendsExactly | internal/jobs/notification.go:67-119 | exactly when a call sends, and what it leaves in the table |
| Notification.CompletionMeans | internal/jobs/notification.go:121-152 | a send with a message identifier is retained with it and its time, and every other frees the event |
| Notification.NoResendWithinADay | internal/jobs/notification.go:155-160 | over every run of non-decreasing times and fewer than 2048 receipts no event is sent again within 24 hours of its completed send |
| Watchdog.StampList.PruneOlderThan | internal/davewatch/watchdog.go:173-181 | the in-place filter equals the mathematical one |
| Watchdog.Watchdog.Tick | internal/davewatch/watchdog.go:118-165 | one tick: which attempt, if any, and the stamps it leaves |
| Watchdog.AttemptsAreRateBounded | internal/davewatch/watchdog.go:118-165 | for non-decreasing ticks every half-open window holds at most the limit of resends, and of resets of all causes |
| Watchdog.TickActsExactly | internal/davewatch/watchdog.go:118-165 | over every non-decreasing run exactly when a tick resends and resets, for which reason, and with which number within the window |
| Watchdog.NormalizedMeans | internal/davewatch/watchdog.go:69-96 | the configuration that New keeps |
| Watchdog.ClockSetBackBreaksTheBound | internal/davewatch/watchdog.go:136-141 | non-decreasing times are needed by a caller of Tick with times of its own: four ticks that exceed the limit |
| RetryBudget.RetryDelay | internal/audioforward/client.go:267-279 | the doubling in 64 bits, capped at 30 s |
| RetryBudget.DelaysAreIdealExactly | internal/audioforward/client.go:267-279 | exactly when all delays are the ideal ones; otherwise one is negative |
| RetryBudget.BudgetedDelayIsIdeal | internal/audioforward/client.go:52-63 | a delay the budget asks for never overflows |
| RetryBudget.ForwardOpusRequestTimeout | internal/audioforward/client.go:38-71 | the clamped sum of margin, attempts and delays, without any wrap-around |
| RetryBudget.Forward | internal/audioforward/client.go:154-201 | the attempt loop: it goes on only after no answer, 408, 409, 429 or a server error; when it stops, what it returns, how long it took |
| RetryBudget.TimeoutCoversTheAttempts | internal/audioforward/client.go:34-38 | a timeout below 30 s covers all attempts and sleeps with a second to spare |
| DuplicateKeys.RejectDuplicateKeys | internal/control/current_discord_bindings.go:130-168 | accepts exactly values no deeper than 16 without names of equal lower-casing in one object, and then consumes exactly the value |
| DuplicateKeys.RestIsWhole | internal/control/current_discord_bindings.go:140-155 | the names seen so far decide that no two names of an object have equal lower-casing |
| DuplicateKeys.ValidateKeys | internal/control/current_discord_bindings.go:96-128 | accepts exactly when the authority field occurs at most once under EqualFold and is acceptable |
| DuplicateKeys.MissesExactly | internal/control/current_discord_bindings.go:115-147 | exactly which accepted values have EqualFold-equal names in one object |
| DuplicateKeys.CatchesAllExactly | internal/control/current_discord_bindings.go:115-147 | no value is missed exactly when lower-casing identifies every EqualFold orbit |
| DuplicateKeys.RejectsNoMoreExactly | internal/control/current_discord_bindings.go:115-147 | nothing else of proper depth is rejected exactly when lower-casing identifies no two orbits |
| DuplicateKeys.LongSPasses | internal/control/current_discord_bindings.go:115-147 | an object that names the service twice, once with U+017F, passes |
| DuplicateKeys.DottedIIsRejected | internal/control/current_discord_bindings.go:115-147 | an object whose names EqualFold tells apart, one with U+0130, is refused |

## Left out

- PublishOrder.PublicationsInOrder: the reporter's answer is not looked at; a failed publication counts as published, because the order of what is handed to the reporter is the claim.
- AutoStopSafety.RequestsBoundedAndConfirmed: bounds requests per armed generation, not per stream, because a Stop whose LeaveVoice fails leaves a record that a later generation replaces.
- StopProgress.StopTaskMovesAreBounded: bounds the moves of one goroutine; that a stop eventually succeeds depends on the scheduler and the remote panel and is not claimed.
- AssignmentEpoch.StopFencesWithTheEpoch: takes that no other start or stop commits in the run, because the statement fails otherwise; StopEpoch.StopFencesExactly has the condition at the moment Stop is accepted.
- RetryQueue.NewestWinsAndBounded: a latest report whose refresh failed leaves its key in `latest`, because the code drops a zero report in its place; such keys are the abandoned ones until a later event of the key or Stop.
- AudioForward.ForwardLoop.Serve: takes batches from the contents of the queues, not from BatchQueue objects; that the objects behave so and own their bytes is proved in BatchQueue.
- AudioOrder.CaptionsInOrder: says nothing of the size of caption batches, because a held buffer is released whole and may exceed the configured maximum.
- Notification.NoResendWithinADay: needs a table that is never full, because a full one gives up its oldest finished receipts, whatever their age; Prune says which.
- Notification.OneSendInFlight: relative to event identifiers; hash collisions are not modelled.
- RetryBudget.TimeoutCoversTheAttempts: takes each attempt to last no longer than its own deadline; with no configured timeout the code sets no deadline and budgets five seconds.
- DuplicateKeys.RejectDuplicateKeys: works on the tokens of well-formed values; the decoder's own syntax errors are not modelled, and Go's lower-casing and folding tables are parameters, with only the entries named in LongSPasses and DottedIIsRejected written down.
- Idle-speaker dispatch, speaker detection from RTP activity inside the forwarding loop, and the text of status errors.
- reconnectDelay, the logging rate limits, SetAutoStartRefresher, ApplyVoiceDefaults and the participant-sync context: easy members without effect on the protocols.
- The display-only active speaker is a field of the Manager class but not of the state the runs are about.
- Contents of a worker retry queue inside the manager's runs: RetryQueue has them, the manager's system only knows which queue is current.
- The runs of the manager do not take the refresh lock into account unless they say so (Serialised): what they prove holds with and without it.
- HTTP clients and handlers, URL checks, environment and file reading, heartbeats, host metrics, the Discord and DAVE transports, and the ui188 test seams.
