# Roomote: durable delivery, run lifecycle and their neighbours

A Dafny model of the parts of Roomote in which something can get lost, done
twice, or done by two parties at once, with proofs of what they keep. Two large
state machines make up most of it.

**The Discord gateway** receives numbered dispatches on a socket, writes those
it wants into a Redis stream under a dedupe key, and only then acknowledges the
number. A resume store turns acknowledgements, which come out of order, into a
stored sequence from which a later socket resumes. A delivery worker drains the
stream into the API. One service at a time leads, under a Redis lock.

| file | what it holds |
|---|---|
| `Checkpoint.dfy` | one shard of the resume store, as values: acknowledge, flush, resume; the safety bound |
| `ResumeStore.dfy` | `DiscordGatewayResumeStore` and its repository, updated in place |
| `QueueModel.dfy` | the inbound stream, its counters, dedupe keys and dead letters, with their history |
| `InboundQueue.dfy` | `DiscordInboundQueue` over Redis, updated in place |
| `ApiForwarder.dfy`, `DeliveryLoop.dfy` | status classification, the delivery loop and its supervisor |
| `Dispatch.dfy`, `EnqueueRetry.dfy` | which dispatch is queued under which id; the retry around the enqueue |
| `Gateway.dfy` | all of these together, with overlapping connections, crashes and late writes |
| `LeaderLease.dfy` | the lock, the renewals and the leader's delivery worker, against a clock |

**The task-run controllers** race on rows of one table with compare-and-set
updates, a one-time restart, a failure claim and an orphan scan, and each keeps
maps of spawns in memory.

| file | what it holds |
|---|---|
| `TaskRun.dfy` | one row and its whole history, under any number of controllers |
| `ControllerMemory.dfy` | the spawn maps of one controller, as values and as `BaseController` |
| `Controllers.dfy` | any number of controllers over a database of rows |

**Smaller pieces.**

| file | what it holds |
|---|---|
| `Timeline.dfy` | selection of the innermost failed records of an Azure DevOps build |
| `HookModel.dfy`, `ServiceHooks.dfy`, `HookService.dfy` | reconciliation of service hooks |
| `TokenModel.dfy`, `TokenCache.dfy` | the cache of GitHub installation tokens |
| `MarkdownLinks.dfy` | the link scanner of email bodies and the cap on their length |
| `CallbackIds.dfy` | ids of answer and cancel buttons |
| `Prelude.dfy`, `Text.dfy`, `Decimal.dfy`, `Fields.dfy` | options, characters, decimal numerals, split and join |

Code that changes fields is a class whose methods are tied, by `View()` and
their `ensures`, to functions on values; the theorems are about those functions
and about runs made of them. A Lua script, a transaction, or the code between
two awaits is one step. Every choice the program does not make (which step comes
next, what Redis trims, whether an answer is lost, when a process dies) is an
argument over which the theorems quantify.

## What is assumed

- An acknowledged sequence is at most the observed one at the call. The code
  does not check it; `Checkpoint.AcknowledgeIsSoundIff` says exactly which calls
  need it, and `Checkpoint.LateAcknowledgementMarksAnother` is one that does harm.
- The checkpoint bound is about one session identity, and `update` saves and
  sets the durable sequence in one step.
- One consumer reads the stream at a time. The lease is what provides it, under
  the timing condition of `LeaderLease.ExclusiveIff`.
- Renewals are sent on time, every interval. A service that is stopped counts as
  leading no more at once, though it keeps its lease flag, unrenewed, while it
  waits for its worker and its connection to end.
- Redis hands out increasing stream ids, and its clock and the controllers'
  clock do not go back.

## Where the code falls short of what one might expect

- The lease constants alone (30 s lock, 10 s ticks, answers under 10 s) do not
  keep two leaders apart: the time between taking the lock and setting the timer
  counts too (`LeaderLease.ShippedConfig`).
- An acknowledgement accepted during a flush can stay out of the checkpoint after
  it, until the next one; no other can (`Checkpoint.CheckpointLagsIff`,
  `Checkpoint.AcknowledgementWaitsAfterFlush`).
- A restarted run can be claimed by the orphan scan of a controller that then
  takes no spawn for it. If the controller that restarted it has crashed, the run
  is then neither in flight, nor in any controller's memory, nor a Pending row
  (`Controllers.RestartIsSomewhereIff`, `Controllers.RestartCanBeNowhere`), until
  an orphan claim finds room for a spawn (`Controllers.ReclaimCarriesOn`).
- Two dispatch attempts of one run can be under way at once: the compare-and-set
  compares statuses, and matches a Dequeued row that was loaded as Dequeued
  (`Controllers.SecondAttemptIff`, `Controllers.PoppedAgainBesideAttempt`).
- Failed timeline records on one cycle can hide each other
  (`Timeline.LeavesCoverIff`, `Timeline.CycleSelectsNothing`).
- A repository given twice gets each hook that was missing twice
  (`ServiceHooks.EnsureSingleIff`, `ServiceHooks.RepeatedRepositoryRepeatsHooks`).
- A forced token refresh that joins a request made without the cache, or one that
  is answered and not yet out of the map, leaves the cache empty, though the
  option's comment says it replaces the cached token
  (`TokenCache.ForcedRefreshReplacesIff`).
- A link that begins inside an address cut off by white space is not rendered
  (`MarkdownLinks.LinkReportedIff`, `MarkdownLinks.LinkInBrokenAddressIsMissed`).
- An index of 10^21 or more would not survive its callback id; the callers' indexes
  are positions in lists and stay far below (`CallbackIds.AnswerRoundTripIff`,
  `CallbackIds.HugeIndexIsLost`).

## Model

| member | source | states |
|---|---|---|
| Checkpoint.CheckpointBound | apps/discord-gateway/src/gateway-resume-store.ts:133-275 | In every interleaving of observing, acknowledging (out of order, repeated) and flushing within a session, the durable, pending, in-flight and returned sequences each end a gapless run of acknowledged dispatches above the start, and at most 1000 acknowledgements wait |
| Checkpoint.CheckpointBoundAfterUpdate | apps/discord-gateway/src/gateway-resume-store.ts:108-124 | The same after an update to another identity, whatever was known before: what is returned is backed above the new session's sequence by the acknowledgements made since |
| Checkpoint.NewIdentityStartsFresh | apps/discord-gateway/src/gateway-resume-store.ts:108-124 | Another identity keeps nothing: no acknowledgement, nothing pending, its own sequence durable |
| Checkpoint.SameIdentityKeepsCheckpoint | apps/discord-gateway/src/gateway-resume-store.ts:108-124 | The same identity keeps all of it |
| Checkpoint.CommittedShowsCheckpoint | apps/discord-gateway/src/gateway-resume-store.ts:258-276 | The session shown is the observed one, at the checkpoint or at the observed sequence if that is less |
| Checkpoint.AcknowledgeAcceptsIff | apps/discord-gateway/src/gateway-resume-store.ts:133-148 | An acknowledgement is refused exactly without a session, a number, or room |
| Checkpoint.AcknowledgeIsSoundIff | apps/discord-gateway/src/gateway-resume-store.ts:133-167 | An acknowledgement keeps the bound, whatever else is covered, exactly when it is not clamped to an observed sequence that nobody acknowledged |
| Checkpoint.AcknowledgeKeepsSound | apps/discord-gateway/src/gateway-resume-store.ts:133-167 | Acknowledging an observed, covered dispatch keeps every sequence within the covered prefix |
| Checkpoint.LateAcknowledgementMarksAnother | apps/discord-gateway/src/gateway-resume-store.ts:137 | A concrete late acknowledgement after a resume marks a dispatch whose handler has not finished |
| Checkpoint.RunKeepsSound | apps/discord-gateway/src/gateway-resume-store.ts:133-236 | The bound is kept by whole runs, from any state that has it |
| Checkpoint.RunRemembers | apps/discord-gateway/src/gateway-resume-store.ts:133-167 | No accepted acknowledgement is forgotten: it is below a known sequence or still waiting |
| Checkpoint.AcknowledgeCatchesUp | apps/discord-gateway/src/gateway-resume-store.ts:145-166 | Outside a flush, an acknowledgement moves the checkpoint to the end of every gapless run of accepted ones |
| Checkpoint.CheckpointLagsIff | apps/discord-gateway/src/gateway-resume-store.ts:133-236 | At any point of any run outside a flush, the checkpoint leaves out the next accepted acknowledgement exactly when that was accepted while a flush was in flight |
| Checkpoint.FlushEndLagsIff | apps/discord-gateway/src/gateway-resume-store.ts:213-231 | When a flush succeeds or fails, it does so exactly when the acknowledgement next above everything known is waiting |
| Checkpoint.AcknowledgementWaitsAfterFlush | apps/discord-gateway/src/gateway-resume-store.ts:184-236 | A run in which it does |
| Checkpoint.FlushHidesPendingIff | apps/discord-gateway/src/gateway-resume-store.ts:184-211 | The visible sequence stays when a flush begins exactly when nothing is pending above the durable sequence or the observed one is not above it |
| Checkpoint.AcknowledgeNeverMovesBack | apps/discord-gateway/src/gateway-resume-store.ts:133-167 | Outside a flush the visible sequence never decreases |
| ResumeStore.DiscordGatewayResumeStore.AcknowledgeDispatch | apps/discord-gateway/src/gateway-resume-store.ts:133-167 | The in-place drain loop computes the shard's new checkpoint and its answer, and touches no other shard |
| ResumeStore.DiscordGatewayResumeStore.Update | apps/discord-gateway/src/gateway-resume-store.ts:93-126 | The shard's checkpoint moves as the update on values does, which `Checkpoint.CheckpointBoundAfterUpdate` is about; the session is saved; a clear is skipped during a handoff |
| ResumeStore.DiscordGatewayResumeStore.Retrieve | apps/discord-gateway/src/gateway-resume-store.ts:60-81 | A shard is loaded once, and the committed session is returned |
| ResumeStore.DiscordGatewayResumeStore.CommittedSession | apps/discord-gateway/src/gateway-resume-store.ts:258-276 | The session at the sequence a resume may use: the greatest known one, but not above the observed one |
| ResumeStore.DiscordGatewayResumeStore.BeginFlush | apps/discord-gateway/src/gateway-resume-store.ts:184-211 | A flush begins when none is in flight and something is pending, and takes all that is pending |
| ResumeStore.DiscordGatewayResumeStore.Land | apps/discord-gateway/src/gateway-resume-store.ts:204-211 | One of its writes changes one row's sequence, and no row that is not there |
| ResumeStore.DiscordGatewayResumeStore.FlushSucceeds | apps/discord-gateway/src/gateway-resume-store.ts:184-236 | Every flushed sequence becomes durable, unless a greater one is |
| ResumeStore.DiscordGatewayResumeStore.FlushFails | apps/discord-gateway/src/gateway-resume-store.ts:184-236 | Every flushed sequence is pending again, unless a greater one is |
| QueueModel.Conservation | apps/discord-gateway/src/inbound-queue.ts:12-44 | After any steps every entry ever added is live, acknowledged, quarantined or shed, exactly one of these, and no event is logged twice within its dedupe lifetime |
| QueueModel.EnqueueKeeps | apps/discord-gateway/src/inbound-queue.ts:12-19 | After an enqueue, new or duplicate, the event is in the log, and log entries of one event stay a lifetime apart |
| QueueModel.EnqueueAddsIff | apps/discord-gateway/src/inbound-queue.ts:12-19 | An event is added, as the newest live entry, when its key is not set, and never within a lifetime of its last entry |
| QueueModel.PeekShows | apps/discord-gateway/src/inbound-queue.ts:123-162 | A stream that is not empty shows its oldest entry, and up to 25 in order |
| QueueModel.AcknowledgeMoves | apps/discord-gateway/src/inbound-queue.ts:21-25 | A live entry counts as acknowledged, is live no more, and has no counter; others stay |
| QueueModel.QuarantineMoves | apps/discord-gateway/src/inbound-queue.ts:27-44 | A live entry is the newest dead letter with its attempts, and live no more; others stay |
| QueueModel.AttemptsCount | apps/discord-gateway/src/inbound-queue.ts:174-176 | The number returned counts the attempts recorded |
| QueueModel.PruneSparesLive | apps/discord-gateway/src/inbound-queue.ts:215-248 | No counter of a live entry is among those a prune deletes, whatever others do between its reads and its delete |
| QueueModel.PruneLeavesOnlyLive | apps/discord-gateway/src/inbound-queue.ts:215-241 | An uninterrupted prune leaves only live ids tracked, when the stream is a suffix of the log, as one consumer keeps it |
| QueueModel.RemoveKeepsSuffix | apps/discord-gateway/src/inbound-queue.ts:21-44 | Removing an entry no newer than the oldest live one leaves the stream a suffix of the log, past it |
| InboundQueue.DiscordInboundQueue.Enqueue | apps/discord-gateway/src/inbound-queue.ts:108-121 | The script's effect on stream, keys and history, in place |
| InboundQueue.DiscordInboundQueue.XDel | apps/discord-gateway/src/inbound-queue.ts:21-25 | Exactly the entry with the id goes, and the answer says whether there was one |
| InboundQueue.DiscordInboundQueue.Acknowledge | apps/discord-gateway/src/inbound-queue.ts:164-172 | Entry and counter go; the entry counts as acknowledged if it was live |
| InboundQueue.DiscordInboundQueue.RecordAttempt | apps/discord-gateway/src/inbound-queue.ts:174-176 | One more attempt for the id, live or not |
| InboundQueue.DiscordInboundQueue.Peek | apps/discord-gateway/src/inbound-queue.ts:123-162 | The oldest entries, and no change |
| InboundQueue.DiscordInboundQueue.Quarantine | apps/discord-gateway/src/inbound-queue.ts:178-199 | A live entry moves to the dead letters; of a missing one only the counter goes |
| InboundQueue.DiscordInboundQueue.PruneOrphanedAttempts | apps/discord-gateway/src/inbound-queue.ts:215-240 | The prune with other clients' steps at its awaits; every counter of an entry still live survives |
| DeliveryLoop.FailureIsOneOfTwo | apps/discord-gateway/src/delivery-loop.ts:29-50 | Every failure of the real forwarder is either of the delivery path or a permanent rejection, never both or neither: the exhausted-attempts branch is unreachable |
| ApiForwarder.AnswersAre | apps/discord-gateway/src/api-forwarder.ts:3-51 | Which statuses count as delivered, which are retried, and which reject the event for good |
| DeliveryLoop.OutageQuarantinesNothing | apps/discord-gateway/src/delivery-loop.ts:81-132 | In a state of the loop whose calls were delivered or failed on the delivery path, with well-formed events, nothing new is quarantined |
| DeliveryLoop.IdsNeverDecrease | apps/discord-gateway/src/delivery-loop.ts:62-142 | Calls in log order have stream ids that never decrease |
| DeliveryLoop.ProducersKeep | apps/discord-gateway/src/inbound-queue.ts:12-19 | Enqueues, trims and prunes of others keep the live stream a suffix of the log and the calls in order |
| DeliveryLoop.BuryKeeps | apps/discord-gateway/src/delivery-loop.ts:110-132 | Quarantining the entry just rejected keeps the suffix, the order and the reasons for quarantine |
| DeliveryLoop.AcknowledgeKeeps | apps/discord-gateway/src/delivery-loop.ts:97-100 | Acknowledging the entry just delivered does too |
| DeliveryLoop.DeliveryWorker.ProcessEntry | apps/discord-gateway/src/delivery-loop.ts:76-133 | One entry, with every await open to others and to failure: it throws only when a call failed or the delivery path did; a live entry done with is acknowledged if it was delivered and else quarantined, unless it was shed meanwhile |
| DeliveryLoop.DeliveryWorker.Forward | apps/discord-gateway/src/delivery-loop.ts:97 | One call is recorded, for a log position no earlier than the calls before it |
| DeliveryLoop.DeliveryWorker.Bury | apps/discord-gateway/src/delivery-loop.ts:81-93 | A quarantine that may fail before or after its effect keeps all of these, and when done is past its entry |
| DeliveryLoop.DeliveryWorker.Acknowledge | apps/discord-gateway/src/delivery-loop.ts:98-103 | So does an acknowledgement |
| DeliveryLoop.DeliveryWorker.ProcessBatch | apps/discord-gateway/src/delivery-loop.ts:76-133 | Entry after entry of one peek, with the live stream never behind the entry at hand |
| DeliveryLoop.DeliveryWorker.RunDeliveryLoop | apps/discord-gateway/src/delivery-loop.ts:62-142 | The loop keeps: stream a suffix of the log, calls in order, only delivered entries acknowledged, only malformed or rejected ones quarantined; it throws only in trouble |
| DeliveryLoop.Drain | apps/discord-gateway/src/delivery-loop.ts:62-186 | When nothing fails for long enough, every entry live at the start is acknowledged, and nothing is quarantined or shed |
| DeliveryLoop.DeliveryWorker.RunSupervisedDeliveryLoop | apps/discord-gateway/src/delivery-loop.ts:146-186 | So do all its restarts, whose delay stays under its cap; it ends only when aborted |
| DeliveryLoop.RunSuccessiveWorkers | apps/discord-gateway/src/service.ts:216-273 | So do workers one after another, across aborts and new leaders: the ids of all their forward calls together never decrease, and those calls account for all that was acknowledged and quarantined; through an outage of any length with no malformed event nothing is quarantined |
| EnqueueRetry.EnqueueWithRetry | apps/discord-gateway/src/enqueue-retry.ts:36-66 | It goes on exactly until an attempt is answered, the signal is aborted, or the attempts are used up; however many run without an answer, and whatever other clients do between them, the log gains the event at most once, and one entry at most besides theirs; a return means the event is logged |
| Dispatch.QueuedAsNamed | apps/discord-gateway/src/dispatch.ts:288-322 | A packet is queued under its own id and its type, or the joined parts of its reaction, with its own content |
| Dispatch.KeyForNames | apps/discord-gateway/src/dispatch.ts:288-312 | The key is the one the packet names, and there is none exactly when it names none |
| Dispatch.OwnIdsDistinguish | apps/discord-gateway/src/dispatch.ts:309-322 | Packets with ids of their own have one key exactly when ids and types agree |
| Dispatch.OtherForwardedIff | apps/discord-gateway/src/dispatch.ts:288-312 | Exactly which interactions and reactions are queued |
| Dispatch.ReplayKeepsKey | apps/discord-gateway/src/dispatch.ts:203-329 | A replayed dispatch is queued under the same key whatever the bot's roles and caches have become |
| Dispatch.ReactionIdDeterminesDispatch | apps/discord-gateway/src/dispatch.ts:288-313 | Of two scoped reactions with one id, scope, sequence and the text before them agree, whatever that text is |
| Dispatch.ReactionIdDeterminesReaction | apps/discord-gateway/src/dispatch.ts:288-313 | With parts that have no colon, the id determines channel, message, user, emoji, sequence, and the scope or that there is none |
| Dispatch.NormalizedMentionIff | apps/discord-gateway/src/dispatch.ts:77-142 | After normalization the bot is mentioned exactly when it was addressed by mention or by its role |
| Dispatch.MessageForwardedIff | apps/discord-gateway/src/dispatch.ts:203-286 | Exactly which messages are queued |
| Gateway.StepKeepsInv | apps/discord-gateway/src/gateway-session.ts:132-227 | Every step of every connection, of other clients and of a crash keeps the end-to-end invariant |
| Gateway.NoDispatchIsLost | apps/discord-gateway/src/gateway-session.ts:132-227 | After any run, each dispatch ever received is logged as the event it names, deliberately ignored, or above the stored sequence and so replayed |
| Gateway.DispatchIsCheckpointed | apps/discord-gateway/src/gateway-session.ts:132-227 | From any reachable state, the next dispatch, handled without disturbance, is logged as the event it names, acknowledged, and covered by the stored sequence |
| Gateway.ObserveStartsIff | apps/discord-gateway/src/gateway-session.ts:132-150 | A handler starts exactly when the connection is neither given up nor full; a full one is given up |
| Gateway.FailureReconnects | apps/discord-gateway/src/gateway-session.ts:150-227 | A handler that fails gives the connection up and acknowledges nothing |
| Gateway.ConnectResumes | apps/discord-gateway/src/gateway-resume-store.ts:60-81 | A new connection resumes from the stored sequence |
| Gateway.NoDispatchIsSkipped | apps/discord-gateway/src/gateway-resume-store.ts:60-81 | The same for the sequence a socket of the same process resumes from |
| Gateway.ReplaysAddNothing | apps/discord-gateway/src/inbound-queue.ts:12-19 | Replays of one dispatch never give two log entries within the dedupe lifetime |
| LeaderLease.ExclusiveIff | apps/discord-gateway/src/service.ts:158-187 | At most one service holds a valid lease in every run exactly when start delay + two intervals + answer time fit the lock's life |
| LeaderLease.ShippedConfig | apps/discord-gateway/src/config.ts:57-58 | With 30 s and 10 s: exactly when start delay and answer time fit 10 s together |
| LeaderLease.LateErrorsOverlap | apps/discord-gateway/src/service.ts:158-187 | Otherwise a run of two late errors has two valid leaders |
| LeaderLease.RunIsExclusive | packages/redis/src/lock.ts:96-134 | From any state with the invariant, no run has two valid leaders |
| LeaderLease.LeaseValidIff | apps/discord-gateway/src/service.ts:158-187 | A fresh lease is valid after some answers exactly when none was "lost" and no two errors were adjacent |
| LeaderLease.Leadership.OnRenewalAnswer | apps/discord-gateway/src/service.ts:158-187 | After any answers the lease is valid exactly under that condition, and once it is not the worker held is aborted |
| LeaderLease.Leadership.StopWorker | apps/discord-gateway/src/service.ts:226-236 | After the wait no worker runs, whatever renewals were answered or stop ordered meanwhile; a lost lease stays lost, a stop stays ordered |
| LeaderLease.Leadership.EnsureDeliveryLoop | apps/discord-gateway/src/service.ts:216-273 | Unless it holds a worker with this secret, it ends with a new one exactly when the lease is valid and the service not stopped, even by what came during the wait, and there is a secret; the previous one is aborted and has unwound: never two |
| TaskRun.AtMostOneRestart | apps/controller/src/BaseController.ts:1162-1231 | Over a run's history one restart at most, and from Pending to Dequeued at most twice |
| TaskRun.AliveIsLeftAlone | apps/controller/src/BaseController.ts:1062-1090 | No restart or failure claim follows a start, a heartbeat or a cancel |
| TaskRun.NoClaimAfterCancelRequest | apps/controller/src/BaseController.ts:693-710 | Nothing dispatches or reclaims a run once a cancel is requested |
| TaskRun.DequeuedHasLease | apps/controller/src/orphaned-task-runs.ts:25-53 | A Dequeued row always has the time the orphan scan looks for |
| TaskRun.RestartedRowIsFresh | apps/controller/src/BaseController.ts:1198-1211 | A restarted row is found by the recovery and has no lease, no readiness and no sign of life left |
| TaskRun.FailureIsFinal | apps/controller/src/BaseController.ts:1062-1090 | A run that failed to bootstrap is Failed, and no controller's transaction matches it then |
| TaskRun.ClaimedRowIs | apps/controller/src/BaseController.ts:693-710 | A claim makes the row Dequeued with a new lease and leaves the rest |
| TaskRun.PendingEligibleIff | apps/controller/src/orphaned-task-runs.ts:25-53 | The scan takes a Pending row between five minutes and a day of age, unless it waits for its provider or has a cancel |
| TaskRun.DequeuedEligibleIff | apps/controller/src/orphaned-task-runs.ts:25-53 | And a Dequeued one when its lease is over 959 seconds old |
| TaskRun.ClaimsAreSpaced | apps/controller/src/orphaned-task-runs.ts:26-53 | Two orphan claims with no restart between them are more than the threshold apart |
| TaskRun.OrphanClaimsInSpan | apps/controller/src/orphaned-task-runs.ts:23-65 | In any span a run is orphan-claimed at most span / threshold + 2 times |
| TaskRun.SpanBoundIsReached | apps/controller/src/orphaned-task-runs.ts:23-65 | And that bound is met, in a span of no length, by a run that was dispatched and restarted |
| ControllerMemory.SpawnKeepsValid | apps/controller/src/BaseController.ts:572-622 | At most ten spawns in flight and one per run |
| ControllerMemory.SpawnStartsIff | apps/controller/src/BaseController.ts:572-622 | A spawn begins exactly when the controller runs, has room, and has none of this run |
| ControllerMemory.OldestIsServed | apps/controller/src/BaseController.ts:253-275 | With room the oldest waiting restart is spawned and the others wait on in order |
| ControllerMemory.ScheduledIsSpawned | apps/controller/src/BaseController.ts:953-990 | With room a scheduled restart is spawned at once, from a row that reads as restarted |
| ControllerMemory.ScheduledIsKept | apps/controller/src/BaseController.ts:953-990 | A scheduled restart is in flight or waiting, and no other is dropped |
| ControllerMemory.WaitingIsKept | apps/controller/src/BaseController.ts:253-275 | Serving the oldest waiting restart drops none: it is in flight or waits again |
| ControllerMemory.TakeKeepsHeld | apps/controller/src/BaseController.ts:253-275 | Serving a waiting restart neither makes nor ends a claim |
| ControllerMemory.BaseController.SpawnWorkerInBackground | apps/controller/src/BaseController.ts:572-622 | The map after the call, and whether a spawn began |
| ControllerMemory.BaseController.ScheduleWorkerBootstrapRestart | apps/controller/src/BaseController.ts:953-990 | The restart is spawned, or waits in insertion order |
| ControllerMemory.BaseController.ServePendingRestart | apps/controller/src/BaseController.ts:253-275 | The oldest waiting restart is served when there is room |
| ControllerMemory.BaseController.SpawnSettled | apps/controller/src/BaseController.ts:572-622 | A spawn that ended, however it did, is forgotten |
| Controllers.StepKeepsInv | apps/controller/src/BaseController.ts:640-756 | Every action of every controller keeps histories legal, memories bounded and every claim accounted for |
| Controllers.DispatchFollowsClaim | apps/controller/src/BaseController.ts:693-710 | Every provider dispatch follows its own compare-and-set, on a row without cancel request |
| Controllers.ClaimDispatchedOnce | apps/controller/src/BaseController.ts:519-570 | No claim is dispatched twice, and only by the spawn that holds it |
| Controllers.SpawnsAreBounded | apps/controller/src/BaseController.ts:253-275 | At most ten spawns in flight per controller at every point of every run |
| Controllers.RestartCarriedOnIff | apps/controller/src/BaseController.ts:1035-1050 | An accepted restart is a Pending row the recovery finds, or some claim made since is served by a spawn in flight or by a complete attempt, exactly unless the row has left Pending and every claim since was lost in a crash, is in hand, was refused, or was abandoned at a stop |
| Controllers.RestartIsSomewhereIff | apps/controller/src/BaseController.ts:253-275 | It is a row for the recovery, in flight or in a controller's memory, or its attempt is complete, exactly unless it is so left behind and no controller has the run in mind |
| Controllers.ReclaimCarriesOn | apps/controller/src/orphaned-task-runs.ts:26-53 | The next orphan claim whose controller has room for a spawn carries the restart on, whatever went before |
| Controllers.SchedulingKeeps | apps/controller/src/BaseController.ts:953-990 | After a recovery or a scheduling step the run is in flight or waits in that controller, and no other is dropped |
| Controllers.ServingKeeps | apps/controller/src/BaseController.ts:253-275 | Serving drops none, and with room the oldest is in flight |
| Controllers.RecoveryCarriesOn | apps/controller/src/BaseController.ts:1035-1050 | From any reachable state a controller with room that recovers a restart gets its claim, which awaits dispatch there |
| Controllers.ScheduledCarriesOn | apps/controller/src/BaseController.ts:953-990 | So does one that schedules it while its row is Pending |
| Controllers.WorkerExitDecides | apps/controller/src/BaseController.ts:803-852 | A worker's exit before its start restarts the run once and fails it the next time; a run alive or ended is left alone |
| Controllers.OverdueFails | apps/controller/src/BaseController.ts:992-1033 | A bootstrap two minutes overdue fails its run |
| Controllers.RestartCanBeNowhere | apps/controller/src/worker-bootstrap-restarts.ts:33-44 | A run, with a worker dispatched and exited, in which an accepted restart is in none of these places |
| Controllers.DequeuedStaysClaimable | apps/controller/src/orphaned-task-runs.ts:26-53 | A run taken over or lost stays in the orphan scan's reach |
| Controllers.SecondAttemptIff | apps/controller/src/BaseController.ts:693-710 | In every reachable state, a second attempt gets under way beside one of another controller exactly when the row still has the status it was loaded with, there is no cancel, and that status is not Pending unless the run was restarted since |
| Controllers.ClaimAfterClaimIff | apps/controller/src/BaseController.ts:693-710 | Over any history with no restart since a claim, a second compare-and-set matches exactly for a row loaded in its present status, which is not Pending |
| Controllers.PoppedAgainBesideAttempt | apps/controller/src/BaseController.ts:282-305 | A run popped again while an attempt is under way and its row is Dequeued gets a second attempt |
| Timeline.ReachesId | packages/ado/src/ci.ts:109-122 | The ancestor walk ends on any graph, and finds an id exactly when some number of steps leads to it |
| Timeline.HasFailedDescendant | packages/ado/src/ci.ts:109-122 | Decides exactly whether another failed record lies below |
| Timeline.LeafRecords | packages/ado/src/ci.ts:108-133 | The loop keeps the failed records with none below, or those of them worth showing |
| Timeline.UnlinkedRecords | packages/ado/src/ci.ts:134-146 | Without parent links: failed tasks, else failed jobs, else failed records with a name |
| Timeline.SelectInnermostFailedRecords | packages/ado/src/ci.ts:91-146 | The selection: shown leaves, or all leaves, or by type when nothing is linked; five at most |
| Timeline.LeavesCoverIff | packages/ado/src/ci.ts:109-133 | With unique ids, every failed record has a leaf at or below it exactly when every cycle of failed records has a failed record hanging below it |
| Timeline.AcyclicSelection | packages/ado/src/ci.ts:109-133 | On acyclic graphs with unique ids every failed record has a leaf, and the selection is not empty |
| Timeline.SelectionIsUnrelated | packages/ado/src/ci.ts:108-146 | On any graph the selected records are failed, distinct, in order, and none lies below another |
| Timeline.FirstFiveAreSelected | packages/ado/src/ci.ts:108-146 | Selected are the first five of: leaves worth showing, or all leaves; without links failed tasks, or failed jobs if there is none, or else those with a name |
| Timeline.CycleSelectsNothing | packages/ado/src/ci.ts:109-133 | Two failed records that are each other's parent hide each other |
| HookModel.HooksAreExclusive | packages/ado/src/api.ts:71-103 | No subscription serves as two of the wanted hooks |
| HookModel.BuildCarries | packages/ado/src/api.ts:748-786 | What is written carries the secret, the version of the resource, the event, the inputs and the address |
| HookModel.EventsAre | packages/ado/src/api.ts:71-103 | The wanted hooks by event, notification and version |
| HookModel.UpsertWrites | packages/ado/src/api.ts:849-957 | Updating or creating from a stale listing settles the hook and changes nothing for another |
| HookModel.AllAreWritten | packages/ado/src/api.ts:959-1041 | One listing is enough for distinct hooks: all end settled, and each is created exactly when missing at the start |
| HookModel.UpsertAllAppendsMissing | packages/ado/src/api.ts:959-1041 | For any hooks, repeated or not, old subscriptions serve as before and each missing hook is made as often as asked |
| ServiceHooks.EnsureSettles | packages/ado/src/api.ts:1043-1173 | From any store, every hook of distinct repositories and of their projects ends settled, none doubled, and other subscriptions are untouched |
| ServiceHooks.EnsureSettlesAll | packages/ado/src/api.ts:1043-1173 | Whatever repositories are given, repeated or not, all their hooks end settled |
| ServiceHooks.EnsureIsIdempotent | packages/ado/src/api.ts:1043-1173 | A second ensure of any repositories creates nothing and leaves the store as it is |
| ServiceHooks.EnsureSingleIff | packages/ado/src/api.ts:1087-1173 | For any repositories and any store, a hook is single afterwards exactly when it was before and, if it was a repository's and missing, that repository is given once at most |
| ServiceHooks.RepeatedRepositoryRepeatsHooks | packages/ado/src/api.ts:1087-1130 | A repository given twice gets its missing hooks twice |
| ServiceHooks.RemoveDropsExactly | packages/ado/src/api.ts:1241-1395 | What is left is exactly what belongs to none of the repositories nor to a project not retained |
| ServiceHooks.WrittenHookIsDroppedIff | packages/ado/src/api.ts:1213-1225 | A hook as written, with the query of its notification or without, is recognized for removal with its own repository or project and no other |
| ServiceHooks.SyncScopesHooks | packages/ado/src/api.ts:1241-1395 | Removing the unmapped and ensuring the mapped leaves every mapped hook settled, none of the deployment for unmapped repositories or projects out of use, and all else untouched |
| ServiceHooks.OutOfUseIsGone | packages/ado/src/api.ts:1241-1395 | No hook of an unmapped repository, or of a project only unmapped ones are in, is found afterwards |
| ServiceHooks.SyncIsIdempotent | packages/ado/src/api.ts:1241-1395 | Doing it again changes nothing |
| HookService.StatusIff | packages/ado/src/api.ts:959-1002 | A repository is reported as created exactly when one of its hooks was missing |
| HookService.Client.UpsertSubscription | packages/ado/src/api.ts:886-957 | The store after one update or creation, and which it was |
| HookService.Client.EnsureServiceHooks | packages/ado/src/api.ts:1087-1173 | The loops over the store compute that, with the two listings the code takes |
| HookService.Client.RemoveServiceHooks | packages/ado/src/api.ts:1290-1395 | The loops delete exactly the subscriptions to drop; a repository counts as removed when something of it, not taken by an earlier one, was there |
| TokenModel.KeyEqualIff | packages/auth/src/github-token.ts:68-94 | Two scopes have one key exactly when app, installation and set of repositories agree |
| TokenModel.NormalizeRepositoryIds | packages/auth/src/github-token.ts:68-70 | Increasing, without repeats, and the same ids |
| TokenModel.StoreKeepsLru | packages/auth/src/github-token.ts:121-139 | Storing keeps at most 500 entries in order of last use, and evicts the one used least recently |
| TokenModel.EvictKeepsOrder | packages/auth/src/github-token.ts:132-138 | Evicting the first entry of a full cache keeps the order, and 500 others were used since |
| TokenModel.DropKeepsLru | packages/auth/src/github-token.ts:96-111 | So does forgetting a stale one |
| TokenCache.RunKeepsInv | packages/auth/src/github-token.ts:309-361 | Every run of requests, answers and failures keeps the order, the scopes and the map in flight |
| TokenCache.TokenIsForTheScope | packages/auth/src/github-token.ts:309-361 | Whoever asks gets a token requested for the same app, installation and repositories; a cached one is five minutes from expiry and not too old |
| TokenCache.CachedIff | packages/auth/src/github-token.ts:96-119 | A caller that uses the cache is given a cached token exactly when there is one of the scope more than five minutes from expiry and younger than allowed, and is given that |
| TokenCache.StartsIff | packages/auth/src/github-token.ts:332-358 | A request is made exactly when no token is given and none is under way for the scope |
| TokenCache.AnsweredIsReused | packages/auth/src/github-token.ts:344-355 | An answer that is cached is what the next caller gets while it is usable |
| TokenCache.OneMintPerScope | packages/auth/src/github-token.ts:334-358 | At most one request is under way per scope |
| TokenCache.StaysCached | packages/auth/src/github-token.ts:115-139 | A scope leaves the cache only by being found stale, refreshed, or after 500 others were used |
| TokenCache.ForcedRefreshReplacesIff | packages/auth/src/github-token.ts:328-358 | Once the promise a forced refresh waits for is done, a token is cached exactly when it has an expiry and no request without the cache, or already answered, was in flight |
| TokenCache.ForcedRefreshMayCacheNothing | packages/auth/src/github-token.ts:328-358 | A run with a request made without the cache |
| TokenCache.LateForcedRefreshCachesNothing | packages/auth/src/github-token.ts:350-358 | A run with one made for the cache, answered and still in the map |
| TokenCache.TokenService.GetCached | packages/auth/src/github-token.ts:96-119 | The map after a lookup, and what it found |
| TokenCache.TokenService.CacheToken | packages/auth/src/github-token.ts:121-139 | The eviction loop leaves the newest 500 |
| TokenCache.TokenService.CreateToken | packages/auth/src/github-token.ts:309-361 | Both maps after a request, and where its token comes from |
| TokenCache.TokenService.OnAnswer | packages/auth/src/github-token.ts:350-355 | The answer is cached when its request was made for the cache and it says when it expires |
| TokenCache.TokenService.OnSettled | packages/auth/src/github-token.ts:356-358 | The promise leaves the map in flight, and no other does |
| MarkdownLinks.ReplaceMarkdownLinks | packages/communication/src/agentmail-format.ts:66-136 | The scanner renders exactly the links found, copies the rest, and takes no more turns than the text is long |
| MarkdownLinks.ScanFindsLinks | packages/communication/src/agentmail-format.ts:66-136 | Everything rendered is a slice `[label](url)`, non-empty label without `]` or line break, non-empty address without `)` or white space, and slices are disjoint and in order |
| MarkdownLinks.ScanIsLossless | packages/communication/src/agentmail-format.ts:66-136 | Rendering each link as it stands gives the text back |
| MarkdownLinks.RebuildingIsIdentity | packages/communication/src/agentmail-format.ts:96-110 | Putting label and address together again gives the text back, so the renderer is given the right ones in order |
| MarkdownLinks.LinkReportedIff | packages/communication/src/agentmail-format.ts:74-128 | A link is rendered, its label perhaps begun earlier, exactly when it does not begin inside an address that the scan has read |
| MarkdownLinks.AddressesHideLinks | packages/communication/src/agentmail-format.ts:90-121 | No link found reaches over an address that was read |
| MarkdownLinks.LinkInBrokenAddressIsMissed | packages/communication/src/agentmail-format.ts:113-122 | One that does can be missed |
| MarkdownLinks.TruncateLength | packages/communication/src/agentmail-format.ts:23-50 | A body within the cap is left alone, a longer one is cut to the cap exactly |
| MarkdownLinks.TruncateKeepsBeginning | packages/communication/src/agentmail-format.ts:23-50 | What is cut short is the body's own beginning, followed by the notice |
| MarkdownLinks.TruncateKeepsFooterIff | packages/communication/src/agentmail-format.ts:23-50 | A body cut short keeps its footer as last line exactly when the footer fits |
| CallbackIds.AnswerRoundTripIff | packages/communication/src/discord-request-user-input.ts:58-112 | A built answer id parses back to what it was built from exactly when both indexes are below 10^21, and to nothing otherwise |
| CallbackIds.HugeIndexIsLost | packages/communication/src/discord-request-user-input.ts:58-112 | The id built for index 10^21, which is longer than any list, parses to nothing |
| CallbackIds.CancelRoundTrip | packages/communication/src/discord-request-user-input.ts:67-131 | A built cancel id parses back, for every safe run id |
| CallbackIds.AnswerIdsAreDistinct | packages/communication/src/discord-request-user-input.ts:58-65 | Different answers, with indexes below 10^21, get different ids |
| CallbackIds.KindsAreDisjoint | packages/communication/src/discord-request-user-input.ts:74-131 | No text parses as both kinds |
| CallbackIds.AnswerGroupsIff | packages/communication/src/discord-request-user-input.ts:82-88 | Splitting at colons reads exactly what the pattern matches |
| CallbackIds.RebuildIff | packages/communication/src/discord-request-user-input.ts:74-112 | What was parsed builds the same text exactly when no numeral has a leading zero |
| CallbackIds.IdsFit | packages/communication/src/discord-request-user-input.ts:57-72 | Every id that can come back fits Discord's hundred characters |

## Left out

- Transport of Redis, Postgres, HTTP and websockets; logging, Sentry, health servers, status text.
- The JSON text of envelopes and the text of stream ids: an entry carries its event, or is malformed.
- A change of session identity while a flush is in flight, and a save that fails after the durable sequence was set.
- The timer that starts a flush, and exact delays and jitter of the delivery loop: a run may wait any time anywhere.
- A renewal that Redis executes after its answer was given up, and the last forward call of a leader that has lost its lease: during it two workers can overlap, which the one-consumer assumption rules out.
- What `handleGatewayDispatch` does besides queueing (deferring interactions, enriching threads and authors); Unicode case in role mentions.
- `finishRun`, `releaseTaskRun` and the Redis queue of runs: environment steps and the controller's choice of a run.
- The provider's spawn functions, worker exit observation and log contents: when a worker is taken for dead is a free step, guarded as the transactions guard it.
- Failed calls to the service-hook API: an ensure or a removal runs to its end. The repositories of one chunk are taken one after the other, where the code has five under way; a listing returns what was written.
- Parsing of addresses: the webhook's is one that `URL.toString` gives for a path, without a query, as its caller builds it (apps/web/src/trpc/commands/source-control/index.ts:228-244). The secret's header is not spelled out; that organization and token are configured is assumed.
- SHA-256 is any function to text without a colon, or to 24 hex characters; signing and decoding of keys.
- ECMAScript numbers beyond safe integers, except that one prints in exponent form from 10^21 on and reads back below it; repository ids are integers.
- Text is a sequence of characters where the original counts UTF-16 units; lower case is that of ASCII and the Kelvin sign.
- Clearing the token cache for tests, and emphasis, lists, headings and code fences of email bodies.
- Gateway.NoDispatchIsLost: assumes the acknowledged sequence is at most the observed one, as the code does without a check.
- EnqueueRetry.EnqueueWithRetry: assumes that the attempts span less than the dedupe lifetime of a day.
- LeaderLease.ExclusiveIff: says nothing of the time a stopped service takes to end, nor of ticks that come late.
