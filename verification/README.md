# Verification of the generation pipeline

A Dafny 4.11 model of the asynchronous music generation service: how a request becomes a job row and a
queue message, how the worker drives it through the provider, how callbacks and polling finish it, and how
clients hear of it. `dafny verify dfyconfig.toml` checks everything.

## How it is built

| file | what it holds |
|---|---|
| `Text.dfy`, `Errors.dfy` | trimming and byte length; Go error values as wrap trees, the two requeue switches |
| `Jobs.dfy`, `JobStore.dfy` | parameters, validation table, status marks; the jobs table and its repository |
| `Callbacks.dfy`, `Tracks.dfy` | the callback contract and polled callbacks; object keys, track building, the upsert and its indexes |
| `Queue.dfy`, `QueueRuns.dfy`, `ReliableQueue.dfy` | the list protocol with delivery histories, what holds of its runs, and the queue object over three lists |
| `Pipeline.dfy` | the whole pipeline as a transition system: one action per call on the database, a queue, the provider, storage or the notifier |
| `PipelineInv.dfy`, `PipelineTheorems.dfy`, `QueueLinks.dfy` | the invariant, the guarantees over every interleaving, and the queues of the pipeline as protocol runs |
| `DeadLetters.dfy`, `FinalStatus.dfy`, `Stuck.dfy`, `Pollers.dfy` | when messages are lost; exactly when a final status can still change; exactly which jobs are queued for ever; which jobs are polled |
| `Witnesses.dfy` | runs that show what the pipeline does not promise |
| `Handlers.dfy`, `Convergence.dfy` | the handlers as single steps: verdicts, first terminal callback wins, convergence of interrupted runs |
| `Services.dfy` | processor, callback service, consumers, job service and polling loop as objects that update the tables and queues in place |
| `Refinement.dfy`, `Iterations.dfy` | single steps, consumer iterations, polling runs and create calls are runs of the pipeline |
| `Hub.dfy` | the WebSocket hub as a value and as objects |

The three levels are tied together: each object method is proved equal to a one-step handler, each
one-step handler is proved equal to its calls run in a row, and the guarantees are proved of the calls in
any interleaving.

## Assumptions

- One worker process with one job consumer and one callback consumer. It may die between any two calls; it
  then starts again with `Recover`. Create calls of the API may die as well.
- A Redis command is atomic, and one that fails had no effect. An update of a row or a track may take
  effect although the call fails, because it reads the row back.
- A provider, storage, notifier or database call may fail at any time. The provider answers a success with
  a task id that is not blank, and its errors carry no sentinel of the service.
- Fresh ids are fresh. Job ids have the 36-character text form.

## Where the code differs from what it says or suggests

- The lists are used as a stack: pushes and pops are at the same end (`QueueRuns.LastInFirstOut`), and
  recovered messages go to the far end. Nothing here claims first-in-first-out order.
- The final status of a row is not final when `Exhausted` overlaps a complete callback, because a save has
  no compare-and-set. `Witnesses.FinalStatusNotAbsorbing` shows a run for either direction.
  `PipelineTheorems.FinalStatusChangesIff` names the two saves that do it, `FinalStatus.StatusFixedIff` says
  in which states it can still happen, and `DeadLetters.StatusFixedUnlessDead` what one can look up
  beforehand: the message of the job is in the dead-letter list. `Handlers.AtomicFinality` shows that the
  status is final when handlers do not overlap.
- A message is lost when a crash or a failed push falls between the two commands of a retry, and only then
  (`DeadLetters.JobLostIff`).
- A job can be queued for ever, for exactly three reasons (`Stuck.QueuedForeverIff`): its message was lost
  (`Witnesses.MessageLost`); its message is dead and the one call of `Exhausted`, which nothing repeats, did
  not get its row failed (`Witnesses.ExhaustedGivesUp`); or its create call ended after the insert and
  before an enqueue, and no compensation landed (`Witnesses.CreateGivesUp`).
- A ready job need not have tracks: its owner may delete them (`Witnesses.ReadyWithoutTracks`).
- `markFailed` in `services/internal/worker/processor.go:128-130` treats a failed row specially, but
  marking a failed row failed is not an error, so that branch is never taken.
- The default branch of `Handle` and the missing-receipt error of the queues are unreachable
  (`PipelineTheorems.HandledTypesKnown`, `PipelineTheorems.ReceiptAlwaysFound`).
- Polling starts only after the publish of a started task succeeded (`Handlers.PollingStartsIff`), and
  nothing makes up for it later (`Pollers.NeverPolledLater`): such a job waits for a callback over HTTP, or
  for `Exhausted` if no delivery ever reads its row.

## Model

| member | source | states |
|---|---|---|
| `PipelineTheorems.JobAccounting` | services/internal/worker/consumer.go:47-109 | In every reachable state each job has at most one message, exactly one once its create call enqueued it; a queued row has its message in a list, in the retry gap or lost in it, or belongs to a create call that never enqueued; no message is acknowledged while its row is queued |
| `PipelineTheorems.NonInterference` | services/internal/worker/processor.go:63-97 | From the read of a row as queued to the write of it, no action of any other actor changes that row |
| `PipelineTheorems.RowsOnlyMoveForward` | services/internal/domain/job.go:194-260 | Over every run no row vanishes, finished rows stay finished, rows that left the queue never return, and task id, start time and attempts are then fixed |
| `PipelineTheorems.Finality` | services/internal/worker/processor.go:113-152 | A row that is ready or failed in a reachable state is ready or failed after any further run |
| `PipelineTheorems.FinalStatusChangesIff` | services/internal/worker/processor.go:126-141 | The exact final status changes in an action if and only if a stale copy of `Exhausted` lands on a ready row or a stale copy of a complete callback lands on a failed one |
| `DeadLetters.StatusFixedUnlessDead` | services/internal/worker/consumer.go:82-94 | As long as the message of a finished job is not in the dead-letter list, its exact final status never changes, over every interleaving |
| `FinalStatus.StatusFixedIff` | services/internal/worker/processor.go:113-141 | The exact final status stays in every further run if and only if no stale copy threatens it: no pending save of `Exhausted` over a ready row, and no complete callback that read a failed row as processing and whose remaining results can be built |
| `FinalStatus.ThreatNeedsDeadLetter` | services/internal/worker/consumer.go:82-94 | Only a job whose message is in the dead-letter list is ever so threatened |
| `Witnesses.ReadyBecomesFailed` | services/internal/worker/processor.go:113-141 | For every acceptable job and fitting complete callback a run exists in which the ready row is then saved as failed |
| `Witnesses.FailedBecomesReady` | services/internal/service/suno_callback_service.go:110-122 | For the same jobs a run exists in which the failed row is then saved as ready |
| `Witnesses.FinalStatusNotAbsorbing` | services/internal/service/suno_callback_service.go:79-122 | One concrete job and callback for which the final status changes, in either direction |
| `DeadLetters.LostGrowsIff` | services/internal/queue/redis_job_queue.go:88-118 | A message is lost if and only if the push of a retry fails or the worker dies between the two commands; it is the one in the gap |
| `DeadLetters.JobLostIff` | services/internal/worker/consumer.go:82-94 | In every reachable state a call loses a job message exactly then |
| `DeadLetters.CallbackLostIff` | services/internal/worker/suno_callback_consumer.go:73-78 | In every reachable state a call loses a callback exactly then |
| `Stuck.QueuedForeverIff` | services/internal/worker/consumer.go:82-94 | A queued job is queued in every further run if and only if its create call ended without an enqueue, its message is lost, or its message is dead and `Exhausted` is done with it |
| `Stuck.AbandonedStaysQueued` | services/internal/worker/consumer.go:82-94 | Such a job keeps its whole row in every further run |
| `Stuck.LostJobStaysQueued` | services/internal/queue/redis_job_queue.go:88-118 | A queued job whose message is lost keeps its row unchanged in every further run, restarts included |
| `Witnesses.MessageLost` | services/internal/queue/redis_job_queue.go:88-118 | For every acceptable job a run exists after which one failed push, or one crash, loses its message, and the row stays as created whatever comes later |
| `Witnesses.ExhaustedGivesUp` | services/internal/worker/processor.go:113-117 | For every acceptable job a run exists after which its message is dead, the one call of `Exhausted` has failed, and the row stays as created |
| `Witnesses.CreateGivesUp` | services/internal/repo/postgres/job_repo.go:110-112 | For every acceptable job a run exists after which its row is stored, the create call has failed at the read-back, and the row stays as created |
| `Witnesses.CreateCallDies` | services/internal/service/job_service.go:49-65 | If the API dies in a create call that has not enqueued its job, the queued row stays as it is in every further run |
| `Witnesses.JobNeverProcessed` | services/internal/queue/redis_job_queue.go:88-118 | One concrete job that is queued after any further run, for each of the three causes |
| `PipelineTheorems.RowsWellFormed` | services/internal/domain/job.go:194-260 | In every reachable state the columns set in a row are those of its status, attempts is at most one, and one exactly when the start time and the task id are set |
| `PipelineTheorems.TaskIdNamesOneJob` | services/migrations/000001_init.up.sql:53-55 | A stored task id never changes in any run and no other row ever has it |
| `PipelineTheorems.AckedCallbacksAnswered` | services/internal/worker/suno_callback_consumer.go:51-94 | Every callback ever acknowledged names a job, and every terminal one a job that is ready or failed |
| `PipelineTheorems.UnknownTaskOnlyRetried` | services/internal/worker/suno_callback_consumer.go:65-94 | A callback whose task id no row has is looked up and retried, never acknowledged |
| `QueueLinks.UnknownTaskDeadLetters` | services/internal/queue/redis_suno_callback_queue.go:81-111 | Without restarts and lost pushes such a callback is dead-lettered at exactly its tenth delivery, and once the queue has run empty every copy is in the dead-letter list |
| `PipelineTheorems.QueuedRequestsValid` | services/internal/httpapi/handlers/suno_callback.go:66-84 | Whatever callback is anywhere in the queue was enqueued unchanged and passes `Validate` |
| `PipelineTheorems.HandledTypesKnown` | services/internal/service/suno_callback_service.go:70-76 | The unknown-type branch is never taken, and each polling run enqueues at most one callback and then stops |
| `PipelineTheorems.TracksNeverRejected` | services/migrations/000001_init.up.sql:113-120 | The unique object indexes never refuse a track that the callback consumer stores |
| `PipelineTheorems.ReadyHasTracks` | services/internal/service/suno_callback_service.go:94-117 | Each result of some complete callback of a ready job, at least one, has a stored track, except exactly those that the owner deleted |
| `PipelineTheorems.ReadyKeepsTracks` | services/internal/service/suno_callback_service.go:94-117 | In a run without deletions each of those tracks is stored |
| `PipelineTheorems.OnlyOwnersDelete` | services/internal/repo/postgres/queries_tracks.go:48-52 | A call removes a stored track if and only if it is the delete of the user whose job it is |
| `PipelineTheorems.OwnerDeletes` | services/internal/repo/postgres/queries_tracks.go:48-52 | The owner of a job can delete any of its tracks at any time; the row of the job stays as it is |
| `PipelineTheorems.OnlyOwnersMark` | services/internal/repo/postgres/queries_tracks.go:54-58 | Setting the favourite flag changes that flag of a track of the caller, at any time, and nothing else |
| `Witnesses.ReadyWithoutTracks` | services/internal/service/track_service.go:89-118 | A run after which a ready job has no track, because its owner deleted it |
| `PipelineTheorems.ReceiptAlwaysFound` | services/internal/queue/redis_job_queue.go:165-174 | `LREM` always finds the receipt in hand, so the failed-acknowledgement error never occurs |
| `PipelineTheorems.StepRows` | services/internal/repo/postgres/queries_jobs.go:15-26 | Of all calls only six saves and the insert touch the jobs table, each as the statement says |
| `PipelineInv.StepKeeps` | services/internal/worker/consumer.go:47-94 | Every action of every actor, failing or not, and a crash keep the invariant |
| `PipelineInv.ReachableInv` | services/internal/worker/consumer.go:47-94 | Every reachable state meets the invariant |
| `PipelineInv.RowWriteKeeps` | services/internal/repo/postgres/job_repo.go:114-146 | A legal save of a row leaves every other part of the invariant standing |
| `QueueLinks.JobQueueRefines` | services/internal/queue/redis_job_queue.go:46-137 | However the actors interleave, the job queue goes through a run of the list protocol |
| `QueueLinks.CbQueueRefines` | services/internal/queue/redis_suno_callback_queue.go:43-130 | However the actors interleave, the callback queue, fed by HTTP and by polling, goes through a run of the list protocol |
| `QueueLinks.DeliveriesBounded` | services/internal/queue/redis_job_queue.go:14 | In every run, for both queues, every message has been delivered exactly as often as its attempts, its recoveries and its place say, and so at most ten times plus once per recovery |
| `QueueLinks.JobsDrain` | services/internal/worker/consumer.go:52-94 | With no new jobs and no restart, whatever fails, deliveries plus waiting messages never exceed the sum of ten less the attempts spent |
| `QueueLinks.CallbacksDrain` | services/internal/worker/suno_callback_consumer.go:44-79 | With no new callbacks and no restart, deliveries plus waiting callbacks never exceed the sum of ten less the attempts spent |
| `QueueLinks.JobStackDiscipline` | services/internal/worker/consumer.go:52-94 | With no new jobs, restarts or failing queue calls, the job enqueued last is settled before any job under it is touched, however the other actors interleave |
| `QueueLinks.CallbackStackDiscipline` | services/internal/worker/suno_callback_consumer.go:44-79 | With no new callbacks, restarts or failing queue calls, the callback enqueued last is settled before any under it is touched |
| `QueueProtocol.NextSound` | services/internal/queue/redis_job_queue.go:84-118 | Every command, failing or not, and a crash keep delivery accounting, conservation and the link between consumer and lists |
| `QueueProtocol.RunSound` | services/internal/queue/redis_job_queue.go:46-137 | Every run of commands and crashes keeps accounting, conservation and the link between consumer and lists |
| `QueueRuns.DeliveryBound` | services/internal/queue/redis_job_queue.go:103-105 | Per message: deliveries are attempts plus recoveries while waiting, one more once taken, also when acknowledged or lost, and ten plus recoveries when dead |
| `QueueRuns.NothingDuplicatedOrDropped` | services/internal/queue/redis_job_queue.go:46-118 | Each body exists as often as it was sent, counting lists, acknowledged, in the retry gap and lost in it |
| `QueueRuns.DrainBound` | services/internal/queue/redis_job_queue.go:88-118 | Without new work and restarts a measure bounds all further deliveries and the length of the main list |
| `QueueRuns.StackDiscipline` | services/internal/queue/redis_job_queue.go:56-65 | With no new work and no failure the popped message is settled before anything to its left is touched |
| `QueueRuns.LastInFirstOut` | services/internal/queue/redis_job_queue.go:56-65 | Of two messages pushed one after the other the later one is delivered first |
| `QueueRuns.DeadLetterAfterTen` | services/internal/queue/redis_job_queue.go:102-114 | A message refused n times has n more attempts and deliveries; it moves to the dead-letter list with exactly the tenth |
| `QueueRuns.UnscathedAccounts` | services/internal/queue/redis_job_queue.go:84-118 | With nothing recovered or lost, dead letters were delivered exactly ten times, and an empty queue has everything sent in the dead-letter list or acknowledged |
| `ReliableQueue.RedisQueue.Enqueue` | services/internal/queue/redis_job_queue.go:46-62 | The message is appended at the right end, or nothing changes |
| `ReliableQueue.RedisQueue.Dequeue` | services/internal/queue/redis_job_queue.go:64-82 | The rightmost message moves to the left end of the processing list |
| `ReliableQueue.RedisQueue.RemoveReceipt` | services/internal/queue/redis_job_queue.go:165-174 | One element equal to the receipt leaves the processing list and nothing else changes |
| `ReliableQueue.RedisQueue.Acknowledge` | services/internal/queue/redis_job_queue.go:84-86 | An acknowledgement is one step of the protocol and touches neither main nor the dead letters |
| `ReliableQueue.RedisQueue.Retry` | services/internal/queue/redis_job_queue.go:88-118 | The message reaches main, or from the tenth attempt the dead-letter list, only if both commands succeed; which error is returned when |
| `ReliableQueue.RedisQueue.Recover` | services/internal/queue/redis_job_queue.go:120-137 | The concatenation of processing and main never changes; success empties processing, a failure leaves exactly the rest |
| `Handlers.ProcessOutcome` | services/internal/worker/processor.go:63-111 | What `Process` leaves in every case: an error whose first provider error in the wrap tree can be retried, or without one, leaves the rows as they are and is retried; a refusal saves the row as failed with its text, a new task id saves it as processing under that id, and each is acknowledged exactly when save and publish succeed; polling starts for exactly the acknowledged tasks |
| `Handlers.ProcessVerdict` | services/internal/worker/processor.go:63-111 | A job message is acknowledged if and only if the row was read and is past queued, or a refusal or an acceptance was recorded and published; then the row is not queued |
| `Handlers.ExhaustedOutcome` | services/internal/worker/processor.go:113-137 | `Exhausted` fails a queued or processing row with the text of the last error, leaves every other row as it is, and succeeds exactly when read, save and publish do and the row is not ready |
| `Handlers.PollingStartsIff` | services/internal/worker/processor.go:94-108 | Polling starts exactly when an acceptance was recorded and published, and for the accepted task |
| `Handlers.UnreportedStartAcknowledged` | services/internal/worker/processor.go:94-108 | When a task id is stored but the save or the publish is reported as failed, the next delivery that reads the row acknowledges the message, and the row stays processing |
| `Pollers.NeverPolledLater` | services/internal/worker/processor.go:98-108 | A job that left the queue without a poller, and whose publish is not pending, gets none in any further run |
| `Pollers.CrashEndsPolling` | services/internal/worker/processor.go:184-199 | When the worker dies its pollers stop, and in no further run do they send anything |
| `Pollers.TimeoutEndsPolling` | services/internal/worker/processor.go:184-199 | A poller that times out sends nothing in any further run |
| `Pollers.AtMostOnePoller` | services/internal/worker/processor.go:161-178 | In every reachable state no two pollers are for one job, and only jobs past queued have one |
| `Handlers.HandleVerdict` | services/internal/worker/suno_callback_consumer.go:51-94 | Exactly which callbacks whose job exists are acknowledged, and a terminal one only with a finished row |
| `Handlers.HandleOutcome` | services/internal/service/suno_callback_service.go:47-157 | What a callback leaves in both tables in every case: a complete one stores its tracks unless the job is ready and then makes a processing row ready, without an error and with its time; an error one fails it with its trimmed message and its time; nothing else changes |
| `Handlers.FirstTerminalWins` | services/internal/service/suno_callback_service.go:47-157 | For any sequence of callbacks to a processing job: the first that lands fixes the whole row, ready without an error or failed with the trimmed message of that very callback, at its time, every other column as before; and before and after it the row stays the same |
| `Handlers.HandleOnce` | services/internal/service/suno_callback_service.go:47-157 | One callback leaves the row alone or finishes a processing row, and keeps the task id with it |
| `Handlers.FinishedStays` | services/internal/service/suno_callback_service.go:84-92 | No sequence of callbacks changes any column of a finished row |
| `Handlers.AtomicFinality` | services/internal/worker/processor.go:63-152 | With handlers as single steps a finished row is final in every column over any sequence of handlers |
| `Handlers.UnknownTaskChangesNothing` | services/internal/service/suno_callback_service.go:48-51 | A callback for an unknown task changes neither table and is retried |
| `Refinement.ProcessRefines` | services/internal/worker/processor.go:63-111 | The calls of `Process` in a row have the effect, the verdict and the polling of the one-step handler |
| `Refinement.HandleRefines` | services/internal/service/suno_callback_service.go:47-157 | The calls of `Handle` in a row have the effect and the verdict of the one-step handler |
| `Refinement.ResultsRefine` | services/internal/service/suno_callback_service.go:96-110 | The loop over results stores what the one-step loop stores and stops where it stops |
| `Iterations.JobIterationRefines` | services/internal/worker/consumer.go:52-90 | An uninterrupted iteration of the job consumer is a run of pipeline calls |
| `Iterations.CallbackIterationRefines` | services/internal/worker/suno_callback_consumer.go:43-79 | An uninterrupted iteration of the callback consumer is a run of pipeline calls |
| `Iterations.PollingRefines` | services/internal/worker/processor.go:184-237 | An uninterrupted poller enqueues exactly the callback of the polling loop and stops with it |
| `Iterations.CreateRefines` | services/internal/service/job_service.go:49-65 | The calls of `CreateJob` in a row leave the queue and the whole jobs table that the service object leaves |
| `Convergence.RetriesConverge` | services/internal/service/suno_callback_service.go:94-117 | Any runs that stop anywhere and then one that succeeds leave each row as the last run alone merged into the row before it, exactly one row per distinct trimmed audio id, other jobs untouched |
| `Convergence.ConvergedColumns` | services/internal/repo/postgres/queries_tracks.go:17-40 | After that, title, tags, duration and audio object are those of a clean run; id and favourite flag are those the row had after any earlier run, and a cover stored by then survives |
| `Convergence.FirstInsertStays` | services/internal/repo/postgres/queries_tracks.go:17-40 | From the run that inserted a row on, its id and favourite flag stay, and once it has a cover it keeps one |
| `Convergence.UpsertAllMerges` | services/internal/repo/postgres/queries_tracks.go:17-40 | A sequence of upserts acts on a row as the one row it would leave in an empty table |
| `Convergence.StoreResultsEffect` | services/internal/service/suno_callback_service.go:96-110 | A run writes exactly a prefix of the built tracks, and has no error if and only if every result got through |
| `Tracks.AudioKeyInjective` | services/internal/service/suno_callback_service.go:189-193 | Distinct (job, audio id) pairs never share an audio key |
| `Tracks.ImageKeyInjective` | services/internal/service/suno_callback_service.go:217-222 | Distinct (job, audio id) pairs never share an image key, whatever the extensions of their covers |
| `Tracks.AudioAndImageKeysDiffer` | services/internal/service/suno_callback_service.go:189-222 | No audio key is an image key |
| `Tracks.PathExtSplits` | services/internal/service/suno_callback_service.go:326 | The extension is the end of the path from the last dot of its last element, and empty if there is none |
| `Tracks.ExtensionFromPath` | services/internal/service/suno_callback_service.go:320-333 | With a dot in the last path element the extension is the lower-cased end of the path, else the fallback |
| `Tracks.LowerCaseCommutes` | services/internal/service/suno_callback_service.go:326 | It does not matter whether the path is put in lower case or its extension |
| `Tracks.BuildsIff` | services/internal/service/suno_callback_service.go:159-269 | A result becomes a track if and only if it has an audio id, an audio URL and a positive duration, none of them blank, and its audio was stored; a failed cover upload never prevents it |
| `Tracks.BuiltColumns` | services/internal/service/suno_callback_service.go:159-269 | The columns of a built track from the result and the uploads: a cover exactly when an image URL is given and its upload succeeded, then in the bucket of the upload under a key of job, audio id and extension; trimmed tags, duration, audio bucket and key, id |
| `Tracks.TitleFallsBack` | services/internal/service/suno_callback_service.go:243-249 | The title is the one of the result, else of the job, else the audio id |
| `Tracks.FirstStoreReadsBack` | services/internal/repo/postgres/track_repo.go:54-128 | Storing a built track for the first time adds one row, which reads back as the track if and only if its cover bucket is not the empty string; it has a title, and both cover fields or neither |
| `Tracks.BuiltNeverRejected` | services/migrations/000001_init.up.sql:113-120 | In a table of built tracks the unique object indexes refuse no further one |
| `Tracks.RejectedIff` | services/migrations/000001_init.up.sql:113-120 | The indexes refuse an upsert if and only if two rows would then name the same audio or image object |
| `Tracks.StoredKeepsObjectsUnique` | services/migrations/000001_init.up.sql:113-120 | Whatever is stored, no two rows name the same object |
| `Tracks.UpsertedColumns` | services/internal/repo/postgres/queries_tracks.go:6-43 | Column by column what an upsert leaves in a new row and in one that was there, and that no other row changes |
| `Tracks.CoverFromOneWrite` | services/internal/repo/postgres/queries_tracks.go:33-37 | After any upserts on a table, bucket and key of a cover come from the same write, the last about the row that had one, or from the row before |
| `Tracks.IdentityFromInsert` | services/internal/repo/postgres/queries_tracks.go:17-40 | Id and favourite flag are those of the row before, or of the write that inserted it |
| `Tracks.CoverNeverReverts` | services/internal/repo/postgres/track_repo.go:59-65 | A row of the table stays, a cover key it has after some of the upserts it has after all, and it reads back with both cover fields or neither |
| `Tracks.TrackRepo.CreateTrack` | services/internal/repo/postgres/track_repo.go:81-128 | The table and the result are those of the upsert and the read-back, also when the call fails after the write |
| `Tracks.TrackRepo.SetFavourite` | services/internal/repo/postgres/track_repo.go:246-257 | Only the favourite flag of a row whose job belongs to the user changes; otherwise a not-found or a database error and no change |
| `Tracks.TrackRepo.DeleteTrack` | services/internal/repo/postgres/track_repo.go:233-244 | Exactly a row whose job belongs to the user is removed; otherwise a not-found or a database error and no change |
| `Jobs.NormalizedIdempotent` | services/internal/domain/job.go:22-58 | Normalising twice is normalising once, for all strings |
| `Jobs.ValidateMeetsTable` | services/internal/domain/job.go:60-161 | Normalise and validate accept exactly the table of modes, models and byte limits |
| `Jobs.RejectionNamesBrokenRule` | services/internal/domain/job.go:60-161 | A rejection names a rule that the request breaks, and a request that breaks none is accepted |
| `Jobs.RejectionNamesFirstRule` | services/internal/domain/job.go:60-161 | Of several broken rules a rejection names the one that is checked first |
| `Jobs.SecondPassAgrees` | services/internal/service/job_service.go:31-35 | The second pass of the service neither changes nor rejects what the handler accepted |
| `Jobs.MarksKeepWellFormed` | services/internal/domain/job.go:194-260 | Every allowed mark keeps the columns consistent with the status, and never touches identity or a stored task id |
| `Jobs.ParamsDraft.Normalize` | services/internal/domain/job.go:22-58 | The in-place normalisation has the specified value |
| `Jobs.JobRecord.MarkProcessing` | services/internal/domain/job.go:194-218 | The in-place mark starts a queued job with the trimmed task id and one attempt more, leaves a processing one alone, and refuses a finished one unchanged |
| `Jobs.JobRecord.MarkReady` | services/internal/domain/job.go:220-239 | The in-place mark allows ready only from processing, or again from ready without a change; an error changes nothing |
| `Jobs.JobRecord.MarkFailed` | services/internal/domain/job.go:241-260 | The in-place mark allows failed from any status but ready, without a change if it is failed already; an error changes nothing |
| `JobStore.ByTaskIs` | services/internal/repo/postgres/queries_jobs.go:31 | With unique task ids a lookup by task finds the one job that has it |
| `JobStore.WriteKeepsTasksUnique` | services/migrations/000001_init.up.sql:53-55 | No save makes two rows share a task id |
| `JobStore.WritableIff` | services/migrations/000001_init.up.sql:53-55 | A save is allowed if and only if its row is there and task ids stay unique |
| `JobStore.JobRepo.CreateJob` | services/internal/repo/postgres/job_repo.go:85-112 | The row may be inserted although the call fails, an id that is taken is refused, and nothing else changes |
| `JobStore.JobRepo.UpdateJob` | services/internal/repo/postgres/job_repo.go:114-146 | The write may land although the call fails; identity and parameters are never written |
| `JobStore.JobRepo.GetBySunoTask` | services/internal/repo/postgres/job_repo.go:160-170 | The job that has the task id, not found when no row has it, or a database error when the call fails |
| `Callbacks.FromDetailsTable` | services/internal/worker/processor.go:239-297 | A polled record gives a callback if and only if its status is a known final one and a success has results: complete with the songs if it brings any, else an error with the message of the provider, or the text of the status when that is blank |
| `Callbacks.PolledRequestValid` | services/internal/worker/processor.go:239-287 | A callback made from a polled record passes `Validate`, is terminal, names the polled task, is complete exactly when results came with a success or a callback exception, and carries them |
| `Callbacks.RequestAcceptedIff` | services/internal/sunocallback/request.go:29-47 | A callback is accepted if and only if it has a message, a task id, a known type, and results if it is complete; a refused one is acknowledged, not retried |
| `Callbacks.RefusalNamesFirstRule` | services/internal/sunocallback/request.go:29-47 | A refusal names the first thing that is missing, in the order of the checks |
| `Services.PolledFirstRecord` | services/internal/worker/processor.go:184-237 | A polling run enqueues a callback if and only if some tick brings a conclusive record whose enqueue succeeds, before the job is found finished or missing: the first such record |
| `Errors.AsRetryableFindsFirst` | services/internal/worker/processor.go:79-87 | `errors.As` answers with the first provider error among the leaves of the wrap tree, and finds none only if there is none |
| `Errors.RefusesIff` | services/internal/worker/processor.go:79-87 | An error is treated as a definite refusal if and only if its first provider error cannot be retried |
| `Errors.RefusedCodes` | services/internal/suno/client.go:65-81 | However deep it is wrapped, exactly which codes and HTTP statuses of a provider error are a refusal |
| `Errors.IsFindsLeaf` | services/internal/worker/consumer.go:96-109 | `errors.Is` finds a sentinel if and only if it is a leaf of the wrap tree |
| `Errors.JobRequeueIff` | services/internal/worker/consumer.go:96-109 | The job consumer retries exactly the errors without any of its three sentinels among their leaves |
| `Errors.CallbackRequeueIff` | services/internal/worker/suno_callback_consumer.go:81-94 | The callback consumer retries exactly the errors without any of its three sentinels among their leaves |
| `Errors.ForeignMatchesNothing` | services/internal/worker/consumer.go:96-109 | However it is wrapped, an error from outside matches none of the sentinels that the requeue switch asks for |
| `Errors.ForeignRequeued` | services/internal/worker/consumer.go:96-109 | Both consumers retry an error from outside, also when it is wrapped |
| `Text.TrimSpaceSplits` | services/internal/domain/job.go:23-26 | A trim cuts off spaces only, and all of them |
| `Text.ByteLenAppend` | services/internal/domain/job.go:89-95 | Lengths count bytes: additive, one to four per character, one for ASCII |
| `Text.FirstNonEmptyFinds` | services/internal/worker/processor.go:289-297 | The result is the first value that is present and not blank, trimmed, and empty exactly when there is none |
| `Services.Processor.Process` | services/internal/worker/processor.go:63-111 | The object has the effect, the error and the polling of the one-step `Process` |
| `Services.Processor.MarkFailedAndSave` | services/internal/worker/processor.go:126-152 | `markFailed` on the object leaves the rows and returns the error of the one-step handler, whatever fails |
| `Services.Processor.Exhausted` | services/internal/worker/processor.go:113-124 | `Exhausted` on the object leaves the rows and returns the error of the one-step handler, whatever fails |
| `Services.Processor.StartPolling` | services/internal/worker/processor.go:161-178 | Polling starts once, for a non-blank task and only if enabled |
| `Services.CallbackService.StoreTracks` | services/internal/service/suno_callback_service.go:96-110 | The loop stores the tracks of the one-step loop and returns its error |
| `Services.CallbackService.Complete` | services/internal/service/suno_callback_service.go:79-131 | A complete callback on the object leaves both tables and returns the error of the one-step handler, whatever fails |
| `Services.CallbackService.Error` | services/internal/service/suno_callback_service.go:133-157 | An error callback on the object leaves both tables and returns the error of the one-step handler |
| `Services.CallbackService.Handle` | services/internal/service/suno_callback_service.go:47-77 | Every callback on the object leaves both tables and returns the error of the one-step handler |
| `Services.JobConsumer.HandleFailure` | services/internal/worker/consumer.go:74-94 | Which errors acknowledge, retry and exhaust |
| `Services.JobConsumer.RunOnce` | services/internal/worker/consumer.go:52-71 | An iteration has the specified effect on rows and queue and ends with nothing in hand |
| `Services.JobConsumer.Run` | services/internal/worker/consumer.go:47-72 | Recovery and then the iterations, also when recovery fails |
| `Services.CallbackConsumer.RunOnce` | services/internal/worker/suno_callback_consumer.go:43-62 | An iteration has the specified effect on both tables and the queue, ends with nothing in hand, and keeps task ids unique |
| `Services.CallbackConsumer.Run` | services/internal/worker/suno_callback_consumer.go:38-63 | Recovery and then the iterations, also when recovery fails |
| `Services.JobService.CreateJob` | services/internal/service/job_service.go:31-66 | A job is returned exactly when accepted, stored, read back and enqueued; otherwise no message exists and the error is that of the call that failed; the whole jobs table afterwards in every case |
| `Services.JobService.Compensate` | services/internal/service/job_service.go:56-63 | After a failed enqueue the row is failed, unless that write fails too, whose error then hides the first |
| `Services.PollingLoop.PollUntilComplete` | services/internal/worker/processor.go:184-219 | The loop enqueues exactly the callback of the first delivered record |
| `HubNet.AlwaysHealthy` | services/internal/realtime/hub.go:85-123 | After any events no send met a closed channel, no channel was closed twice, registered clients are exactly the open ones, and no buffer exceeds sixteen |
| `HubNet.EntryIffOpenClient` | services/internal/realtime/hub.go:96-107 | A user has an entry exactly when one of its clients is open |
| `HubNet.KnownIffConnected` | services/internal/realtime/hub.go:85-94 | A client is known to the hub if and only if it connected at some time |
| `HubNet.ClosedIffCloseFollows` | services/internal/realtime/hub.go:96-110 | Over every sequence of events: the channel of a client is closed, once, and the client out of the entry of its user, if and only if a close of it follows its first connect |
| `HubNet.CloseIsFinal` | services/internal/realtime/hub.go:193-198 | After a close of a client, and any further events, it is in no entry and its channel has been closed exactly once |
| `HubNet.ClosedLeaves` | services/internal/realtime/hub.go:96-110 | A close takes the client out of every entry, drops an entry that empties, and leaves all other memberships and channels as they were |
| `HubNet.TargetsAreOpen` | services/internal/realtime/hub.go:112-123 | Whoever is in an entry, and so gets broadcasts, connected for that user and has an open channel |
| `HubNet.PanicsIff` | services/internal/realtime/hub.go:96-123 | A broadcast to an entry with a closed client, or a second close of a channel, is what would panic, and nothing else |
| `HubNet.ReceivedInOrder` | services/internal/realtime/hub.go:112-123 | What a client received and what waits for it is a subsequence of the broadcasts to its user, in order |
| `HubNet.NothingMissed` | services/internal/realtime/hub.go:112-123 | While a client is registered and no close is pending for it, exactly the broadcasts since it connected have gone through or wait |
| `HubNet.BroadcastIsolated` | services/internal/realtime/hub.go:112-123 | A broadcast touches no channel of another user and no closed channel |
| `HubNet.EventThrough` | services/internal/realtime/hub.go:116-122 | A payload is dropped only for a client whose buffer holds sixteen |
| `HubNet.Hub.Register` | services/internal/realtime/hub.go:85-94 | Registering adds the client to the entry of its user and changes no other, and is a connect event of the value model |
| `HubNet.Hub.Unregister` | services/internal/realtime/hub.go:96-110 | Unregistering removes the client, and the entry with its last client, leaves all other memberships, and closes the channel unless the user has no entry |
| `HubNet.Hub.Close` | services/internal/realtime/hub.go:193-198 | After a close the channel is closed, the client is in no entry, no entry is empty, other clients are where they were, and what was waiting can still be received; it is a close event of the value model |
| `HubNet.Hub.Broadcast` | services/internal/realtime/hub.go:112-123 | The payload is appended exactly to the buffers of the clients of the user that have room, a close is spawned for exactly those that have none, and registrations and channels stay |
| `HubNet.Hub.Receive` | services/internal/realtime/hub.go:168-191 | The oldest waiting payload moves from the buffer to what was received, also of a closed channel, and nothing else changes |

## Left out

- Transport and wiring: Redis, Postgres, MinIO, HTTP and WebSocket frames, logging and start-up are atomic steps that may fail.
- Codecs: JSON and UUID text are lossless on well-formed payloads, so parse and marshal errors do not occur.
- Nil UUIDs: the checks for a nil job, track or user id.
- Time: tickers, sleeps, deadlines and the poll timeout are nondeterministic ticks; times are opaque values, and `created_at` and `updated_at` are not columns of the model.
- Durations are real numbers: a positive duration that rounds to zero and then breaks the column's check constraint is not modelled.
- A Redis command whose effect lands although the client sees an error, and several workers on one processing list.
- User lookup in `CreateJob`: its outcome is a parameter.
- Columns `audio_url`, `stream_url` and `image_url` of tracks, and fields of a result that no code reads.
- Listing, pagination, presigned URLs, views and device ids.
- Stored objects: what an upload leaves in storage, and that deleting a track also deletes its objects.
- Error texts: a stored error message is an arbitrary string, trimmed as the code does.
- Client pumps: the pong and error sends that the read pump makes outside the lock, pings, and deadlines; a receive by the write pump is one step.
- Services.JobConsumer.Run: the endless loop ends with the process; iterations are a finite sequence of any length, as they are in the callback consumer and in a polling run.
- Convergence.RetriesConverge: is about runs between which the owner neither deletes a track nor sets its favourite flag.
- QueueRuns.StackDiscipline: is about a queue without new work; a push during a run goes on top and is popped first.
