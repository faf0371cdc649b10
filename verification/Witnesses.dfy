/**
  Runs that show what the pipeline does not promise: a final status that changes in either direction, a
  ready job without tracks, and a job whose message is lost and that stays queued for ever.
  */
module Witnesses {
  import opened Text
  import opened Errors
  import opened Jobs
  import opened JobStore
  import opened Callbacks
  import opened Tracks
  import opened QueueProtocol
  import opened Pipeline
  import opened PipelineTheorems
  import opened Refinement
  import opened Stuck

  lemma ReachableStep(s: State, a: Action)
    requires Reachable(s)
    ensures Reachable(Step(s, a))
  {
    hide Step;
    var acts: seq<Action> :| Exec(Start(), acts) == s;
    ExecAppend(Start(), acts, [a]);
    ExecCons(s, a, []);
    ExecNil(Step(s, a));
    assert [a] + [] == [a];
  }

  // The message of the job, from its enqueue to the dead-letter list

  /** One message for `id` with n attempts, everything else at rest. */
  function Waits(id: JobId, n: nat): Queue<JobId> {
    Queue([Cell(Msg(id, n), n, 0)], [], [], Idle, None, [], [], [id])
  }

  function Held(id: JobId, n: nat): Queue<JobId> {
    Queue([], [Cell(Msg(id, n), n + 1, 0)], [], Holding(Msg(id, n)), None, [], [], [id])
  }

  function Between(id: JobId, n: nat): Queue<JobId> {
    Queue([], [], [], InGap(Msg(id, n)), Some(Cell(Msg(id, n), n + 1, 0)), [], [], [id])
  }

  function DeadLettered(id: JobId): Queue<JobId> {
    Queue([], [], [Cell(Msg(id, 10), 10, 0)], Idle, None, [], [], [id])
  }

  const NO_CALLBACKS: Queue<Request> := Queue([], [], [], Idle, None, [], [], [])

  /** The state in which the job's row, message and consumer are as given, and nothing else has happened. */
  function At(row: Job, q: Queue<JobId>, jc: JobPc): State {
    State(map[row.id := row], map[], {}, q, NO_CALLBACKS, map[row.id := Done], jc, CQueue, [])
  }

  lemma QueueMoves(id: JobId, n: nat)
    requires n < 10
    ensures Reserved(Waits(id, n)) == Held(id, n)
    ensures Removed(Held(id, n), true) == Between(id, n)
    ensures Republished(Between(id, n), true) == if n == 9 then DeadLettered(id) else Waits(id, n + 1)
  {
  }

  lemma Delivered(row: Job, n: nat)
    requires n < 10 && Reachable(At(row, Waits(row.id, n), JQueue))
    ensures Reachable(At(row, Held(row.id, n), JGot(row.id)))
  {
    var s := At(row, Waits(row.id, n), JQueue);
    QueueMoves(row.id, n);
    StepIs(s, JobDequeue);
    ReachableStep(s, JobDequeue);
    hide Step, Reachable, Reserved, Recovered, Removed, Republished;
  }

  lemma TakenOut(row: Job, n: nat)
    requires n < 10 && Reachable(At(row, Held(row.id, n), JRetry))
    ensures Reachable(At(row, Between(row.id, n), JGap))
  {
    var s := At(row, Held(row.id, n), JRetry);
    QueueMoves(row.id, n);
    StepIs(s, JobRemove(true));
    ReachableStep(s, JobRemove(true));
    hide Step, Reachable, Reserved, Recovered, Removed, Republished;
  }

  lemma Requeued(row: Job, n: nat)
    requires n < 10 && Reachable(At(row, Held(row.id, n), JRetry))
    ensures Reachable(if n == 9 then At(row, DeadLettered(row.id), JExhaust(row.id))
        else At(row, Waits(row.id, n + 1), JQueue))
  {
    var s := At(row, Between(row.id, n), JGap);
    TakenOut(row, n);
    QueueMoves(row.id, n);
    StepIs(s, JobRepublish(true));
    ReachableStep(s, JobRepublish(true));
    hide Step, Reachable, Reserved, Recovered, Removed, Republished;
  }

  lemma ReadFails(row: Job, n: nat)
    requires n < 10 && Reachable(At(row, Waits(row.id, n), JQueue))
    ensures Reachable(At(row, Held(row.id, n), JRetry))
  {
    Delivered(row, n);
    var s := At(row, Held(row.id, n), JGot(row.id));
    ForeignRequeued(DB_ERROR);
    StepIs(s, JobGet(false));
    ReachableStep(s, JobGet(false));
    hide Step, Reachable, Is;
  }

  lemma {:induction false} AttemptsFail(row: Job, n: nat)
    requires n <= 9 && Reachable(At(row, Waits(row.id, 0), JQueue))
    ensures Reachable(At(row, Waits(row.id, n), JQueue))
  {
    hide Reachable, At, Waits, Held;
    if n > 0 {
      AttemptsFail(row, n - 1);
      ReadFails(row, n - 1);
      Requeued(row, n - 1);
    }
  }

  // From the start to the first delivery

  function Fresh(calls: map<JobId, Call>, rows: Rows, q: Queue<JobId>, cbs: Queue<Request>): State {
    State(rows, map[], {}, q, cbs, calls, JQueue, CQueue, [])
  }

  function Resting<T>(): Queue<T> {
    Queue([], [], [], Idle, None, [], [], [])
  }

  lemma ConsumersStart()
    ensures Reachable(Fresh(map[], map[], Resting<JobId>(), NO_CALLBACKS))
  {
    var s1 := Fresh(map[], map[], Resting<JobId>(), Empty<Request>());
    StepIs(Start(), JobRecover(true));
    StepIs(s1, CbRecover(true));
    assert Exec(Start(), []) == Start();
    ReachableStep(Start(), JobRecover(true));
    hide Step, Reachable;
    assert Step(Start(), JobRecover(true)) == s1;
    ReachableStep(s1, CbRecover(true));
  }

  lemma JobInserted(id: JobId, user: UserId, params: JobParams)
    requires Validate(Normalized(params)).None?
    ensures var row := NewJob(id, user, Normalized(params));
            Reachable(Fresh(map[id := Inserted], map[id := row], Resting<JobId>(), NO_CALLBACKS))
  {
    var s := Fresh(map[], map[], Resting<JobId>(), NO_CALLBACKS);
    ConsumersStart();
    StepIs(s, ApiCreate(id, user, params));
    ReachableStep(s, ApiCreate(id, user, params));
    hide Step, Reachable, Validate, Normalized;
  }

  lemma JobCreated(id: JobId, user: UserId, params: JobParams)
    requires Validate(Normalized(params)).None?
    ensures var row := NewJob(id, user, Normalized(params));
            Reachable(Fresh(map[id := Created(row)], map[id := row], Resting<JobId>(), NO_CALLBACKS))
  {
    var row := NewJob(id, user, Normalized(params));
    var s := Fresh(map[id := Inserted], map[id := row], Resting<JobId>(), NO_CALLBACKS);
    JobInserted(id, user, params);
    StepIs(s, ApiReadBack(id, true));
    ReachableStep(s, ApiReadBack(id, true));
    hide Step, Reachable, Validate, Normalized;
    assert Step(s, ApiReadBack(id, true)).calls == map[id := Created(row)];
  }

  lemma JobEnqueued(id: JobId, user: UserId, params: JobParams)
    requires Validate(Normalized(params)).None?
    ensures Reachable(At(NewJob(id, user, Normalized(params)), Waits(id, 0), JQueue))
  {
    hide Validate, Normalized;
    var row := NewJob(id, user, Normalized(params));
    var s := Fresh(map[id := Created(row)], map[id := row], Resting<JobId>(), NO_CALLBACKS);
    JobCreated(id, user, params);
    StepIs(s, ApiEnqueue(id, true, 0, ""));
    ReachableStep(s, ApiEnqueue(id, true, 0, ""));
    hide Step, Reachable;
    assert Step(s, ApiEnqueue(id, true, 0, "")).calls == map[id := Done];
  }

  // The tenth delivery: the task starts, but the change is not published, so the message is retried.

  lemma TaskStarts(row: Job, task: string)
    requires row.status == Queued && !Blank(task) && Reachable(At(row, Held(row.id, 9), JGot(row.id)))
    ensures Reachable(At(row, Held(row.id, 9), JMark(row, MarkedProcessing(row, 0, task).value, task)))
  {
    var s := At(row, Held(row.id, 9), JGot(row.id));
    var s1 := At(row, Held(row.id, 9), JRead(row));
    StepIs(s, JobGet(true));
    StepIs(s1, JobGenerate(Generated(task), 0, ""));
    ReachableStep(s, JobGet(true));
    hide Step, Reachable, Blank;
    assert Step(s, JobGet(true)) == s1;
    ReachableStep(s1, JobGenerate(Generated(task), 0, ""));
  }

  lemma SavedAlone(row: Job, next: Job)
    requires next.id == row.id && next.user == row.user && next.params == row.params
    ensures Written(map[row.id := row], next, WrittenRead) == map[row.id := next]
    ensures WriteResult(map[row.id := row], next, WrittenRead) == Ok(next)
  {
  }

  lemma TaskSavedNotPublished(row: Job, next: Job, task: string)
    requires next.id == row.id && next.user == row.user && next.params == row.params
    requires Reachable(At(row, Held(row.id, 9), JMark(row, next, task)))
    ensures Reachable(At(next, Held(row.id, 9), JRetry))
  {
    var s := At(row, Held(row.id, 9), JMark(row, next, task));
    var s1 := At(next, Held(row.id, 9), JPublish(row.id, task));
    SavedAlone(row, next);
    ForeignRequeued(Plain);
    StepIs(s, JobSave(WrittenRead));
    StepIs(s1, JobPublish(false, true));
    ReachableStep(s, JobSave(WrittenRead));
    hide Step, Reachable, Written, WriteResult, Is;
    assert Step(s, JobSave(WrittenRead)) == s1;
    ReachableStep(s1, JobPublish(false, true));
  }

  /** The row of the job while its task runs. */
  function Running(id: JobId, user: UserId, params: JobParams, task: string): Job {
    Job(id, user, Normalized(params), Processing, Some(TrimSpace(task)), None, 1, Some(0), None)
  }

  lemma ExhaustedWhileRunning(id: JobId, user: UserId, params: JobParams, task: string)
    requires Validate(Normalized(params)).None? && !Blank(task)
    ensures Reachable(At(Running(id, user, params, task), DeadLettered(id), JExhaust(id)))
  {
    hide Reachable, At, Validate, Normalized, Held, Waits, DeadLettered;
    var row, next := NewJob(id, user, Normalized(params)), Running(id, user, params, task);
    JobEnqueued(id, user, params);
    AttemptsFail(row, 9);
    Delivered(row, 9);
    TaskStarts(row, task);
    TaskSavedNotPublished(row, next, task);
    Requeued(next, 9);
  }

  // The callback comes in, and is ready to save when `Exhausted` reads the row.

  function During(row: Job, tracks: TrackTable, cbs: Queue<Request>, jc: JobPc, cc: CbPc): State {
    State(map[row.id := row], tracks, {}, DeadLettered(row.id), cbs, map[row.id := Done], jc, cc, [])
  }

  function Got(req: Request): Queue<Request> {
    Queue([], [Cell(Msg(req, 0), 1, 0)], [], Holding(Msg(req, 0)), None, [], [], [req])
  }

  lemma CallbackArrives(row: Job, req: Request)
    requires ValidateRequest(req).None? && Reachable(At(row, DeadLettered(row.id), JExhaust(row.id)))
    ensures Reachable(During(row, map[], Got(req), JExhaust(row.id), CGot(req)))
  {
    var s := At(row, DeadLettered(row.id), JExhaust(row.id));
    var s1 := s.(cbs := Pushed(s.cbs, req));
    StepIs(s, ApiCallback(req));
    StepIs(s1, CbDequeue);
    ReachableStep(s, ApiCallback(req));
    assert Init(s1.cbs.main) == [];
    assert Reserved(s1.cbs) == Got(req);
    hide Step, Reachable, Reserved, ValidateRequest, DeadLettered;
    assert Step(s, ApiCallback(req)) == s1;
    ReachableStep(s1, CbDequeue);
  }

  lemma CallbackFindsRow(row: Job, req: Request)
    requires row.status == Processing && row.taskId == Some(req.TaskId()) && req.kind == CompleteType
    requires Reachable(During(row, map[], Got(req), JExhaust(row.id), CGot(req)))
    ensures Reachable(During(row, map[], Got(req), JExhaust(row.id), CBuild(row, req, 0)))
  {
    var s := During(row, map[], Got(req), JExhaust(row.id), CGot(req));
    ByTaskIs(s.rows, row.id, req.TaskId());
    StepIs(s, CbLookup(true, 0));
    ReachableStep(s, CbLookup(true, 0));
    hide Step, Reachable, DeadLettered, Got, ByTask;
  }

  lemma TrackBuilt(row: Job, req: Request, u: Uploads, t: Track)
    requires |req.results| == 1
    requires Reachable(During(row, map[], Got(req), JExhaust(row.id), CBuild(row, req, 0)))
    ensures BuildTrack(row, req.results[0], u) == Ok(t) ==>
              Reachable(During(row, map[], Got(req), JExhaust(row.id), CStore(row, req, 0, t)))
  {
    var s := During(row, map[], Got(req), JExhaust(row.id), CBuild(row, req, 0));
    StepIs(s, CbBuild(u));
    ReachableStep(s, CbBuild(u));
    hide Step, Reachable, DeadLettered, Got, BuildTrack;
  }

  lemma TrackStored(row: Job, req: Request, t: Track)
    requires |req.results| == 1
    requires Reachable(During(row, map[], Got(req), JExhaust(row.id), CStore(row, req, 0, t)))
    ensures Reachable(During(row, Upserted(map[], t), Got(req), JExhaust(row.id), CBuild(row, req, 1)))
  {
    var s := During(row, map[], Got(req), JExhaust(row.id), CStore(row, req, 0, t));
    StepIs(s, CbStore(WrittenRead));
    ReachableStep(s, CbStore(WrittenRead));
    assert !Rejected(map[], t);
    hide Step, Reachable, DeadLettered, Got, Upserted, Rejected;
  }

  function ReadyAt(row: Job): Job {
    row.(status := Ready, error := None, finishedAt := Some(1))
  }

  function FailedAt(row: Job): Job {
    row.(status := Failed, error := Some(TrimSpace(ExhaustedMessage("publish failed"))), finishedAt := Some(2))
  }

  lemma ReadyCopyMade(row: Job, tracks: TrackTable, req: Request)
    requires row.status == Processing && |req.results| == 1
    requires Reachable(During(row, tracks, Got(req), JExhaust(row.id), CBuild(row, req, 1)))
    ensures Reachable(During(row, tracks, Got(req), JExhaust(row.id), CReady(row, ReadyAt(row), req)))
  {
    var s := During(row, tracks, Got(req), JExhaust(row.id), CBuild(row, req, 1));
    StepIs(s, CbMarkReady(1));
    ReachableStep(s, CbMarkReady(1));
    hide Step, Reachable, DeadLettered, Got;
  }

  lemma FailedCopyMade(row: Job, tracks: TrackTable, req: Request)
    requires row.status == Processing
    requires Reachable(During(row, tracks, Got(req), JExhaust(row.id), CReady(row, ReadyAt(row), req)))
    ensures Reachable(During(row, tracks, Got(req), JExhaustSave(row, FailedAt(row)), CReady(row, ReadyAt(row), req)))
  {
    var s := During(row, tracks, Got(req), JExhaust(row.id), CReady(row, ReadyAt(row), req));
    StepIs(s, ExhaustGet(true, 2, "publish failed"));
    ReachableStep(s, ExhaustGet(true, 2, "publish failed"));
    hide Step, Reachable, DeadLettered, Got, ReadyAt, TrimSpace;
  }

  lemma ReadyCopySaved(row: Job, tracks: TrackTable, req: Request)
    requires Reachable(During(row, tracks, Got(req), JExhaustSave(row, FailedAt(row)), CReady(row, ReadyAt(row), req)))
    ensures Reachable(During(ReadyAt(row), tracks, Got(req), JExhaustSave(row, FailedAt(row)), CPublish(row.id, req)))
  {
    var s := During(row, tracks, Got(req), JExhaustSave(row, FailedAt(row)), CReady(row, ReadyAt(row), req));
    SavedAlone(row, ReadyAt(row));
    StepIs(s, CbSaveReady(WrittenRead));
    ReachableStep(s, CbSaveReady(WrittenRead));
    hide Step, Reachable, DeadLettered, Got, Written, WriteResult, FailedAt, CallbackRequeue;
  }

  lemma FailedCopySaved(row: Job, tracks: TrackTable, req: Request)
    ensures var s := During(ReadyAt(row), tracks, Got(req), JExhaustSave(row, FailedAt(row)), CPublish(row.id, req));
            Step(s, ExhaustSave(WrittenRead)).rows == map[row.id := FailedAt(row)]
  {
    var s := During(ReadyAt(row), tracks, Got(req), JExhaustSave(row, FailedAt(row)), CPublish(row.id, req));
    SavedAlone(ReadyAt(row), FailedAt(row));
    StepIs(s, ExhaustSave(WrittenRead));
    hide Step, DeadLettered, Got, Written, WriteResult, TrimSpace;
  }

  /** A complete callback for the task that has one result, from which a track can be built. */
  predicate Fitting(row: Job, task: string, req: Request, u: Uploads) {
    && ValidateRequest(req).None? && req.kind == CompleteType && req.TaskId() == TrimSpace(task)
    && |req.results| == 1 && BuildTrack(row, req.results[0], u).Ok?
  }

  function TracksOf(row: Job, req: Request, u: Uploads): TrackTable
    requires |req.results| == 1 && BuildTrack(row, req.results[0], u).Ok?
  {
    Upserted(map[], BuildTrack(row, req.results[0], u).value)
  }

  /** `Exhausted` and the complete callback have both read the processing row and not yet saved it. */
  lemma BothAboutToSave(id: JobId, user: UserId, params: JobParams, task: string, req: Request, u: Uploads)
    requires Validate(Normalized(params)).None? && !Blank(task)
    requires Fitting(Running(id, user, params, task), task, req, u)
    ensures var row := Running(id, user, params, task);
            Reachable(During(row, TracksOf(row, req, u), Got(req), JExhaustSave(row, FailedAt(row)),
                             CReady(row, ReadyAt(row), req)))
  {
    var row := Running(id, user, params, task);
    var t := BuildTrack(row, req.results[0], u).value;
    hide Reachable, Step, Validate, Normalized, ValidateRequest, BuildTrack, Upserted, Got, DeadLettered;
    ExhaustedWhileRunning(id, user, params, task);
    CallbackArrives(row, req);
    CallbackFindsRow(row, req);
    TrackBuilt(row, req, u, t);
    TrackStored(row, req, t);
    ReadyCopyMade(row, Upserted(map[], t), req);
    FailedCopyMade(row, Upserted(map[], t), req);
  }

  /**
    For every acceptable job and every fitting callback there is a run that ends with the job ready and one
    action later has it failed.
    */
  lemma ReadyBecomesFailed(id: JobId, user: UserId, params: JobParams, task: string, req: Request, u: Uploads)
    returns (s: State)
    requires Validate(Normalized(params)).None? && !Blank(task)
    requires Fitting(Running(id, user, params, task), task, req, u)
    ensures Reachable(s) && id in s.rows && s.rows[id].status == Ready
    ensures StaleOverwrite(s, ExhaustSave(WrittenRead), id)
    ensures id in Step(s, ExhaustSave(WrittenRead)).rows
            && Step(s, ExhaustSave(WrittenRead)).rows[id].status == Failed
  {
    var row := Running(id, user, params, task);
    hide Reachable, Step, Validate, Normalized, Fitting, Upserted, BuildTrack, Got, DeadLettered;
    BothAboutToSave(id, user, params, task, req, u);
    FittingBuilds(row, task, req, u);
    var tracks := TracksOf(row, req, u);
    ReadyCopySaved(row, tracks, req);
    FailedCopySaved(row, tracks, req);
    s := During(ReadyAt(row), tracks, Got(req), JExhaustSave(row, FailedAt(row)), CPublish(row.id, req));
  }

  lemma FittingBuilds(row: Job, task: string, req: Request, u: Uploads)
    requires Fitting(row, task, req, u)
    ensures |req.results| == 1 && BuildTrack(row, req.results[0], u).Ok?
  {
  }

  lemma FailedSavedFirst(row: Job, tracks: TrackTable, req: Request)
    requires Reachable(During(row, tracks, Got(req), JExhaustSave(row, FailedAt(row)), CReady(row, ReadyAt(row), req)))
    ensures Reachable(During(FailedAt(row), tracks, Got(req), JQueue, CReady(row, ReadyAt(row), req)))
  {
    var s := During(row, tracks, Got(req), JExhaustSave(row, FailedAt(row)), CReady(row, ReadyAt(row), req));
    SavedAlone(row, FailedAt(row));
    StepIs(s, ExhaustSave(WrittenRead));
    ReachableStep(s, ExhaustSave(WrittenRead));
    hide Step, Reachable, DeadLettered, Got, Written, WriteResult, FailedAt, ReadyAt;
  }

  lemma ReadySavedLast(row: Job, tracks: TrackTable, req: Request)
    ensures var s := During(FailedAt(row), tracks, Got(req), JQueue, CReady(row, ReadyAt(row), req));
            Step(s, CbSaveReady(WrittenRead)).rows == map[row.id := ReadyAt(row)]
  {
    var s := During(FailedAt(row), tracks, Got(req), JQueue, CReady(row, ReadyAt(row), req));
    SavedAlone(FailedAt(row), ReadyAt(row));
    StepIs(s, CbSaveReady(WrittenRead));
    hide Step, DeadLettered, Got, Written, WriteResult, TrimSpace;
  }

  /** The other way round: the same two saves in the other order turn a failed job ready. */
  lemma FailedBecomesReady(id: JobId, user: UserId, params: JobParams, task: string, req: Request, u: Uploads)
    returns (s: State)
    requires Validate(Normalized(params)).None? && !Blank(task)
    requires Fitting(Running(id, user, params, task), task, req, u)
    ensures Reachable(s) && id in s.rows && s.rows[id].status == Failed
    ensures StaleOverwrite(s, CbSaveReady(WrittenRead), id)
    ensures id in Step(s, CbSaveReady(WrittenRead)).rows
            && Step(s, CbSaveReady(WrittenRead)).rows[id].status == Ready
  {
    var row := Running(id, user, params, task);
    hide Reachable, Step, Validate, Normalized, Fitting, Upserted, BuildTrack, Got, DeadLettered, TrimSpace;
    BothAboutToSave(id, user, params, task, req, u);
    FittingBuilds(row, task, req, u);
    var tracks := TracksOf(row, req, u);
    FailedSavedFirst(row, tracks, req);
    ReadySavedLast(row, tracks, req);
    s := During(FailedAt(row), tracks, Got(req), JQueue, CReady(row, ReadyAt(row), req));
  }

  // Deleted tracks

  /** The owner deletes the only track of the job that has just become ready. */
  lemma ReadyWithoutTracks(id: JobId, user: UserId, params: JobParams, task: string, req: Request, u: Uploads)
    returns (s: State)
    requires Validate(Normalized(params)).None? && !Blank(task)
    requires Fitting(Running(id, user, params, task), task, req, u)
    ensures Reachable(s) && id in s.rows && s.rows[id].status == Ready && s.tracks == map[]
  {
    var row := Running(id, user, params, task);
    hide Reachable, Step, Validate, Normalized, Fitting, BuildTrack, Got, DeadLettered, FailedAt;
    BothAboutToSave(id, user, params, task, req, u);
    FittingBuilds(row, task, req, u);
    var tracks := TracksOf(row, req, u);
    ReadyCopySaved(row, tracks, req);
    var s0 := During(ReadyAt(row), tracks, Got(req), JExhaustSave(row, FailedAt(row)), CPublish(row.id, req));
    var key := KeyOf(BuildTrack(row, req.results[0], u).value);
    BuiltIsCanonical(row, req.results[0], u);
    assert tracks.Keys == {key} && key.0 == id;
    OwnerDeletes(s0, key);
    var a := ApiDeleteTrack(key, user);
    ReachableStep(s0, a);
    s := Step(s0, a);
    assert s.tracks == map[];
  }

  // Lost messages

  function Vanished(id: JobId): Queue<JobId> {
    Queue([], [], [], Idle, None, [], [Cell(Msg(id, 0), 1, 0)], [id])
  }

  /**
    For every acceptable job there is a run after which one failed push, or one crash, loses the job's
    message while its row is queued; whatever happens later, the row stays as it was created.
    */
  lemma MessageLost(id: JobId, user: UserId, params: JobParams, loss: Action, later: seq<Action>) returns (s: State)
    requires Validate(Normalized(params)).None? && (loss == JobRepublish(false) || loss == WorkerCrash)
    ensures Reachable(s) && id in s.rows && s.rows[id].status == Queued && s.jobs.lost == []
    ensures Reachable(Step(s, loss)) && Stranded(Step(s, loss), id)
    ensures Exec(Step(s, loss), later).rows.Keys >= {id}
            && Exec(Step(s, loss), later).rows[id] == NewJob(id, user, Normalized(params))
  {
    hide Validate, Normalized;
    var row := NewJob(id, user, Normalized(params));
    s := At(row, Between(id, 0), JGap);
    hide Reachable, At, Exec, Stranded;
    JobEnqueued(id, user, params);
    ReadFails(row, 0);
    TakenOut(row, 0);
    ReachableStep(s, loss);
    LossStrands(row, loss);
    LostJobStaysQueued(Step(s, loss), later, id);
    StrandedIn(Exec(Step(s, loss), later), id);
    AtRow(row, Between(id, 0), JGap);
  }

  lemma StrandedIn(s: State, id: JobId)
    requires Stranded(s, id)
    ensures id in s.rows
  {
  }

  lemma AtRow(row: Job, q: Queue<JobId>, jc: JobPc)
    ensures At(row, q, jc).rows == map[row.id := row] && At(row, q, jc).jobs == q
  {
  }

  lemma LossStrands(row: Job, loss: Action)
    requires row.status == Queued && (loss == JobRepublish(false) || loss == WorkerCrash)
    ensures var s' := Step(At(row, Between(row.id, 0), JGap), loss);
            Stranded(s', row.id) && s'.rows[row.id] == row
  {
    hide Step, Stranded;
    if loss.WorkerCrash? {
      CrashLoses(row);
    } else {
      FailedPushLoses(row);
    }
    VanishedStrands(row, Step(At(row, Between(row.id, 0), JGap), loss));
  }

  lemma VanishedStrands(row: Job, s: State)
    requires row.status == Queued && s.rows == map[row.id := row] && s.jobs.lost == Vanished(row.id).lost
    ensures Stranded(s, row.id)
  {
  }

  lemma FailedPushLoses(row: Job)
    ensures var s' := Step(At(row, Between(row.id, 0), JGap), JobRepublish(false));
            s'.rows == map[row.id := row] && s'.jobs == Vanished(row.id)
  {
    StepIs(At(row, Between(row.id, 0), JGap), JobRepublish(false));
    hide Step, Reserved, Recovered, Removed, AckSent;
  }

  lemma CrashLoses(row: Job)
    ensures var s' := Step(At(row, Between(row.id, 0), JGap), WorkerCrash);
            s'.rows == map[row.id := row] && s'.jobs.lost == Vanished(row.id).lost
  {
    hide ApiStep, ProcessorStep, ExhaustedStep, JobQueueStep, HandlerStep, CallbackQueueStep, PollStep, Stopped;
  }

  // Two more ways to be queued for ever

  /**
    Ten refusals move the message of a queued job to the dead-letter list; then the one call of `Exhausted`
    cannot read the row, and whatever happens later, the row stays as it was created.
    */
  lemma ExhaustedGivesUp(id: JobId, user: UserId, params: JobParams, later: seq<Action>) returns (s: State)
    requires Validate(Normalized(params)).None?
    ensures Reachable(s) && s.jobs.lost == [] && Count(s.jobs.dlq, id) > 0
    ensures id in Exec(s, later).rows && Exec(s, later).rows[id] == NewJob(id, user, Normalized(params))
  {
    hide Validate, Normalized;
    var row := NewJob(id, user, Normalized(params));
    s := At(row, DeadLettered(id), JQueue);
    hide Reachable, Exec;
    JobEnqueued(id, user, params);
    AttemptsFail(row, 9);
    ReadFails(row, 9);
    Requeued(row, 9);
    ExhaustReadFails(row);
    AbandonedStaysQueued(s, later, id);
  }

  lemma ExhaustReadFails(row: Job)
    requires Reachable(At(row, DeadLettered(row.id), JExhaust(row.id)))
    ensures Reachable(At(row, DeadLettered(row.id), JQueue))
  {
    var s := At(row, DeadLettered(row.id), JExhaust(row.id));
    StepIs(s, ExhaustGet(false, 0, ""));
    ReachableStep(s, ExhaustGet(false, 0, ""));
    hide Step, Reachable, DeadLettered;
  }

  /** The row is stored and its read-back fails: the create call returns an error, and the row stays for ever. */
  lemma CreateGivesUp(id: JobId, user: UserId, params: JobParams, later: seq<Action>) returns (s: State)
    requires Validate(Normalized(params)).None?
    ensures Reachable(s) && s.jobs.sent == []
    ensures id in Exec(s, later).rows && Exec(s, later).rows[id] == NewJob(id, user, Normalized(params))
  {
    hide Validate, Normalized;
    var row := NewJob(id, user, Normalized(params));
    s := Fresh(map[id := Ended], map[id := row], Resting<JobId>(), NO_CALLBACKS);
    JobInserted(id, user, params);
    ReadBackFails(id, row);
    hide Reachable, Exec;
    AbandonedStaysQueued(s, later, id);
  }

  /**
    The API dies in a create call that has not enqueued the job: its queued row stays as it is, whatever comes
    later.
    */
  lemma CreateCallDies(s: State, id: JobId, later: seq<Action>)
    requires Reachable(s) && id in s.calls && !s.calls[id].Done?
    requires id in s.rows && s.rows[id].status == Queued
    ensures var s' := Exec(Step(s, ApiCrash(id)), later); id in s'.rows && s'.rows[id] == s.rows[id]
  {
    hide Reachable, Exec, Count;
    StepIs(s, ApiCrash(id));
    ReachableStep(s, ApiCrash(id));
    hide Step;
    AbandonedStaysQueued(Step(s, ApiCrash(id)), later, id);
  }

  lemma ReadBackFails(id: JobId, row: Job)
    requires Reachable(Fresh(map[id := Inserted], map[id := row], Resting<JobId>(), NO_CALLBACKS))
    ensures Reachable(Fresh(map[id := Ended], map[id := row], Resting<JobId>(), NO_CALLBACKS))
  {
    var s := Fresh(map[id := Inserted], map[id := row], Resting<JobId>(), NO_CALLBACKS);
    StepIs(s, ApiReadBack(id, false));
    ReachableStep(s, ApiReadBack(id, false));
    hide Step, Reachable;
    assert Step(s, ApiReadBack(id, false)).calls == map[id := Ended];
  }

  // A concrete job and callback

  const SONG: JobParams := JobParams("a song", false, None, None, false, V5, None, None)
  const RESULT: SunoResult := SunoResult("a1", Some("u"), None, None, None, None, None, Some(60.0))
  const CALLBACK: Request := Request(200, "ok", CompleteType, "t1", [RESULT])

  lemma SongAccepted()
    ensures Validate(Normalized(SONG)).None?
  {
  }

  lemma ResultBuilds(j: Job, u: Uploads)
    requires u.audio == Some("audio")
    ensures BuildTrack(j, RESULT, u).Ok?
  {
    NonSpaceStartNotBlank("a1");
    NonSpaceStartNotBlank("u");
    NonSpaceStartNotBlank("audio");
    BuildsIff(j, RESULT, u);
    FirstOfTwo(RESULT.audioUrl, RESULT.sourceAudioUrl);
    assert TrimOption([RESULT.audioUrl, RESULT.sourceAudioUrl][0]).Some?;
  }

  lemma CallbackValid()
    ensures ValidateRequest(CALLBACK).None? && !Blank("t1") && CALLBACK.TaskId() == TrimSpace("t1")
  {
  }

  const ID: JobId := seq(36, _ => '0')
  const UPLOADS: Uploads := Uploads(Some("audio"), None, None, ID)

  lemma SongFits()
    ensures Validate(Normalized(SONG)).None? && !Blank("t1")
    ensures Fitting(Running(ID, ID, SONG, "t1"), "t1", CALLBACK, UPLOADS)
  {
    SongAccepted();
    CallbackValid();
    hide Normalized, BuildTrack;
    ResultBuilds(Running(ID, ID, SONG, "t1"), UPLOADS);
  }

  /** With a concrete job and callback: the exact final status is not absorbing, in either direction. */
  lemma FinalStatusNotAbsorbing() returns (s: State, a: Action, s': State, a': Action)
    ensures Reachable(s) && ID in s.rows && s.rows[ID].status == Ready
    ensures ID in Step(s, a).rows && Step(s, a).rows[ID].status == Failed
    ensures Reachable(s') && ID in s'.rows && s'.rows[ID].status == Failed
    ensures ID in Step(s', a').rows && Step(s', a').rows[ID].status == Ready
  {
    hide *;
    SongFits();
    a, a' := ExhaustSave(WrittenRead), CbSaveReady(WrittenRead);
    s := ReadyBecomesFailed(ID, ID, SONG, "t1", CALLBACK, UPLOADS);
    s' := FailedBecomesReady(ID, ID, SONG, "t1", CALLBACK, UPLOADS);
  }

  /**
    With a concrete job, it is queued after any further run: its message lost by a failed push, its dead
    letter given up by `Exhausted`, or its create call failed after the insert.
    */
  lemma JobNeverProcessed(later: seq<Action>) returns (s: State, s': State, s'': State)
    ensures Reachable(s) && Count(s.jobs.lost, ID) > 0
    ensures Reachable(s') && s'.jobs.lost == [] && Count(s'.jobs.dlq, ID) > 0
    ensures Reachable(s'') && s''.jobs.sent == []
    ensures QueuedAfter(s, later, ID) && QueuedAfter(s', later, ID) && QueuedAfter(s'', later, ID)
  {
    hide *;
    SongFits();
    var before := MessageLost(ID, ID, SONG, JobRepublish(false), later);
    s := Step(before, JobRepublish(false));
    s' := ExhaustedGivesUp(ID, ID, SONG, later);
    s'' := CreateGivesUp(ID, ID, SONG, later);
    NewJobQueued(s, later);
    NewJobQueued(s', later);
    NewJobQueued(s'', later);
    StrandedLost(s, ID);
  }

  lemma StrandedLost(s: State, id: JobId)
    requires Stranded(s, id)
    ensures Count(s.jobs.lost, id) > 0
  {
  }

  lemma NewJobQueued(s: State, later: seq<Action>)
    requires ID in Exec(s, later).rows && Exec(s, later).rows[ID] == NewJob(ID, ID, Normalized(SONG))
    ensures QueuedAfter(s, later, ID)
  {
    hide Exec, Normalized;
  }
}
