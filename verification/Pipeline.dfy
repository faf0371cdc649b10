/**
  The generation pipeline as one transition system. Every call on the database, a queue, the provider,
  storage or the notifier is one action, so actions of the API, the two consumers and the pollers
  interleave freely. An action that its actor is not ready for changes nothing.
  */
module Pipeline {
  import opened Text
  import opened Errors
  import opened Jobs
  import opened JobStore
  import opened Callbacks
  import opened Tracks
  import opened QueueProtocol

  /** Where a `CreateJob` call of the API is; `Done` after its enqueue, `Ended` on an error or a crash. */
  datatype Call = Inserted | Created(copy: Job) | EnqueueFailed(next: Job) | Done | Ended

  /** Where the job consumer is. `base` is the row it read, `next` the changed copy it is about to save. */
  datatype JobPc =
    | JQueue
    | JGot(id: JobId)
    | JRead(base: Job)
    | JMark(base: Job, next: Job, task: string)
    | JPublish(id: JobId, task: string)
    | JMarkFailed(base: Job, next: Job, err: Err)
    | JPublishFailed(id: JobId, err: Err)
    | JAck
    | JRetry
    | JGap
    | JExhaust(id: JobId)
    | JExhaustSave(base: Job, next: Job)

  /** Where the callback consumer is; `job` names the row a verdict is about. */
  datatype CbPc =
    | CQueue
    | CGot(req: Request)
    | CBuild(base: Job, req: Request, i: nat)
    | CStore(base: Job, req: Request, i: nat, track: Track)
    | CReady(base: Job, next: Job, req: Request)
    | CPublish(job: JobId, req: Request)
    | CFail(base: Job, next: Job, req: Request)
    | CAck(about: Option<JobId>)
    | CRetry
    | CGap

  datatype PollPc = PCheck | PFetch | PSend(req: Request) | PStopped
  datatype Poller = Poller(id: JobId, task: string, pc: PollPc, sent: nat)

  /** `deleted` is history: the keys of track rows that their owners deleted and that were not stored again. */
  datatype State = State(
    rows: Rows,
    tracks: TrackTable,
    deleted: set<TrackKey>,
    jobs: Queue<JobId>,
    cbs: Queue<Request>,
    calls: map<JobId, Call>,
    jc: JobPc,
    cc: CbPc,
    pollers: seq<Poller>)

  datatype Generation = Generated(task: string) | GenerationFailed(err: Err)

  datatype Action =
    // API
    | ApiCreate(id: JobId, user: UserId, params: JobParams)
    | ApiReadBack(id: JobId, ok: bool)
    | ApiEnqueue(id: JobId, ok: bool, now: Time, text: string)
    | ApiCompensate(id: JobId, how: WriteOutcome)
    | ApiCrash(id: JobId)
    | ApiCallback(req: Request)
    | ApiFavourite(key: TrackKey, user: UserId, favourite: bool)
    | ApiDeleteTrack(key: TrackKey, user: UserId)
    // job consumer
    | JobRecover(ok: bool)
    | JobDequeue
    | JobGet(ok: bool)
    | JobGenerate(gen: Generation, now: Time, text: string)
    | JobSave(how: WriteOutcome)
    | JobPublish(ok: bool, polling: bool)
    | JobSaveFailed(how: WriteOutcome)
    | JobPublishFailed(ok: bool)
    | JobAck(ok: bool)
    | JobRemove(ok: bool)
    | JobRepublish(ok: bool)
    | ExhaustGet(ok: bool, now: Time, text: string)
    | ExhaustSave(how: WriteOutcome)
    // callback consumer
    | CbRecover(ok: bool)
    | CbDequeue
    | CbLookup(ok: bool, now: Time)
    | CbBuild(uploads: Uploads)
    | CbStore(how: WriteOutcome)
    | CbMarkReady(now: Time)
    | CbSaveReady(how: WriteOutcome)
    | CbPublish(ok: bool)
    | CbSaveFailed(how: WriteOutcome)
    | CbAck(ok: bool)
    | CbRemove(ok: bool)
    | CbRepublish(ok: bool)
    // pollers
    | PollCheck(poller: nat, ok: bool)
    | PollFetch(poller: nat, details: Option<Details>)
    | PollSend(poller: nat, ok: bool)
    | PollTimeout(poller: nat)
    // the worker process dies and restarts
    | WorkerCrash

  function Start(): State {
    State(map[], map[], {}, Empty(), Empty(), map[], JQueue, CQueue, [])
  }

  // The API

  function DoApiCreate(s: State, id: JobId, user: UserId, params: JobParams): State {
    if id in s.rows || Validate(Normalized(params)).Some? then s
    else s.(rows := s.rows[id := NewJob(id, user, Normalized(params))], calls := s.calls[id := Inserted])
  }

  function DoApiReadBack(s: State, id: JobId, ok: bool): State {
    if id !in s.calls || !s.calls[id].Inserted? then s
    else
      match GetJob(s.rows, id, ok)
      case Ok(j) => s.(calls := s.calls[id := Created(j)])
      case Fail(_) => s.(calls := s.calls[id := Ended])
  }

  function DoApiEnqueue(s: State, id: JobId, ok: bool, now: Time, text: string): State {
    if id !in s.calls || !s.calls[id].Created? then s
    else if ok then s.(jobs := Pushed(s.jobs, id), calls := s.calls[id := Done])
    else
      match MarkedFailed(s.calls[id].copy, now, text)
      case Ok(j) => s.(calls := s.calls[id := EnqueueFailed(j)])
      case Fail(_) => s.(calls := s.calls[id := Ended])
  }

  function DoApiCompensate(s: State, id: JobId, how: WriteOutcome): State {
    if id !in s.calls || !s.calls[id].EnqueueFailed? then s
    else s.(rows := Written(s.rows, s.calls[id].next, how), calls := s.calls[id := Ended])
  }

  function DoApiCrash(s: State, id: JobId): State {
    if id !in s.calls || s.calls[id].Done? then s
    else s.(calls := s.calls[id := Ended])
  }

  /** The HTTP handler enqueues only what passes `Validate`. */
  function DoApiCallback(s: State, req: Request): State {
    if ValidateRequest(req).Some? then s else s.(cbs := Pushed(s.cbs, req))
  }

  function DoApiFavourite(s: State, key: TrackKey, user: UserId, favourite: bool): State {
    if !Owns(s.rows, s.tracks, key, user) then s
    else s.(tracks := s.tracks[key := s.tracks[key].(favourite := favourite)])
  }

  function DoApiDeleteTrack(s: State, key: TrackKey, user: UserId): State {
    if !Owns(s.rows, s.tracks, key, user) then s
    else s.(tracks := s.tracks - {key}, deleted := s.deleted + {key})
  }

  // The job consumer

  /** `handleFailure`: a retry, or an acknowledgement when a retry cannot help. */
  function AfterJobError(e: Err): JobPc {
    if JobRequeue(e) then JRetry else JAck
  }

  function DoJobRecover(s: State, ok: bool): State {
    if s.jc != JQueue then s else s.(jobs := Recovered(s.jobs, ok))
  }

  function DoJobDequeue(s: State): State {
    if s.jc != JQueue then s
    else
      var q := Reserved(s.jobs);
      if q.hand.Holding? then s.(jobs := q, jc := JGot(q.hand.msg.body)) else s
  }

  function DoJobGet(s: State, ok: bool): State {
    if !s.jc.JGot? then s
    else
      match GetJob(s.rows, s.jc.id, ok)
      case Fail(e) => s.(jc := AfterJobError(Wrap(e)))
      case Ok(j) =>
        if j.status != Queued then s.(jc := AfterJobError(Wrap(Sentinel(InvalidStatusTransition))))
        else s.(jc := JRead(j))
  }

  /** The provider answers with a task id, never blank, or with an error of its own. */
  predicate Plausible(gen: Generation) {
    match gen
    case Generated(task) => !Blank(task)
    case GenerationFailed(e) => Foreign(e)
  }

  function DoJobGenerate(s: State, gen: Generation, now: Time, text: string): State {
    if !s.jc.JRead? || !Plausible(gen) then s
    else s.(jc := AfterGeneration(s.jc.base, gen, now, text))
  }

  function AfterGeneration(base: Job, gen: Generation, now: Time, text: string): JobPc {
    match gen
    case Generated(task) =>
      (match MarkedProcessing(base, now, task)
       case Ok(next) => JMark(base, next, task)
       case Fail(e) => AfterJobError(Wrap(e)))
    case GenerationFailed(e) =>
      if AsRetryable(e) == Some(false) then
        match MarkedFailed(base, now, text)
        case Ok(next) => JMarkFailed(base, next, e)
        case Fail(_) => AfterJobError(Wrap(e))
      else AfterJobError(Wrap(e))
  }

  function DoJobSave(s: State, how: WriteOutcome): State {
    if !s.jc.JMark? then s
    else
      s.(rows := Written(s.rows, s.jc.next, how),
         jc := match WriteResult(s.rows, s.jc.next, how)
               case Ok(j) => JPublish(j.id, s.jc.task)
               case Fail(e) => AfterJobError(Wrap(e)))
  }

  function DoJobPublish(s: State, ok: bool, polling: bool): State {
    if !s.jc.JPublish? then s
    else if !ok then s.(jc := AfterJobError(Wrap(Plain)))
    else if polling && !Blank(s.jc.task) then
      s.(jc := JAck, pollers := s.pollers + [Poller(s.jc.id, s.jc.task, PCheck, 0)])
    else s.(jc := JAck)
  }

  /** A failed `markFailed` keeps the provider error (`%w`) and drops its own (`%v`). */
  function DoJobSaveFailed(s: State, how: WriteOutcome): State {
    if !s.jc.JMarkFailed? then s
    else
      s.(rows := Written(s.rows, s.jc.next, how),
         jc := match WriteResult(s.rows, s.jc.next, how)
               case Ok(j) => JPublishFailed(j.id, s.jc.err)
               case Fail(_) => AfterJobError(Wrap(s.jc.err)))
  }

  function DoJobPublishFailed(s: State, ok: bool): State {
    if !s.jc.JPublishFailed? then s
    else s.(jc := AfterJobError(Wrap(if ok then Sentinel(NonRetryable) else s.jc.err)))
  }

  function DoJobAck(s: State, ok: bool): State {
    if s.jc != JAck then s else s.(jobs := AckSent(s.jobs, ok), jc := JQueue)
  }

  function DoJobRemove(s: State, ok: bool): State {
    if s.jc != JRetry then s
    else
      var q := Removed(s.jobs, ok);
      s.(jobs := q, jc := if q.hand.InGap? then JGap else JQueue)
  }

  function DoJobRepublish(s: State, ok: bool): State {
    if s.jc != JGap || !s.jobs.hand.InGap? then s
    else
      var m := s.jobs.hand.msg;
      s.(jobs := Republished(s.jobs, ok),
         jc := if ok && m.attempts + 1 >= MAX_ATTEMPTS then JExhaust(m.body) else JQueue)
  }

  function ExhaustedMessage(cause: string): string {
    "worker retries exhausted: " + cause
  }

  function DoExhaustGet(s: State, ok: bool, now: Time, text: string): State {
    if !s.jc.JExhaust? then s
    else
      match GetJob(s.rows, s.jc.id, ok)
      case Fail(_) => s.(jc := JQueue)
      case Ok(j) =>
        match MarkedFailed(j, now, ExhaustedMessage(text))
        case Ok(next) => s.(jc := JExhaustSave(j, next))
        case Fail(_) => s.(jc := JQueue)
  }

  /** Whether its publish succeeds makes no difference to the consumer. */
  function DoExhaustSave(s: State, how: WriteOutcome): State {
    if !s.jc.JExhaustSave? then s
    else s.(rows := Written(s.rows, s.jc.next, how), jc := JQueue)
  }

  // The callback consumer

  function AfterCbError(e: Err, about: Option<JobId>): CbPc {
    if CallbackRequeue(e) then CRetry else CAck(about)
  }

  function DoCbRecover(s: State, ok: bool): State {
    if s.cc != CQueue then s else s.(cbs := Recovered(s.cbs, ok))
  }

  function DoCbDequeue(s: State): State {
    if s.cc != CQueue then s
    else
      var q := Reserved(s.cbs);
      if q.hand.Holding? then s.(cbs := q, cc := CGot(q.hand.msg.body)) else s
  }

  ghost function DoCbLookup(s: State, ok: bool, now: Time): State {
    if !s.cc.CGot? then s
    else
      match GetJobByTask(s.rows, s.cc.req.TaskId(), ok)
      case Fail(e) => s.(cc := AfterCbError(e, None))
      case Ok(j) => s.(cc := AfterLookup(j, s.cc.req, now))
  }

  function AfterLookup(j: Job, req: Request, now: Time): CbPc {
    match req.kind
    case TextType | FirstType => CAck(Some(j.id))
    case CompleteType => if j.status == Ready then CAck(Some(j.id)) else CBuild(j, req, 0)
    case ErrorType =>
      if j.status == Failed then CAck(Some(j.id))
      else
        (match MarkedFailed(j, now, req.ErrorMessage())
         case Ok(next) => CFail(j, next, req)
         case Fail(e) => AfterCbError(e, Some(j.id)))
    case OtherType(_) => AfterCbError(InvalidCallback(CallbackTypeInvalid), Some(j.id))
  }

  /** The uploads of one result, which change nothing the other actors see. */
  function DoCbBuild(s: State, uploads: Uploads): State {
    if !s.cc.CBuild? || s.cc.i >= |s.cc.req.results| then s
    else
      match BuildTrack(s.cc.base, s.cc.req.results[s.cc.i], uploads)
      case Ok(t) => s.(cc := CStore(s.cc.base, s.cc.req, s.cc.i, t))
      case Fail(e) => s.(cc := AfterCbError(e, Some(s.cc.base.id)))
  }

  function DoCbStore(s: State, how: WriteOutcome): State {
    if !s.cc.CStore? then s
    else
      s.(tracks := Stored(s.tracks, s.cc.track, how),
         deleted := s.deleted - Stored(s.tracks, s.cc.track, how).Keys,
         cc := if how == WrittenRead && !Rejected(s.tracks, s.cc.track) then CBuild(s.cc.base, s.cc.req, s.cc.i + 1)
               else AfterCbError(Wrap(CREATE_TRACK_ERROR), Some(s.cc.base.id)))
  }

  function DoCbMarkReady(s: State, now: Time): State {
    if !s.cc.CBuild? || s.cc.i < |s.cc.req.results| then s
    else
      match MarkedReady(s.cc.base, now)
      case Ok(next) => s.(cc := CReady(s.cc.base, next, s.cc.req))
      case Fail(e) => s.(cc := AfterCbError(e, Some(s.cc.base.id)))
  }

  function AfterSaveReady(r: Result<Job>, about: JobId, req: Request): CbPc {
    match r
    case Ok(j) => CPublish(j.id, req)
    case Fail(e) => AfterCbError(Wrap(e), Some(about))
  }

  function DoCbSaveReady(s: State, how: WriteOutcome): State {
    if !s.cc.CReady? then s
    else
      s.(rows := Written(s.rows, s.cc.next, how),
         cc := AfterSaveReady(WriteResult(s.rows, s.cc.next, how), s.cc.base.id, s.cc.req))
  }

  function DoCbPublish(s: State, ok: bool): State {
    if !s.cc.CPublish? then s
    else s.(cc := if ok then CAck(Some(s.cc.job)) else AfterCbError(Wrap(Plain), Some(s.cc.job)))
  }

  function AfterSaveFailed(r: Result<Job>, about: JobId): CbPc {
    match r
    case Ok(j) => CAck(Some(j.id))
    case Fail(e) => AfterCbError(Wrap(e), Some(about))
  }

  function DoCbSaveFailed(s: State, how: WriteOutcome): State {
    if !s.cc.CFail? then s
    else
      s.(rows := Written(s.rows, s.cc.next, how),
         cc := AfterSaveFailed(WriteResult(s.rows, s.cc.next, how), s.cc.base.id))
  }

  function DoCbAck(s: State, ok: bool): State {
    if !s.cc.CAck? then s else s.(cbs := AckSent(s.cbs, ok), cc := CQueue)
  }

  function DoCbRemove(s: State, ok: bool): State {
    if s.cc != CRetry then s
    else
      var q := Removed(s.cbs, ok);
      s.(cbs := q, cc := if q.hand.InGap? then CGap else CQueue)
  }

  function DoCbRepublish(s: State, ok: bool): State {
    if s.cc != CGap then s else s.(cbs := Republished(s.cbs, ok), cc := CQueue)
  }

  // The pollers

  /** `shouldContinuePolling`: only a missing or finished job ends it. */
  function AfterCheck(r: Result<Job>): PollPc {
    match r
    case Fail(e) => if Is(e, JobNotFound) then PStopped else PFetch
    case Ok(j) => if Terminal(j.status) then PStopped else PFetch
  }

  function DoPollCheck(s: State, p: nat, ok: bool): State {
    if p >= |s.pollers| || !s.pollers[p].pc.PCheck? then s
    else s.(pollers := s.pollers[p := s.pollers[p].(pc := AfterCheck(GetJob(s.rows, s.pollers[p].id, ok)))])
  }

  function DoPollFetch(s: State, p: nat, details: Option<Details>): State {
    if p >= |s.pollers| || !s.pollers[p].pc.PFetch? then s
    else
      var req := if details.None? then None else FromDetails(s.pollers[p].task, details.value);
      s.(pollers := s.pollers[p := s.pollers[p].(pc := if req.None? then PCheck else PSend(req.value))])
  }

  function DoPollSend(s: State, p: nat, ok: bool): State {
    if p >= |s.pollers| || !s.pollers[p].pc.PSend? then s
    else if !ok then s.(pollers := s.pollers[p := s.pollers[p].(pc := PCheck)])
    else s.(cbs := Pushed(s.cbs, s.pollers[p].pc.req),
            pollers := s.pollers[p := s.pollers[p].(pc := PStopped, sent := s.pollers[p].sent + 1)])
  }

  function DoPollTimeout(s: State, p: nat): State {
    if p >= |s.pollers| || !s.pollers[p].pc.PCheck? then s
    else s.(pollers := s.pollers[p := s.pollers[p].(pc := PStopped)])
  }

  function Stopped(ps: seq<Poller>): seq<Poller> {
    seq(|ps|, i requires 0 <= i < |ps| => ps[i].(pc := PStopped))
  }

  function DoWorkerCrash(s: State): State {
    s.(jobs := Crashed(s.jobs), cbs := Crashed(s.cbs), jc := JQueue, cc := CQueue, pollers := Stopped(s.pollers))
  }

  /** Who takes an action: the API, a poller, the whole worker process, or a part of a consumer. */
  datatype Actor = Server | Processor | Exhausted | JobQueue | Handler | CallbackQueue | Polling | Host

  function By(a: Action): Actor {
    match a
    case ApiCreate(_, _, _) | ApiReadBack(_, _) | ApiEnqueue(_, _, _, _) | ApiCompensate(_, _) => Server
    case ApiCrash(_) | ApiCallback(_) | ApiFavourite(_, _, _) | ApiDeleteTrack(_, _) => Server
    case JobGet(_) | JobGenerate(_, _, _) | JobSave(_) | JobPublish(_, _) => Processor
    case JobSaveFailed(_) | JobPublishFailed(_) => Processor
    case ExhaustGet(_, _, _) | ExhaustSave(_) => Exhausted
    case JobRecover(_) | JobDequeue | JobAck(_) | JobRemove(_) | JobRepublish(_) => JobQueue
    case CbLookup(_, _) | CbBuild(_) | CbStore(_) | CbMarkReady(_) => Handler
    case CbSaveReady(_) | CbPublish(_) | CbSaveFailed(_) => Handler
    case CbRecover(_) | CbDequeue | CbAck(_) | CbRemove(_) | CbRepublish(_) => CallbackQueue
    case PollCheck(_, _) | PollFetch(_, _) | PollSend(_, _) | PollTimeout(_) => Polling
    case WorkerCrash => Host
  }

  function ApiStep(s: State, a: Action): State {
    match a
    case ApiCreate(id, user, params) => DoApiCreate(s, id, user, params)
    case ApiReadBack(id, ok) => DoApiReadBack(s, id, ok)
    case ApiEnqueue(id, ok, now, text) => DoApiEnqueue(s, id, ok, now, text)
    case ApiCompensate(id, how) => DoApiCompensate(s, id, how)
    case ApiCrash(id) => DoApiCrash(s, id)
    case ApiCallback(req) => DoApiCallback(s, req)
    case ApiFavourite(key, user, favourite) => DoApiFavourite(s, key, user, favourite)
    case ApiDeleteTrack(key, user) => DoApiDeleteTrack(s, key, user)
    case _ => s
  }

  function ProcessorStep(s: State, a: Action): State {
    match a
    case JobGet(ok) => DoJobGet(s, ok)
    case JobGenerate(gen, now, text) => DoJobGenerate(s, gen, now, text)
    case JobSave(how) => DoJobSave(s, how)
    case JobPublish(ok, polling) => DoJobPublish(s, ok, polling)
    case JobSaveFailed(how) => DoJobSaveFailed(s, how)
    case JobPublishFailed(ok) => DoJobPublishFailed(s, ok)
    case _ => s
  }

  function ExhaustedStep(s: State, a: Action): State {
    match a
    case ExhaustGet(ok, now, text) => DoExhaustGet(s, ok, now, text)
    case ExhaustSave(how) => DoExhaustSave(s, how)
    case _ => s
  }

  function JobQueueStep(s: State, a: Action): State {
    match a
    case JobRecover(ok) => DoJobRecover(s, ok)
    case JobDequeue => DoJobDequeue(s)
    case JobAck(ok) => DoJobAck(s, ok)
    case JobRemove(ok) => DoJobRemove(s, ok)
    case JobRepublish(ok) => DoJobRepublish(s, ok)
    case _ => s
  }

  ghost function HandlerStep(s: State, a: Action): State {
    match a
    case CbLookup(ok, now) => DoCbLookup(s, ok, now)
    case CbBuild(uploads) => DoCbBuild(s, uploads)
    case CbStore(how) => DoCbStore(s, how)
    case CbMarkReady(now) => DoCbMarkReady(s, now)
    case CbSaveReady(how) => DoCbSaveReady(s, how)
    case CbPublish(ok) => DoCbPublish(s, ok)
    case CbSaveFailed(how) => DoCbSaveFailed(s, how)
    case _ => s
  }

  function CallbackQueueStep(s: State, a: Action): State {
    match a
    case CbRecover(ok) => DoCbRecover(s, ok)
    case CbDequeue => DoCbDequeue(s)
    case CbAck(ok) => DoCbAck(s, ok)
    case CbRemove(ok) => DoCbRemove(s, ok)
    case CbRepublish(ok) => DoCbRepublish(s, ok)
    case _ => s
  }

  function PollStep(s: State, a: Action): State {
    match a
    case PollCheck(p, ok) => DoPollCheck(s, p, ok)
    case PollFetch(p, details) => DoPollFetch(s, p, details)
    case PollSend(p, ok) => DoPollSend(s, p, ok)
    case PollTimeout(p) => DoPollTimeout(s, p)
    case _ => s
  }

  ghost function Step(s: State, a: Action): State {
    match By(a)
    case Server => ApiStep(s, a)
    case Processor => ProcessorStep(s, a)
    case Exhausted => ExhaustedStep(s, a)
    case JobQueue => JobQueueStep(s, a)
    case Handler => HandlerStep(s, a)
    case CallbackQueue => CallbackQueueStep(s, a)
    case Polling => PollStep(s, a)
    case Host => DoWorkerCrash(s)
  }

  ghost function Exec(s: State, acts: seq<Action>): State
    decreases |acts|
  {
    if acts == [] then s else Exec(Step(s, acts[0]), acts[1..])
  }

  ghost predicate Reachable(s: State) {
    exists acts: seq<Action> :: Exec(Start(), acts) == s
  }
}
