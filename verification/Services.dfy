/** The services and consumers as the program has them: objects that work on the shared tables and queues in place. */
module Services {
  import opened Text
  import opened Errors
  import opened Jobs
  import opened JobStore
  import opened Callbacks
  import opened Tracks
  import opened QueueProtocol
  import opened ReliableQueue
  import opened Pipeline
  import opened Handlers

  function Wrapped(err: Option<Err>): Option<Err> {
    if err.None? then None else Some(Wrap(err.value))
  }

  /** The worker's job processor. `polls` records the polling goroutines it has started. */
  class Processor {
    const repo: JobRepo
    const polling: bool
    var polls: seq<(JobId, string)>

    constructor (repo: JobRepo, polling: bool)
      ensures this.repo == repo && this.polling == polling && polls == []
    {
      this.repo, this.polling := repo, polling;
      polls := [];
    }

    method MarkFailedAndSave(job: JobRecord, now: Time, text: string, write: WriteOutcome, publishOk: bool)
      returns (err: Option<Err>)
      modifies repo, job
      ensures (repo.rows, err) == MarkFailed(old(repo.rows), old(job.Value()), now, text, write, publishOk)
    {
      var markErr := job.MarkFailed(now, text);
      if markErr.Some? {
        if Is(markErr.value, InvalidStatusTransition) && job.status == Failed {
          return None;
        }
        return Some(Wrap(markErr.value));
      }
      var updated := repo.UpdateJob(job.Value(), write);
      if updated.Fail? {
        return Some(Wrap(updated.error));
      }
      if !publishOk {
        return Some(Wrap(Plain));
      }
      return None;
    }

    method StartPolling(id: JobId, task: string)
      modifies this`polls
      ensures polls == old(polls) + if polling && !Blank(task) then [(id, task)] else []
    {
      if !polling || TrimSpace(task) == "" {
        return;
      }
      polls := polls + [(id, task)];
    }

    /** A provider error: a definite refusal is recorded in the row, anything else leaves the job queued. */
    method GenerationFailure(job: JobRecord, e: Err, f: ProcessFaults) returns (err: Err)
      modifies repo, job
      ensures var refused := Refuses(e);
              var (rows, markErr) := MarkFailed(old(repo.rows), old(job.Value()), f.now, f.text, f.write, f.publishOk);
              && repo.rows == (if refused then rows else old(repo.rows))
              && err == Wrap(if refused && markErr.None? then Sentinel(NonRetryable) else e)
    {
      RefusesIff(e);
      if AsRetryable(e) == Some(false) {
        var markErr := MarkFailedAndSave(job, f.now, f.text, f.write, f.publishOk);
        if markErr.Some? {
          return Wrap(e);
        }
        return Wrap(Sentinel(NonRetryable));
      }
      return Wrap(e);
    }

    method Process(id: JobId, f: ProcessFaults) returns (err: Option<Err>)
      modifies repo, this`polls
      ensures var p := Handlers.Process(old(repo.rows), id, f);
              && repo.rows == p.rows && err == p.err
              && (p.task.None? || !polling ==> polls == old(polls))
              && (p.task.Some? && polling && !Blank(p.task.value) && old(repo.rows)[id].id == id ==>
                    polls == old(polls) + [(id, p.task.value)])
    {
      var read := repo.Get(id, f.readOk);
      if read.Fail? {
        return Some(Wrap(read.error));
      }
      var job := new JobRecord(read.value);
      if job.status != Queued {
        return Some(Wrap(Sentinel(InvalidStatusTransition)));
      }
      match f.gen {
        case GenerationFailed(e) =>
          RefusesIff(e);
          var failure := GenerationFailure(job, e, f);
          return Some(failure);
        case Generated(task) =>
          var markErr := job.MarkProcessing(f.now, task);
          if markErr.Some? {
            return Wrapped(markErr);
          }
          var updated := repo.UpdateJob(job.Value(), f.write);
          if updated.Fail? {
            return Some(Wrap(updated.error));
          }
          if !f.publishOk {
            return Some(Wrap(Plain));
          }
          StartPolling(updated.value.id, task);
          return None;
      }
    }

    method Exhausted(id: JobId, cause: string, f: ExhaustFaults) returns (err: Option<Err>)
      modifies repo
      ensures (repo.rows, err) == ExhaustedOn(old(repo.rows), id, cause, f.readOk, f.now, f.write, f.publishOk)
    {
      var read := repo.Get(id, f.readOk);
      if read.Fail? {
        return Some(read.error);
      }
      var job := new JobRecord(read.value);
      err := MarkFailedAndSave(job, f.now, ExhaustedMessage(cause), f.write, f.publishOk);
    }
  }

  datatype ExhaustFaults = ExhaustFaults(readOk: bool, now: Time, write: WriteOutcome, publishOk: bool)

  /** The callback service over both tables. */
  class CallbackService {
    const jobs: JobRepo
    const tracks: TrackRepo

    constructor (jobs: JobRepo, tracks: TrackRepo)
      ensures this.jobs == jobs && this.tracks == tracks
    {
      this.jobs, this.tracks := jobs, tracks;
    }

    ghost function Tables(): Db
      reads jobs, tracks
    {
      Db(jobs.rows, tracks.rows)
    }

    /** The loop over the results of a complete callback, up to the first error. */
    method StoreTracks(j: Job, rs: seq<SunoResult>, fs: seq<ResultFaults>) returns (err: Option<Err>)
      requires |rs| == |fs|
      modifies tracks
      ensures (tracks.rows, err) == StoreResults(old(tracks.rows), j, rs, fs)
    {
      var i := 0;
      while i < |rs|
        invariant 0 <= i <= |rs|
        invariant StoreResults(tracks.rows, j, rs[i..], fs[i..]) == StoreResults(old(tracks.rows), j, rs, fs)
      {
        assert rs[i..][0] == rs[i] && rs[i..][1..] == rs[i + 1..];
        assert fs[i..][0] == fs[i] && fs[i..][1..] == fs[i + 1..];
        var built := BuildTrack(j, rs[i], fs[i].uploads);
        if built.Fail? {
          return Some(built.error);
        }
        var created := tracks.CreateTrack(built.value, fs[i].store);
        if created.Fail? {
          return Some(Wrap(created.error));
        }
        i := i + 1;
      }
      return None;
    }

    method Complete(j: Job, req: Request, f: HandleFaults) returns (err: Option<Err>)
      requires |f.results| == |req.results|
      modifies jobs, tracks
      ensures (Tables(), err) == HandleComplete(old(Tables()), j, req, f)
    {
      if j.status == Ready {
        return None;
      }
      err := StoreTracks(j, req.results, f.results);
      if err.Some? {
        return;
      }
      var job := new JobRecord(j);
      err := job.MarkReady(f.now);
      if err.Some? {
        return;
      }
      var updated := jobs.UpdateJob(job.Value(), f.write);
      if updated.Fail? {
        return Some(Wrap(updated.error));
      }
      if !f.publishOk {
        return Some(Wrap(Plain));
      }
    }

    method Error(j: Job, req: Request, f: HandleFaults) returns (err: Option<Err>)
      modifies jobs
      ensures (Tables(), err) == HandleError(old(Tables()), j, req, f)
    {
      if j.status != Failed {
        var job := new JobRecord(j);
        err := job.MarkFailed(f.now, req.ErrorMessage());
        if err.Some? {
          return;
        }
        var updated := jobs.UpdateJob(job.Value(), f.write);
        if updated.Fail? {
          return Some(Wrap(updated.error));
        }
      }
      return None;
    }

    method Handle(req: Request, f: HandleFaults) returns (err: Option<Err>)
      requires |f.results| == |req.results| && TasksUnique(jobs.rows)
      modifies jobs, tracks
      ensures (Tables(), err) == Handlers.Handle(old(Tables()), req, f)
    {
      var found := jobs.GetBySunoTask(req.TaskId(), f.lookupOk);
      if found.Fail? {
        return Some(found.error);
      }
      match req.kind {
        case TextType | FirstType => return None;
        case CompleteType => err := Complete(found.value, req, f);
        case ErrorType => err := Error(found.value, req, f);
        case OtherType(_) => return Some(InvalidCallback(CallbackTypeInvalid));
      }
    }
  }

  // One iteration of the consumers

  datatype JobFaults = JobFaults(
    dequeueOk: bool, process: ProcessFaults, ackOk: bool, removeOk: bool, pushOk: bool, cause: string,
        exhausted: ExhaustFaults)

  /** What one iteration of the job consumer makes of the rows and the queue. */
  function JobIteration(rows: Rows, q: Queue<JobId>, f: JobFaults): (Rows, Queue<JobId>) {
    var q1 := Next(q, Reserve);
    if !f.dequeueOk || !q1.hand.Holding? then (rows, q)
    else
      var m := q1.hand.msg;
      var p := Handlers.Process(rows, m.body, f.process);
      if Acknowledges(p.err) then (p.rows, Next(q1, Ack(f.ackOk)))
      else if !f.removeOk then (p.rows, Next(q1, Remove(false)))
      else
        var q3 := Next(Next(q1, Remove(true)), Republish(f.pushOk));
        if f.pushOk && m.attempts + 1 >= MAX_ATTEMPTS then
          var x := f.exhausted;
          (ExhaustedOn(p.rows, m.body, f.cause, x.readOk, x.now, x.write, x.publishOk).0, q3)
        else (p.rows, q3)
  }

  /** The iterations of a run, one after the other. */
  function JobIterations(rows: Rows, q: Queue<JobId>, fs: seq<JobFaults>): (Rows, Queue<JobId>)
    decreases |fs|
  {
    if fs == [] then (rows, q)
    else
      var (rows', q') := JobIteration(rows, q, fs[0]);
      JobIterations(rows', q', fs[1..])
  }

  /** After an iteration, whatever failed, the consumer holds nothing. */
  lemma IterationEndsIdle(rows: Rows, q: Queue<JobId>, f: JobFaults)
    requires q.hand.Idle? && HandAgrees(q)
    ensures JobIteration(rows, q, f).1.hand.Idle?
  {
  }

  lemma NothingReserved(q: Queue<JobId>)
    requires q.hand.Idle?
    ensures Next(q, Reserve).hand.Holding? <==> q.main != []
  {
  }

  class JobConsumer {
    const queue: RedisQueue<JobId>
    const processor: Processor

    constructor (queue: RedisQueue<JobId>, processor: Processor)
      ensures this.queue == queue && this.processor == processor
    {
      this.queue, this.processor := queue, processor;
    }

    method HandleFailure(m: Msg<JobId>, err: Err, f: JobFaults)
      requires queue.Valid() && queue.ledger.hand == Holding(m)
      modifies queue, processor.repo
      ensures queue.Valid()
      ensures queue.ledger == if !JobRequeue(err) then Next(old(queue.ledger), Ack(f.ackOk))
                              else if !f.removeOk then Next(old(queue.ledger), Remove(false))
                              else Next(Next(old(queue.ledger), Remove(true)), Republish(f.pushOk))
      ensures processor.repo.rows
              == if JobRequeue(err) && f.removeOk && f.pushOk && m.attempts + 1 >= MAX_ATTEMPTS then
                   ExhaustedOn(old(processor.repo.rows), m.body, f.cause, f.exhausted.readOk, f.exhausted.now,
                               f.exhausted.write, f.exhausted.publishOk).0
                 else old(processor.repo.rows)
    {
      if !JobRequeue(err) {
        var ackErr := queue.Acknowledge(m, f.ackOk);
        return;
      }
      hide Next, ExhaustedOn;
      var retryErr := queue.Retry(m, f.removeOk, f.pushOk);
      if retryErr.Some? && Is(retryErr.value, MovedToDLQ) {
        var exhaustErr := processor.Exhausted(m.body, f.cause, f.exhausted);
      }
    }

    method RunOnce(f: JobFaults)
      requires queue.Valid() && queue.ledger.hand.Idle?
      modifies queue, processor.repo, processor
      ensures queue.Valid() && queue.ledger.hand.Idle?
      ensures (processor.repo.rows, queue.ledger) == JobIteration(old(processor.repo.rows), old(queue.ledger), f)
    {
      IterationEndsIdle(processor.repo.rows, queue.ledger, f);
      NothingReserved(queue.ledger);
      hide Next, Handlers.Process, ExhaustedOn, JobRequeue;
      var m := queue.Dequeue(f.dequeueOk);
      if m.None? {
        return;
      }
      var err := processor.Process(m.value.body, f.process);
      if err.Some? {
        HandleFailure(m.value, err.value, f);
        return;
      }
      var ackErr := queue.Acknowledge(m.value, f.ackOk);
    }

    /** A failed `Recover` is logged, and the loop starts anyway; `fs` are the iterations until the process dies. */
    method Run(budget: nat, fs: seq<JobFaults>)
      requires queue.Valid() && queue.ledger.hand.Recovering?
      modifies queue, processor.repo, processor
      ensures queue.Valid() && queue.ledger.hand.Idle?
      ensures (processor.repo.rows, queue.ledger)
              == JobIterations(old(processor.repo.rows),
                               QueueProtocol.Run(old(queue.ledger), RecoverActs(old(|queue.processing|), budget)), fs)
    {
      var err := queue.Recover(budget);
      var i := 0;
      while i < |fs|
        invariant 0 <= i <= |fs|
        invariant queue.Valid() && queue.ledger.hand.Idle?
        invariant JobIterations(processor.repo.rows, queue.ledger, fs[i..])
                  == JobIterations(old(processor.repo.rows),
                                   QueueProtocol.Run(old(queue.ledger), RecoverActs(old(|queue.processing|), budget)),
                                   fs)
      {
        assert fs[i..][0] == fs[i] && fs[i..][1..] == fs[i + 1..];
        hide JobIteration, QueueProtocol.Run, RecoverActs;
        RunOnce(fs[i]);
        i := i + 1;
      }
    }
  }

  datatype CallbackFaults = CallbackFaults(dequeueOk: bool, handle: HandleFaults, ackOk: bool, removeOk: bool,
      pushOk: bool)

  const STORAGE_DOWN: ResultFaults := ResultFaults(Uploads(None, None, None, seq(36, _ => '0')), NotWritten)

  /** An outcome for each of n results; results that `f` has no outcome for meet a storage that is down. */
  function Outcomes(f: HandleFaults, n: nat): (g: HandleFaults)
    ensures |g.results| == n && (|f.results| == n ==> g == f)
  {
    f.(results := seq(n, i requires 0 <= i < n => if i < |f.results| then f.results[i] else STORAGE_DOWN))
  }

  /** What one iteration of the callback consumer makes of the tables and the queue. */
  ghost function CallbackIteration(db: Db, q: Queue<Request>, f: CallbackFaults): (Db, Queue<Request>) {
    var q1 := Next(q, Reserve);
    if !f.dequeueOk || !q.hand.Idle? || q.main == [] then (db, q)
    else
      var req := q1.hand.msg.body;
      var (db', err) := Handlers.Handle(db, req, Outcomes(f.handle, |req.results|));
      if err.None? || !CallbackRequeue(err.value) then (db', Next(q1, Ack(f.ackOk)))
      else if !f.removeOk then (db', Next(q1, Remove(false)))
      else (db', Next(Next(q1, Remove(true)), Republish(f.pushOk)))
  }

  ghost function CallbackIterations(db: Db, q: Queue<Request>, fs: seq<CallbackFaults>): (Db, Queue<Request>)
    decreases |fs|
  {
    if fs == [] then (db, q)
    else
      var (db', q') := CallbackIteration(db, q, fs[0]);
      CallbackIterations(db', q', fs[1..])
  }

  /** After an iteration the consumer holds nothing, and task ids are still unique. */
  lemma CallbackIterationEnds(db: Db, q: Queue<Request>, f: CallbackFaults)
    requires q.hand.Idle? && HandAgrees(q) && TasksUnique(db.rows)
    ensures CallbackIteration(db, q, f).1.hand.Idle? && TasksUnique(CallbackIteration(db, q, f).0.rows)
  {
    hide Handlers.Handle, TasksUnique, CallbackRequeue;
    NextHandAgrees(q, Reserve);
    if q.main != [] {
      var req := Next(q, Reserve).hand.msg.body;
      HandleKeepsTasksUnique(db, req, Outcomes(f.handle, |req.results|));
    }
  }

  class CallbackConsumer {
    const queue: RedisQueue<Request>
    const service: CallbackService

    constructor (queue: RedisQueue<Request>, service: CallbackService)
      ensures this.queue == queue && this.service == service
    {
      this.queue, this.service := queue, service;
    }

    method HandleFailure(m: Msg<Request>, err: Err, f: CallbackFaults)
      requires queue.Valid() && queue.ledger.hand == Holding(m)
      modifies queue
      ensures queue.Valid()
      ensures queue.ledger == if !CallbackRequeue(err) then Next(old(queue.ledger), Ack(f.ackOk))
                              else if !f.removeOk then Next(old(queue.ledger), Remove(false))
                              else Next(Next(old(queue.ledger), Remove(true)), Republish(f.pushOk))
    {
      if !CallbackRequeue(err) {
        var ackErr := queue.Acknowledge(m, f.ackOk);
        return;
      }
      var retryErr := queue.Retry(m, f.removeOk, f.pushOk);
    }

    method RunOnce(f: CallbackFaults)
      requires queue.Valid() && queue.ledger.hand.Idle? && TasksUnique(service.jobs.rows)
      modifies queue, service.jobs, service.tracks
      ensures queue.Valid() && queue.ledger.hand.Idle? && TasksUnique(service.jobs.rows)
      ensures (service.Tables(), queue.ledger) == CallbackIteration(old(service.Tables()), old(queue.ledger), f)
    {
      CallbackIterationEnds(service.Tables(), queue.ledger, f);
      CallbackReserved(queue.ledger);
      hide Next, Handlers.Handle, TasksUnique, CallbackRequeue;
      var m := queue.Dequeue(f.dequeueOk);
      if m.None? {
        return;
      }
      var err := service.Handle(m.value.body, Outcomes(f.handle, |m.value.body.results|));
      if err.Some? {
        HandleFailure(m.value, err.value, f);
        return;
      }
      var ackErr := queue.Acknowledge(m.value, f.ackOk);
    }

    /** A failed `Recover` is logged, and the loop starts anyway; `fs` are the iterations until the process dies. */
    method Run(budget: nat, fs: seq<CallbackFaults>)
      requires queue.Valid() && queue.ledger.hand.Recovering? && TasksUnique(service.jobs.rows)
      modifies queue, service.jobs, service.tracks
      ensures queue.Valid() && queue.ledger.hand.Idle? && TasksUnique(service.jobs.rows)
      ensures (service.Tables(), queue.ledger)
              == CallbackIterations(old(service.Tables()),
                                    QueueProtocol.Run(old(queue.ledger), RecoverActs(old(|queue.processing|), budget)),
                                    fs)
    {
      var err := queue.Recover(budget);
      ghost var recovered := queue.ledger;
      hide CallbackIteration, QueueProtocol.Run, RecoverActs, TasksUnique;
      var i := 0;
      while i < |fs|
        invariant 0 <= i <= |fs|
        invariant queue.Valid() && queue.ledger.hand.Idle? && TasksUnique(service.jobs.rows)
        invariant CallbackIterations(service.Tables(), queue.ledger, fs[i..])
                  == CallbackIterations(old(service.Tables()), recovered, fs)
      {
        assert fs[i..][0] == fs[i] && fs[i..][1..] == fs[i + 1..];
        RunOnce(fs[i]);
        i := i + 1;
      }
    }
  }

  lemma CallbackReserved(q: Queue<Request>)
    requires q.hand.Idle?
    ensures Next(q, Reserve).hand.Holding? <==> q.main != []
  {
  }

  // The API's job service

  datatype CreateFaults = CreateFaults(
    user: Result<UserId>, id: JobId, inserted: bool, readOk: bool, enqueueOk: bool, now: Time, text: string,
        update: WriteOutcome)

  predicate CreateError(params: JobParams, f: CreateFaults, taken: bool, e: Err) {
    if !Accepted(params) then Validate(Normalized(params)) == Some(e)
    else if f.user.Fail? then e == f.user.error
    else if !f.inserted || taken || !f.readOk then e == DB_ERROR
    else e == if f.update == WrittenRead then Plain else DB_ERROR
  }

  class JobService {
    const repo: JobRepo
    const queue: RedisQueue<JobId>

    constructor (repo: JobRepo, queue: RedisQueue<JobId>)
      ensures this.repo == repo && this.queue == queue
    {
      this.repo, this.queue := repo, queue;
    }

    /** The enqueue failed: the row that has just been stored is marked failed. */
    method Compensate(created: Job, enqueueErr: Err, f: CreateFaults) returns (err: Err)
      requires created.id in repo.rows && repo.rows[created.id] == created
      requires created.status == Queued && created.taskId.None?
      modifies repo
      ensures repo.rows == if f.update == NotWritten then old(repo.rows)
                           else
                             old(repo.rows)[created.id :=
                               created.(status := Failed, error := Some(TrimSpace(f.text)), finishedAt := Some(f.now))]
      ensures err == if f.update == WrittenRead then enqueueErr else DB_ERROR
    {
      var job := new JobRecord(created);
      var markErr := job.MarkFailed(f.now, f.text);
      if markErr.None? {
        var updated := repo.UpdateJob(job.Value(), f.update);
        if updated.Fail? {
          return updated.error;
        }
      }
      return enqueueErr;
    }

    /**
      A job is returned only when its row is stored and its message enqueued. A rejected request changes
      nothing. When the enqueue fails the row is left failed, unless that write fails too, and no message
      exists. The error is that of the first call that failed, but a failed compensation hides the enqueue's.
      */
    method CreateJob(params: JobParams, f: CreateFaults) returns (r: Result<Job>)
      requires queue.Valid()
      modifies repo, queue
      ensures queue.Valid()
      ensures r.Ok? <==>
                Accepted(params) && f.user.Ok? && f.inserted && f.id !in old(repo.rows) && f.readOk && f.enqueueOk
      ensures r.Ok? ==> r.value == Job(f.id, f.user.value, Normalized(params), Queued, None, None, 0, None, None)
      ensures r.Fail? ==> CreateError(params, f, f.id in old(repo.rows), r.error)
      ensures queue.ledger == if r.Ok? then Next(old(queue.ledger), Push(f.id)) else old(queue.ledger)
      ensures if !Accepted(params) || f.user.Fail? || !f.inserted || f.id in old(repo.rows) then
                repo.rows == old(repo.rows)
              else
                var created := Job(f.id, f.user.value, Normalized(params), Queued, None, None, 0, None, None);
                repo.rows == old(repo.rows)[f.id :=
                  if f.readOk && !f.enqueueOk && f.update != NotWritten then
                    created.(status := Failed, error := Some(TrimSpace(f.text)), finishedAt := Some(f.now))
                  else created]
    {
      hide Accepted, Validate, Normalized, MarkedFailed, Next;
      var draft := new ParamsDraft(params);
      draft.Normalize();
      ValidateMeetsTable(params);
      var invalid := Validate(draft.Value());
      if invalid.Some? {
        return Fail(invalid.value);
      }
      if f.user.Fail? {
        return Fail(f.user.error);
      }
      var created := repo.CreateJob(NewJob(f.id, f.user.value, draft.Value()), f.inserted, f.readOk);
      if created.Fail? {
        return created;
      }
      var enqueueErr := queue.Enqueue(created.value.id, f.enqueueOk);
      if enqueueErr.Some? {
        var err := Compensate(created.value, enqueueErr.value, f);
        return Fail(err);
      }
      return created;
    }
  }

  // Polling

  /** What the calls of one tick answer: the row, the provider's record if any, and the enqueue. */
  datatype Tick = Tick(row: Result<Job>, details: Option<Details>, enqueueOk: bool)

  predicate KeepsPolling(row: Result<Job>) {
    match row
    case Fail(e) => !Is(e, JobNotFound)
    case Ok(j) => !Terminal(j.status)
  }

  /** The tick brings a conclusive record that gets enqueued. */
  predicate Delivers(t: Tick) {
    t.details.Some? && Conclusive(t.details.value) && t.enqueueOk
  }

  /** The callback that one run of polling enqueues; with the ticks used up it times out. */
  function Polled(task: string, ticks: seq<Tick>): Option<Request> {
    if ticks == [] || !KeepsPolling(ticks[0].row) then None
    else if Delivers(ticks[0]) then FromDetails(task, ticks[0].details.value)
    else Polled(task, ticks[1..])
  }

  /** The job was read as queued or processing, or its read failed otherwise than for want of a row. */
  predicate Unsettled(row: Result<Job>) {
    match row
    case Fail(e) => Sentinel(JobNotFound) !in Leaves(e)
    case Ok(j) => j.status in {Queued, Processing}
  }

  lemma KeepsPollingIff(row: Result<Job>)
    ensures KeepsPolling(row) <==> Unsettled(row)
  {
    if row.Fail? {
      IsFindsLeaf(row.error, JobNotFound);
    }
  }

  /** Polling goes on through the first n ticks, and tick n delivers. */
  predicate DeliversAt(ticks: seq<Tick>, n: nat) {
    && n < |ticks|
    && (forall k :: 0 <= k <= n ==> Unsettled(ticks[k].row))
    && (forall k :: 0 <= k < n ==> !Delivers(ticks[k]))
    && Delivers(ticks[n])
  }

  lemma DeliversLater(ticks: seq<Tick>, n: nat)
    requires ticks != [] && Unsettled(ticks[0].row) && !Delivers(ticks[0])
    ensures DeliversAt(ticks, n) <==> n > 0 && DeliversAt(ticks[1..], n - 1)
  {
    hide Delivers, Unsettled;
    var rest := ticks[1..];
    assert forall k :: 0 < k < |ticks| ==> ticks[k] == rest[k - 1];
    assert forall k :: 0 <= k < |rest| ==> rest[k] == ticks[k + 1];
  }

  lemma {:induction false} PolledAt(task: string, ticks: seq<Tick>)
    ensures Polled(task, ticks).Some? ==> exists n: nat :: DeliversAt(ticks, n)
    ensures forall n: nat :: DeliversAt(ticks, n) ==> Polled(task, ticks) == FromDetails(task, ticks[n].details.value)
  {
    if ticks != [] && Unsettled(ticks[0].row) && !Delivers(ticks[0]) {
      KeepsPollingIff(ticks[0].row);
      hide Delivers, KeepsPolling, Unsettled, FromDetails;
      PolledAt(task, ticks[1..]);
      forall n: nat ensures DeliversAt(ticks, n) <==> n > 0 && DeliversAt(ticks[1..], n - 1) {
        DeliversLater(ticks, n);
      }
      if n: nat :| DeliversAt(ticks[1..], n) {
        assert DeliversAt(ticks, n + 1);
      }
    } else if ticks != [] {
      KeepsPollingIff(ticks[0].row);
      hide KeepsPolling, Unsettled, FromDetails;
      assert Unsettled(ticks[0].row) && Delivers(ticks[0]) ==> DeliversAt(ticks, 0);
    }
  }

  /**
    A run enqueues a callback if and only if some tick brings a conclusive record, and its enqueue succeeds,
    before the job is found finished or missing: the first such record, as a valid terminal callback for the
    polled task.
    */
  lemma PolledFirstRecord(task: string, ticks: seq<Tick>)
    requires !Blank(task)
    ensures Polled(task, ticks).Some? <==> exists n: nat :: DeliversAt(ticks, n)
    ensures forall n: nat :: DeliversAt(ticks, n) ==>
        Polled(task, ticks) == FromDetails(task, ticks[n].details.value)
    ensures Polled(task, ticks).Some? ==>
              var r := Polled(task, ticks).value;
              ValidateRequest(r).None? && r.taskField == task && (r.kind == CompleteType || r.kind == ErrorType)
  {
    PolledAt(task, ticks);
    if n: nat :| DeliversAt(ticks, n) {
      PolledRequestValid(task, ticks[n].details.value);
    }
    hide FromDetails, ValidateRequest, Polled, Unsettled, Conclusive;
  }

  class PollingLoop {
    const queue: RedisQueue<Request>

    constructor (queue: RedisQueue<Request>)
      ensures this.queue == queue
    {
      this.queue := queue;
    }

    method PollUntilComplete(task: string, ticks: seq<Tick>) returns (sent: Option<Request>)
      requires queue.Valid()
      modifies queue
      ensures queue.Valid()
      ensures sent == Polled(task, ticks)
      ensures queue.ledger == if sent.Some? then Next(old(queue.ledger), Push(sent.value)) else old(queue.ledger)
    {
      var i := 0;
      while i < |ticks|
        invariant 0 <= i <= |ticks|
        invariant queue.Valid() && queue.ledger == old(queue.ledger)
        invariant Polled(task, ticks[i..]) == Polled(task, ticks)
      {
        var tick := ticks[i];
        assert ticks[i..][0] == tick && ticks[i..][1..] == ticks[i + 1..];
        i := i + 1;
        if !KeepsPolling(tick.row) {
          return None;
        }
        if tick.details.Some? {
          FromDetailsTable(task, tick.details.value);
          var req := FromDetails(task, tick.details.value);
          if req.Some? {
            var err := queue.Enqueue(req.value, tick.enqueueOk);
            if err.None? {
              return req;
            }
          }
        }
      }
      return None;
    }
  }
}
