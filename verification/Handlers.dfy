/**
  The handlers as single steps over the tables: what `Process`, `Exhausted` and `Handle` leave behind and
  return when nothing interleaves. The faults of their calls are parameters.
  */
module Handlers {
  import opened Text
  import opened Errors
  import opened Jobs
  import opened JobStore
  import opened Callbacks
  import opened Tracks
  import opened Pipeline

  // Process and Exhausted

  datatype ProcessFaults = ProcessFaults(readOk: bool, gen: Generation, now: Time, text: string, write: WriteOutcome,
      publishOk: bool)

  /** `task` is the task id that polling starts for. */
  datatype Processed = Processed(rows: Rows, err: Option<Err>, task: Option<string>)

  function MarkFailed(
    rows: Rows, j: Job, now: Time, text: string, write: WriteOutcome, publishOk: bool): (Rows, Option<Err>)
  {
    match MarkedFailed(j, now, text)
    case Fail(e) => (rows, if Is(e, InvalidStatusTransition) && j.status == Failed then None else Some(Wrap(e)))
    case Ok(next) =>
      match WriteResult(rows, next, write)
      case Fail(e) => (Written(rows, next, write), Some(Wrap(e)))
      case Ok(_) => (Written(rows, next, write), if publishOk then None else Some(Wrap(Plain)))
  }

  function Process(rows: Rows, id: JobId, f: ProcessFaults): Processed {
    match GetJob(rows, id, f.readOk)
    case Fail(e) => Processed(rows, Some(Wrap(e)), None)
    case Ok(j) =>
      if j.status != Queued then Processed(rows, Some(Wrap(Sentinel(InvalidStatusTransition))), None)
      else
        match f.gen
        case GenerationFailed(e) =>
          if AsRetryable(e) == Some(false) then
            var (rows', markErr) := MarkFailed(rows, j, f.now, f.text, f.write, f.publishOk);
            Processed(rows', Some(Wrap(if markErr.Some? then e else Sentinel(NonRetryable))), None)
          else Processed(rows, Some(Wrap(e)), None)
        case Generated(task) =>
          match MarkedProcessing(j, f.now, task)
          case Fail(e) => Processed(rows, Some(Wrap(e)), None)
          case Ok(next) =>
            var rows' := Written(rows, next, f.write);
            match WriteResult(rows, next, f.write)
            case Fail(e) => Processed(rows', Some(Wrap(e)), None)
            case Ok(_) =>
              if !f.publishOk then Processed(rows', Some(Wrap(Plain)), None)
              else Processed(rows', None, Some(task))
  }

  function ExhaustedOn(
    rows: Rows, id: JobId, cause: string, readOk: bool, now: Time, write: WriteOutcome, publishOk: bool)
    : (Rows, Option<Err>)
  {
    match GetJob(rows, id, readOk)
    case Fail(e) => (rows, Some(e))
    case Ok(j) => MarkFailed(rows, j, now, ExhaustedMessage(cause), write, publishOk)
  }

  /** The consumer acknowledges: success, or an error that a retry cannot mend. */
  predicate Acknowledges(err: Option<Err>) {
    err.None? || !JobRequeue(err.value)
  }

  /** A definite refusal by the provider, recorded in the row and published. */
  predicate RefusalRecorded(f: ProcessFaults) {
    f.gen.GenerationFailed? && Refuses(f.gen.err) && f.write == WrittenRead && f.publishOk
  }

  /** No row other than that of job `id` has this task id, up to spaces around it. */
  predicate Fresh(rows: Rows, id: JobId, task: string) {
    forall k :: k in rows && k != id ==> rows[k].taskId != Some(TrimSpace(task))
  }

  /** The task was accepted, its fresh id recorded in the row, and the change published. */
  predicate AcceptanceRecorded(rows: Rows, j: Job, f: ProcessFaults) {
    f.gen.Generated? && f.write == WrittenRead && f.publishOk && (Blank(f.gen.task) || Fresh(rows, j.id, f.gen.task))
  }

  lemma QueuedIsWritable(rows: Rows, j: Job, next: Job)
    requires j.id in rows && next.id == j.id && next.taskId == j.taskId == None
    ensures Writable(rows, next)
  {
  }

  /** The row of a queued job after its processing, when the save lands: failed, or processing under the new task. */
  function ProcessedRow(j: Job, f: ProcessFaults): Job {
    match f.gen
    case GenerationFailed(_) => j.(status := Failed, error := Some(TrimSpace(f.text)), finishedAt := Some(f.now))
    case Generated(task) =>
      j.(status := Processing, taskId := Some(TrimSpace(task)), attempts := 1, startedAt := Some(f.now))
  }

  /** When the processing of a queued job gets as far as its save, and an index does not refuse it. */
  predicate ReachesSave(rows: Rows, id: JobId, f: ProcessFaults) {
    match f.gen
    case GenerationFailed(e) => Refuses(e)
    case Generated(task) => Fresh(rows, id, task)
  }

  lemma RefusalProcessed(rows: Rows, j: Job, f: ProcessFaults)
    requires f.readOk && f.gen.GenerationFailed? && Foreign(f.gen.err)
    requires j.id in rows && rows[j.id] == j && WellFormed(j) && j.status == Queued
    ensures var p := Process(rows, j.id, f);
            && p.rows == (if Refuses(f.gen.err) && f.write != NotWritten then rows[j.id := ProcessedRow(j, f)]
                          else rows)
            && (Acknowledges(p.err) <==> Refuses(f.gen.err) && f.write == WrittenRead && f.publishOk)
            && p.task.None?
  {
    RefusesIff(f.gen.err);
    ForeignRequeued(f.gen.err);
    IsFindsLeaf(Wrap(Sentinel(NonRetryable)), NonRetryable);
    JobRequeueIff(Wrap(Sentinel(NonRetryable)));
    var next := MarkedFailed(j, f.now, f.text).value;
    QueuedIsWritable(rows, j, next);
    assert Patched(j, next) == next == ProcessedRow(j, f);
    hide Is, JobRequeue, Refuses, TrimSpace, Writable;
  }

  lemma AcceptanceProcessed(rows: Rows, j: Job, f: ProcessFaults)
    requires f.readOk && f.gen.Generated? && !Blank(f.gen.task)
    requires j.id in rows && rows[j.id] == j && WellFormed(j) && j.status == Queued
    ensures var p, unused := Process(rows, j.id, f), Fresh(rows, j.id, f.gen.task);
            && p.rows == (if unused && f.write != NotWritten then rows[j.id := ProcessedRow(j, f)] else rows)
            && (Acknowledges(p.err) <==> unused && f.write == WrittenRead && f.publishOk)
            && p.task == if Acknowledges(p.err) then Some(f.gen.task) else None
  {
    ForeignRequeued(DB_ERROR);
    ForeignRequeued(Plain);
    var next := MarkedProcessing(j, f.now, f.gen.task).value;
    assert Writable(rows, next) <==> Fresh(rows, j.id, f.gen.task);
    assert Patched(j, next) == next == ProcessedRow(j, f);
    hide Is, JobRequeue, TrimSpace, Writable, Fresh;
  }

  /** What a provider can answer: a task id that is not blank, or an error without a sentinel of the service. */
  lemma PlausibleIff(gen: Generation)
    ensures Plausible(gen) <==>
            match gen
            case Generated(task) => !Blank(task)
            case GenerationFailed(e) => forall leaf :: leaf in Leaves(e) ==> !leaf.Sentinel?
  {
    if gen.GenerationFailed? {
      ForeignIff(gen.err);
    }
  }

  /**
    What `Process` does, in every case. A failed read leaves everything to a retry; a missing or already
    started job is done with. A queued job whose task is new, or which the provider refuses for good, gets its
    row saved, and is done with once save and publish succeed; any other failure leaves the row queued.
    */
  lemma ProcessOutcome(rows: Rows, id: JobId, f: ProcessFaults)
    requires match f.gen
             case Generated(task) => !Blank(task)
             case GenerationFailed(e) => forall leaf :: leaf in Leaves(e) ==> !leaf.Sentinel?
    requires id in rows ==> rows[id].id == id && WellFormed(rows[id])
    ensures var p := Process(rows, id, f);
            if f.readOk && id in rows && rows[id].status == Queued then
              && p.rows == (if ReachesSave(rows, id, f) && f.write != NotWritten then
                              rows[id := ProcessedRow(rows[id], f)]
                            else rows)
              && (Acknowledges(p.err) <==> ReachesSave(rows, id, f) && f.write == WrittenRead && f.publishOk)
              && p.task == if f.gen.Generated? && Acknowledges(p.err) then Some(f.gen.task) else None
            else p.rows == rows && p.task.None? && (Acknowledges(p.err) <==> f.readOk)
  {
    ForeignRequeued(DB_ERROR);
    if f.readOk && id in rows && rows[id].status == Queued {
      if f.gen.Generated? {
        AcceptanceProcessed(rows, rows[id], f);
      } else {
        ForeignIff(f.gen.err);
        RefusalProcessed(rows, rows[id], f);
      }
      hide Process, Acknowledges, Refuses, Fresh, ProcessedRow, WellFormed;
    }
  }

  /** The verdict on a job message, exactly. */
  lemma ProcessVerdict(rows: Rows, id: JobId, f: ProcessFaults)
    requires Plausible(f.gen)
    requires id in rows && rows[id].id == id && WellFormed(rows[id])
    ensures Acknowledges(Process(rows, id, f).err) <==>
            f.readOk && (rows[id].status != Queued
                         || RefusalRecorded(f)
                         || AcceptanceRecorded(rows, rows[id], f))
    ensures Acknowledges(Process(rows, id, f).err) ==>
            id in Process(rows, id, f).rows && Process(rows, id, f).rows[id].status != Queued
  {
    PlausibleIff(f.gen);
    ProcessOutcome(rows, id, f);
    hide Process, Acknowledges, Refuses, Fresh, Plausible;
  }

  /** Polling starts exactly when an acceptance was recorded and published, and then for that task. */
  lemma PollingStartsIff(rows: Rows, id: JobId, f: ProcessFaults)
    requires id in rows && rows[id].id == id && WellFormed(rows[id])
    ensures Process(rows, id, f).task
            == if f.readOk && rows[id].status == Queued && AcceptanceRecorded(rows, rows[id], f) then Some(f.gen.task)
               else None
  {
  }

  /**
    What `Exhausted` does: it fails every row that is not ready. A row that is failed already stays as it is.
    */
  lemma ExhaustedOutcome(
    rows: Rows, id: JobId, cause: string, readOk: bool, now: Time, write: WriteOutcome, publishOk: bool)
    requires TasksUnique(rows) && (id in rows ==> rows[id].id == id)
    ensures var (rows', err) := ExhaustedOn(rows, id, cause, readOk, now, write, publishOk);
            && rows' == (if readOk && id in rows && !Terminal(rows[id].status) && write != NotWritten then
                           rows[id := rows[id].(status := Failed,
                                                error := Some(TrimSpace("worker retries exhausted: " + cause)),
                                                finishedAt := Some(now))]
                         else rows)
            && (err.None? <==> readOk && id in rows && rows[id].status != Ready && write == WrittenRead && publishOk)
  {
    if id in rows && MarkedFailed(rows[id], now, ExhaustedMessage(cause)).Ok? {
      var next := MarkedFailed(rows[id], now, ExhaustedMessage(cause)).value;
      assert Writable(rows, next) && Patched(rows[id], next) == next;
      assert Written(rows, rows[id], write) == rows;
    }
    hide TrimSpace, Is;
  }

  /**
    When the task is recorded but the call or its publish fails, no polling starts; the next delivery that
    reads the row acknowledges the message and leaves the row processing.
    */
  lemma UnreportedStartAcknowledged(rows: Rows, id: JobId, f: ProcessFaults, again: ProcessFaults)
    requires id in rows && rows[id].id == id && WellFormed(rows[id]) && rows[id].status == Queued
    requires f.readOk && f.gen.Generated? && f.write != NotWritten && !(f.write == WrittenRead && f.publishOk)
    requires AcceptanceRecorded(rows, rows[id], f.(write := WrittenRead, publishOk := true))
    ensures var p := Process(rows, id, f);
            var q := Process(p.rows, id, again);
            && p.task.None? && !Acknowledges(p.err)
            && p.rows[id].status == Processing && p.rows[id].taskId == TrimOption(Some(f.gen.task))
            && q.task.None? && q.rows == p.rows
            && (Acknowledges(q.err) <==> again.readOk)
  {
  }

  // Handle

  datatype Db = Db(rows: Rows, tracks: TrackTable)

  datatype ResultFaults = ResultFaults(uploads: Uploads, store: WriteOutcome)

  datatype HandleFaults = HandleFaults(lookupOk: bool, results: seq<ResultFaults>, now: Time, write: WriteOutcome,
      publishOk: bool)

  /** The loop over results: the table after the tracks stored so far, and the error that stopped it. */
  function StoreResults(
    tracks: TrackTable, j: Job, rs: seq<SunoResult>, fs: seq<ResultFaults>): (TrackTable, Option<Err>)
    requires |rs| == |fs|
    decreases |rs|
  {
    if rs == [] then (tracks, None)
    else
      match BuildTrack(j, rs[0], fs[0].uploads)
      case Fail(e) => (tracks, Some(e))
      case Ok(t) =>
        var tracks' := Stored(tracks, t, fs[0].store);
        if fs[0].store == WrittenRead && !Rejected(tracks, t) then StoreResults(tracks', j, rs[1..], fs[1..])
        else (tracks', Some(Wrap(CREATE_TRACK_ERROR)))
  }

  function HandleComplete(db: Db, j: Job, req: Request, f: HandleFaults): (Db, Option<Err>)
    requires |f.results| == |req.results|
  {
    if j.status == Ready then (db, None)
    else
      var (tracks, err) := StoreResults(db.tracks, j, req.results, f.results);
      if err.Some? then (db.(tracks := tracks), err)
      else
        match MarkedReady(j, f.now)
        case Fail(e) => (db.(tracks := tracks), Some(e))
        case Ok(next) =>
          match WriteResult(db.rows, next, f.write)
          case Fail(e) => (Db(Written(db.rows, next, f.write), tracks), Some(Wrap(e)))
          case Ok(_) => (Db(Written(db.rows, next, f.write), tracks), if f.publishOk then None else Some(Wrap(Plain)))
  }

  function HandleError(db: Db, j: Job, req: Request, f: HandleFaults): (Db, Option<Err>) {
    if j.status == Failed then (db, None)
    else
      match MarkedFailed(j, f.now, req.ErrorMessage())
      case Fail(e) => (db, Some(e))
      case Ok(next) =>
        match WriteResult(db.rows, next, f.write)
        case Fail(e) => (db.(rows := Written(db.rows, next, f.write)), Some(Wrap(e)))
        case Ok(_) => (db.(rows := Written(db.rows, next, f.write)), None)
  }

  ghost function Handle(db: Db, req: Request, f: HandleFaults): (Db, Option<Err>)
    requires |f.results| == |req.results|
  {
    match GetJobByTask(db.rows, req.TaskId(), f.lookupOk)
    case Fail(e) => (db, Some(e))
    case Ok(j) =>
      match req.kind
      case TextType | FirstType => (db, None)
      case CompleteType => HandleComplete(db, j, req, f)
      case ErrorType => HandleError(db, j, req, f)
      case OtherType(_) => (db, Some(InvalidCallback(CallbackTypeInvalid)))
  }

  /** A callback for a task id that no row has changes nothing and is retried. */
  lemma UnknownTaskChangesNothing(db: Db, req: Request, f: HandleFaults)
    requires |f.results| == |req.results|
    requires forall id :: id in db.rows ==> db.rows[id].taskId != Some(TrimSpace(req.taskField))
    ensures Handle(db, req, f).0 == db
    ensures Handle(db, req, f).1.Some? && CallbackRequeue(Handle(db, req, f).1.value)
  {
  }

  /** The callback consumer acknowledges: success, or an error that a retry cannot mend. */
  predicate CallbackAcknowledges(err: Option<Err>) {
    err.None? || !CallbackRequeue(err.value)
  }

  lemma {:induction false} StoreErrorsRetried(tracks: TrackTable, j: Job, rs: seq<SunoResult>, fs: seq<ResultFaults>)
    requires |rs| == |fs|
    ensures var err := StoreResults(tracks, j, rs, fs).1; err.Some? ==> CallbackRequeue(err.value)
    decreases |rs|
  {
    hide BuildTrack, Rejected, Stored;
    if rs != [] {
      ForeignRequeued(CREATE_TRACK_ERROR);
      match BuildTrack(j, rs[0], fs[0].uploads)
      case Fail(_) => BuildErrorRetried(j, rs[0], fs[0].uploads);
      case Ok(t) => StoreErrorsRetried(Stored(tracks, t, fs[0].store), j, rs[1..], fs[1..]);
    }
  }

  /** When a complete callback for job j is done with: no call failed, or the job is finished already. */
  predicate CompleteSettles(db: Db, j: Job, req: Request, f: HandleFaults)
    requires |f.results| == |req.results|
  {
    || j.status == Ready
    || (StoreResults(db.tracks, j, req.results, f.results).1.None?
        && (j.status == Failed || (f.write == WrittenRead && f.publishOk)))
  }

  lemma CompleteVerdict(db: Db, id: JobId, task: string, req: Request, f: HandleFaults)
    requires OwnsTask(db.rows, id, task) && db.rows[id].status != Queued && |f.results| == |req.results|
    ensures var j := db.rows[id];
            var (db', err) := HandleComplete(db, j, req, f);
            && (CallbackAcknowledges(err) <==> CompleteSettles(db, j, req, f))
            && (CallbackAcknowledges(err) ==> id in db'.rows && Terminal(db'.rows[id].status))
  {
    var j := db.rows[id];
    StoreErrorsRetried(db.tracks, j, req.results, f.results);
    MarksFollowDiagram(j, f.now, "", f.now, "");
    ForeignRequeued(DB_ERROR);
    ForeignRequeued(Plain);
    hide StoreResults, CallbackRequeue, JobRequeue;
  }

  lemma ErrorVerdict(db: Db, id: JobId, task: string, req: Request, f: HandleFaults)
    requires OwnsTask(db.rows, id, task) && db.rows[id].status != Queued
    ensures var j := db.rows[id];
            var (db', err) := HandleError(db, j, req, f);
            && (CallbackAcknowledges(err) <==> j.status != Processing || f.write == WrittenRead)
            && (CallbackAcknowledges(err) ==> id in db'.rows && Terminal(db'.rows[id].status))
  {
    var j := db.rows[id];
    MarksFollowDiagram(j, f.now, req.ErrorMessage(), f.now, "");
    ForeignRequeued(DB_ERROR);
    hide CallbackRequeue, JobRequeue;
  }

  /**
    The verdict on a callback, exactly: once its job is found a progress report is done with, a complete one
    as `CompleteSettles` says, an error one unless the save of a processing row fails. A terminal one is
    acknowledged only with a finished row.
    */
  lemma HandleVerdict(db: Db, id: JobId, req: Request, f: HandleFaults)
    requires OwnsTask(db.rows, id, TrimSpace(req.taskField)) && db.rows[id].status != Queued
    requires |f.results| == |req.results| && ValidateRequest(req).None?
    ensures var j := db.rows[id];
            var (db', err) := Handle(db, req, f);
            && (CallbackAcknowledges(err) <==>
                  f.lookupOk && match req.kind
                                case CompleteType => CompleteSettles(db, j, req, f)
                                case ErrorType => j.status != Processing || f.write == WrittenRead
                                case _ => true)
            && (CallbackAcknowledges(err) && (req.kind == CompleteType || req.kind == ErrorType) ==>
                  id in db'.rows && Terminal(db'.rows[id].status))
  {
    RequestAcceptedIff(req);
    ByTaskIs(db.rows, id, req.TaskId());
    ForeignRequeued(DB_ERROR);
    CompleteVerdict(db, id, req.TaskId(), req, f);
    ErrorVerdict(db, id, req.TaskId(), req, f);
    hide CallbackRequeue, HandleComplete, HandleError, CompleteSettles, ValidateRequest, TrimSpace;
  }

  lemma SavesOwnRow(rows: Rows, id: JobId, task: string, next: Job, how: WriteOutcome)
    requires OwnsTask(rows, id, task) && SameIdentityJob(rows[id], next) && next.taskId == Some(task)
    ensures Written(rows, next, how) == if how == NotWritten then rows else rows[id := next]
  {
    assert Patched(rows[id], next) == next;
  }

  /**
    What a callback does to the tables, in every case: a complete one stores its tracks unless the job is
    ready, and makes a processing row ready once they are all stored; an error one fails a processing row
    with its message. Nothing else changes.
    */
  lemma HandleOutcome(db: Db, id: JobId, req: Request, f: HandleFaults)
    requires OwnsTask(db.rows, id, TrimSpace(req.taskField)) && |f.results| == |req.results|
    ensures var j := db.rows[id];
            var (db', err) := Handle(db, req, f);
            && db'.tracks == (if f.lookupOk && req.kind == CompleteType && j.status != Ready then
                                StoreResults(db.tracks, j, req.results, f.results).0
                              else db.tracks)
            && db'.rows == (if !f.lookupOk || f.write == NotWritten then db.rows
                            else if req.kind == CompleteType && j.status == Processing
                                 && StoreResults(db.tracks, j, req.results, f.results).1.None? then
                              db.rows[id := j.(status := Ready, error := None, finishedAt := Some(f.now))]
                            else if req.kind == ErrorType && (j.status == Processing || j.status == Queued) then
                              db.rows[id := j.(status := Failed, error := Some(TrimSpace(req.message)),
                                               finishedAt := Some(f.now))]
                            else db.rows)
  {
    var j, task := db.rows[id], TrimSpace(req.taskField);
    ByTaskIs(db.rows, id, task);
    if j.status == Processing {
      SavesOwnRow(db.rows, id, task, MarkedReady(j, f.now).value, f.write);
    }
    if !Terminal(j.status) {
      SavesOwnRow(db.rows, id, task, MarkedFailed(j, f.now, req.message).value, f.write);
      TrimSpaceFixed(req.message);
    }
    hide StoreResults, TrimSpace, Written, OwnsTask;
  }

  /** Whatever a callback does, no two rows share a task id afterwards. */
  lemma HandleKeepsTasksUnique(db: Db, req: Request, f: HandleFaults)
    requires TasksUnique(db.rows) && |f.results| == |req.results|
    ensures TasksUnique(Handle(db, req, f).0.rows)
  {
    hide StoreResults, TasksUnique, Written, WriteResult;
    var r := GetJobByTask(db.rows, req.TaskId(), f.lookupOk);
    if r.Ok? {
      if MarkedReady(r.value, f.now).Ok? {
        WriteKeepsTasksUnique(db.rows, MarkedReady(r.value, f.now).value, f.write);
      }
      if MarkedFailed(r.value, f.now, req.ErrorMessage()).Ok? {
        WriteKeepsTasksUnique(db.rows, MarkedFailed(r.value, f.now, req.ErrorMessage()).value, f.write);
      }
    }
    hide GetJobByTask;
  }

  // First terminal callback wins

  ghost predicate OwnsTask(rows: Rows, id: JobId, task: string) {
    TasksUnique(rows) && id in rows && rows[id].id == id && rows[id].taskId == Some(task)
  }

  datatype Delivery = Delivery(req: Request, faults: HandleFaults)

  predicate Complete(d: Delivery) {
    |d.faults.results| == |d.req.results|
  }

  predicate AllComplete(ds: seq<Delivery>) {
    forall i :: 0 <= i < |ds| ==> Complete(ds[i])
  }

  predicate AllAddressed(ds: seq<Delivery>, task: string) {
    forall i :: 0 <= i < |ds| ==> TrimSpace(ds[i].req.taskField) == task
  }

  ghost function HandleAll(db: Db, ds: seq<Delivery>): Db
    requires AllComplete(ds)
    decreases |ds|
  {
    if ds == [] then db else HandleAll(Handle(db, ds[0].req, ds[0].faults).0, ds[1..])
  }

  /** The final row that a landing callback makes of a processing row. */
  predicate FinishedBy(before: Job, after: Job, d: Delivery) {
    var at := Some(d.faults.now);
    match d.req.kind
    case CompleteType => after == before.(status := Ready, error := None, finishedAt := at)
    case ErrorType => after == before.(status := Failed, error := Some(TrimSpace(d.req.message)), finishedAt := at)
    case _ => false
  }

  predicate SameIdentityJob(a: Job, b: Job) {
    a.id == b.id && a.user == b.user && a.params == b.params
  }

  /** One callback either leaves the row alone or finishes it, and only a processing row can be finished. */
  lemma HandleOnce(db: Db, id: JobId, task: string, d: Delivery)
    requires OwnsTask(db.rows, id, task) && Complete(d) && TrimSpace(d.req.taskField) == task
    requires db.rows[id].status != Queued
    ensures var after := Handle(db, d.req, d.faults).0.rows;
            && OwnsTask(after, id, task)
            && (after[id] == db.rows[id] || (db.rows[id].status == Processing && FinishedBy(db.rows[id], after[id], d)))
  {
    HandleOutcome(db, id, d.req, d.faults);
    hide Handle, StoreResults, TrimSpace;
  }

  lemma {:induction false} FinishedStays(db: Db, id: JobId, task: string, ds: seq<Delivery>)
    requires OwnsTask(db.rows, id, task) && Terminal(db.rows[id].status)
    requires AllComplete(ds) && AllAddressed(ds, task)
    ensures id in HandleAll(db, ds).rows && HandleAll(db, ds).rows[id] == db.rows[id]
    decreases |ds|
  {
    if ds != [] {
      HandleOnce(db, id, task, ds[0]);
      FinishedStays(Handle(db, ds[0].req, ds[0].faults).0, id, task, ds[1..]);
    }
  }

  /**
    Whatever sequence of callbacks arrives for a processing job, duplicated, contradictory or failing
    partway: the row stays as it is up to some callback n, is finished by it, and never changes again.
    With n == |ds| none of them landed.
    */
  lemma {:induction false} FirstTerminalWins(db: Db, id: JobId, task: string, ds: seq<Delivery>) returns (n: nat)
    requires OwnsTask(db.rows, id, task) && db.rows[id].status == Processing
    requires AllComplete(ds) && AllAddressed(ds, task)
    ensures n <= |ds|
    ensures id in HandleAll(db, ds).rows
    ensures n == |ds| ==> HandleAll(db, ds).rows[id] == db.rows[id]
    ensures n < |ds| ==> FinishedBy(db.rows[id], HandleAll(db, ds).rows[id], ds[n])
    ensures forall k :: 0 <= k <= n ==> RowAfter(db, ds, k, id) == Some(db.rows[id])
    ensures forall k :: n < k <= |ds| ==> RowAfter(db, ds, k, id) == Some(HandleAll(db, ds).rows[id])
    decreases |ds|
  {
    if ds == [] {
      n := 0;
    } else {
      HandleOnce(db, id, task, ds[0]);
      var db' := Handle(db, ds[0].req, ds[0].faults).0;
      var rest := ds[1..];
      forall k | 0 < k <= |ds| ensures RowAfter(db, ds, k, id) == RowAfter(db', rest, k - 1, id) {
        assert ds[..k][0] == ds[0] && ds[..k][1..] == rest[..k - 1];
      }
      if db'.rows[id] == db.rows[id] {
        n := FirstTerminalWins(db', id, task, rest);
        n := n + 1;
      } else {
        n := 0;
        FinishedStays(db', id, task, rest);
        forall k | 0 <= k <= |rest| ensures RowAfter(db', rest, k, id) == Some(db'.rows[id]) {
          FinishedStays(db', id, task, rest[..k]);
        }
      }
    }
  }

  /** The row after the first k callbacks. */
  ghost function RowAfter(db: Db, ds: seq<Delivery>, k: nat, id: JobId): Option<Job>
    requires k <= |ds|
    requires AllComplete(ds)
  {
    var rows := HandleAll(db, ds[..k]).rows;
    if id in rows then Some(rows[id]) else None
  }

  // Handlers as single steps

  datatype Event =
    | OnJob(id: JobId, process: ProcessFaults)
    | OnExhausted(id: JobId, cause: string, readOk: bool, now: Time, write: WriteOutcome, publishOk: bool)
    | OnCallback(delivery: Delivery)

  predicate ProperEvents(es: seq<Event>) {
    forall i :: 0 <= i < |es| && es[i].OnCallback? ==> Complete(es[i].delivery)
  }

  ghost function AtomicStep(db: Db, e: Event): Db
    requires e.OnCallback? ==> Complete(e.delivery)
  {
    match e
    case OnJob(id, f) => db.(rows := Process(db.rows, id, f).rows)
    case OnExhausted(id, cause, readOk, now, write, publishOk) =>
      db.(rows := ExhaustedOn(db.rows, id, cause, readOk, now, write, publishOk).0)
    case OnCallback(d) => Handle(db, d.req, d.faults).0
  }

  ghost function AtomicRun(db: Db, es: seq<Event>): Db
    requires ProperEvents(es)
    decreases |es|
  {
    if es == [] then db else AtomicRun(AtomicStep(db, es[0]), es[1..])
  }

  ghost predicate Keyed(rows: Rows) {
    TasksUnique(rows) && forall id :: id in rows ==> rows[id].id == id
  }

  lemma SaveKeepsKeyed(rows: Rows, base: Job, next: Job, how: WriteOutcome)
    requires Keyed(rows) && base.id in rows && rows[base.id] == base && SameIdentityJob(base, next)
    requires Terminal(base.status) ==> next == base
    ensures Keyed(Written(rows, next, how))
    ensures forall id :: id in rows && Terminal(rows[id].status) ==>
        id in Written(rows, next, how) && Written(rows, next, how)[id] == rows[id]
  {
  }

  lemma MarkFailedKeeps(rows: Rows, j: Job, now: Time, text: string, write: WriteOutcome, publishOk: bool)
    requires Keyed(rows) && j.id in rows && rows[j.id] == j
    ensures var rows' := MarkFailed(rows, j, now, text, write, publishOk).0;
            Keyed(rows') && forall id :: id in rows && Terminal(rows[id].status) ==>
                id in rows' && rows'[id] == rows[id]
  {
    if MarkedFailed(j, now, text).Ok? {
      SaveKeepsKeyed(rows, j, MarkedFailed(j, now, text).value, write);
    }
  }

  lemma ProcessKeeps(rows: Rows, id: JobId, f: ProcessFaults)
    requires Keyed(rows)
    ensures var rows' := Process(rows, id, f).rows;
            Keyed(rows') && forall k :: k in rows && Terminal(rows[k].status) ==> k in rows' && rows'[k] == rows[k]
  {
    if f.readOk && id in rows && rows[id].status == Queued {
      if f.gen.GenerationFailed? {
        MarkFailedKeeps(rows, rows[id], f.now, f.text, f.write, f.publishOk);
      } else {
        SaveKeepsKeyed(rows, rows[id], MarkedProcessing(rows[id], f.now, f.gen.task).value, f.write);
      }
    }
  }

  lemma HandleKeeps(db: Db, d: Delivery)
    requires Keyed(db.rows) && Complete(d)
    ensures var rows' := Handle(db, d.req, d.faults).0.rows;
            Keyed(rows') && forall k :: k in db.rows && Terminal(db.rows[k].status) ==>
                k in rows' && rows'[k] == db.rows[k]
  {
    var r := GetJobByTask(db.rows, d.req.TaskId(), d.faults.lookupOk);
    if r.Ok? {
      var j := r.value;
      if d.req.kind == CompleteType && MarkedReady(j, d.faults.now).Ok? {
        SaveKeepsKeyed(db.rows, j, MarkedReady(j, d.faults.now).value, d.faults.write);
      } else if d.req.kind == ErrorType && MarkedFailed(j, d.faults.now, d.req.ErrorMessage()).Ok? {
        SaveKeepsKeyed(db.rows, j, MarkedFailed(j, d.faults.now, d.req.ErrorMessage()).value, d.faults.write);
      }
    }
  }

  /**
    When every handler runs as one step, a finished row is final in every column, over any sequence of
    handlers for any jobs with any failures.
    */
  lemma {:induction false} AtomicFinality(db: Db, es: seq<Event>, id: JobId)
    requires ProperEvents(es) && Keyed(db.rows) && id in db.rows && Terminal(db.rows[id].status)
    ensures id in AtomicRun(db, es).rows && AtomicRun(db, es).rows[id] == db.rows[id]
    decreases |es|
  {
    if es != [] {
      match es[0] {
        case OnJob(k, f) => ProcessKeeps(db.rows, k, f);
        case OnExhausted(k, cause, readOk, now, write, publishOk) =>
          if readOk && k in db.rows {
            MarkFailedKeeps(db.rows, db.rows[k], now, ExhaustedMessage(cause), write, publishOk);
          }
        case OnCallback(d) => HandleKeeps(db, d);
      }
      AtomicFinality(AtomicStep(db, es[0]), es[1..], id);
    }
  }
}
