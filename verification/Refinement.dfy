/** The one-step handlers are what the calls of the pipeline do when nothing interleaves. */
module Refinement {
  import opened Text
  import opened Errors
  import opened Jobs
  import opened JobStore
  import opened Callbacks
  import opened Tracks
  import opened Pipeline
  import opened Handlers

  lemma ExecCons(s: State, a: Action, rest: seq<Action>)
    ensures Exec(s, [a] + rest) == Exec(Step(s, a), rest)
  {
  }

  lemma ExecNil(s: State)
    ensures Exec(s, []) == s
  {
  }

  lemma {:induction false} ExecAppend(s: State, a: seq<Action>, b: seq<Action>)
    ensures Exec(s, a + b) == Exec(Exec(s, a), b)
    decreases |a|
  {
    hide Step;
    if a == [] {
      assert a + b == b;
    } else {
      assert (a + b)[1..] == a[1..] + b;
      ExecAppend(Step(s, a[0]), a[1..], b);
    }
  }

  lemma StepIs(s: State, a: Action)
    ensures By(a) == Server ==> Step(s, a) == ApiStep(s, a)
    ensures By(a) == Processor ==> Step(s, a) == ProcessorStep(s, a)
    ensures By(a) == Exhausted ==> Step(s, a) == ExhaustedStep(s, a)
    ensures By(a) == JobQueue ==> Step(s, a) == JobQueueStep(s, a)
    ensures By(a) == Handler ==> Step(s, a) == HandlerStep(s, a)
    ensures By(a) == CallbackQueue ==> Step(s, a) == CallbackQueueStep(s, a)
    ensures By(a) == Polling ==> Step(s, a) == PollStep(s, a)
  {
  }

  // Process

  /** The calls of `Process`; those off the path taken change nothing. */
  function ProcessActs(f: ProcessFaults): seq<Action> {
    [JobGet(f.readOk)] + ([JobGenerate(f.gen, f.now, f.text)] + SaveActs(f))
  }

  function SaveActs(f: ProcessFaults): seq<Action> {
    [JobSave(f.write)] + ([JobPublish(f.publishOk, true)]
        + ([JobSaveFailed(f.write)] + ([JobPublishFailed(f.publishOk)] + [])))
  }

  function AfterSaves(s: State, f: ProcessFaults): State {
    DoJobPublishFailed(DoJobSaveFailed(DoJobPublish(DoJobSave(s, f.write), f.publishOk, true), f.write), f.publishOk)
  }

  lemma StartSteps(s: State, f: ProcessFaults)
    ensures Step(s, JobGet(f.readOk)) == DoJobGet(s, f.readOk)
    ensures Step(s, JobGenerate(f.gen, f.now, f.text)) == DoJobGenerate(s, f.gen, f.now, f.text)
  {
  }

  lemma SaveSteps(s: State, f: ProcessFaults)
    ensures Step(s, JobSave(f.write)) == DoJobSave(s, f.write)
    ensures Step(s, JobPublish(f.publishOk, true)) == DoJobPublish(s, f.publishOk, true)
  {
  }

  lemma SaveFailedSteps(s: State, f: ProcessFaults)
    ensures Step(s, JobSaveFailed(f.write)) == DoJobSaveFailed(s, f.write)
    ensures Step(s, JobPublishFailed(f.publishOk)) == DoJobPublishFailed(s, f.publishOk)
  {
  }

  lemma SavesRun(s: State, f: ProcessFaults)
    ensures Exec(s, SaveActs(f)) == AfterSaves(s, f)
  {
    hide Exec, Step, DoJobSave, DoJobPublish, DoJobSaveFailed, DoJobPublishFailed;
    var s1 := DoJobSave(s, f.write);
    var s2 := DoJobPublish(s1, f.publishOk, true);
    var s3 := DoJobSaveFailed(s2, f.write);
    var s4 := DoJobPublishFailed(s3, f.publishOk);
    SaveSteps(s, f);
    SaveSteps(s1, f);
    SaveFailedSteps(s2, f);
    SaveFailedSteps(s3, f);
    ExecCons(s, JobSave(f.write),
        [JobPublish(f.publishOk, true)] + ([JobSaveFailed(f.write)] + ([JobPublishFailed(f.publishOk)] + [])));
    ExecCons(s1, JobPublish(f.publishOk, true), [JobSaveFailed(f.write)] + ([JobPublishFailed(f.publishOk)] + []));
    ExecCons(s2, JobSaveFailed(f.write), [JobPublishFailed(f.publishOk)] + []);
    ExecCons(s3, JobPublishFailed(f.publishOk), []);
    ExecNil(s4);
  }

  lemma ProcessRuns(s: State, f: ProcessFaults)
    ensures Exec(s, ProcessActs(f)) == AfterSaves(DoJobGenerate(DoJobGet(s, f.readOk), f.gen, f.now, f.text), f)
  {
    hide Exec, Step, DoJobGet, DoJobGenerate, AfterSaves, SaveActs;
    var s1 := DoJobGet(s, f.readOk);
    var s2 := DoJobGenerate(s1, f.gen, f.now, f.text);
    StartSteps(s, f);
    StartSteps(s1, f);
    ExecCons(s, JobGet(f.readOk), [JobGenerate(f.gen, f.now, f.text)] + SaveActs(f));
    ExecCons(s1, JobGenerate(f.gen, f.now, f.text), SaveActs(f));
    SavesRun(s2, f);
  }

  /** Where the job consumer stands after its handler returned. */
  function JobVerdict(err: Option<Err>): JobPc {
    if err.None? then JAck else AfterJobError(err.value)
  }

  predicate Decided(jc: JobPc) {
    jc == JAck || jc == JRetry
  }

  lemma DecidedRests(s: State, f: ProcessFaults)
    requires Decided(s.jc)
    ensures AfterSaves(s, f) == s && DoJobGenerate(s, f.gen, f.now, f.text) == s
  {
  }

  lemma MarkSaves(s: State, f: ProcessFaults)
    requires s.jc.JMark? && !Blank(s.jc.task)
    ensures var r := WriteResult(s.rows, s.jc.next, f.write);
            AfterSaves(s, f) == s.(rows := Written(s.rows, s.jc.next, f.write),
                                   jc := if r.Fail? then AfterJobError(Wrap(r.error))
                                         else if f.publishOk then JAck else AfterJobError(Wrap(Plain)),
                                   pollers := if r.Ok? && f.publishOk
                                              then s.pollers + [Poller(r.value.id, s.jc.task, PCheck, 0)]
                                              else s.pollers)
  {
  }

  lemma MarkFailedSaves(s: State, f: ProcessFaults)
    requires s.jc.JMarkFailed?
    ensures var r := WriteResult(s.rows, s.jc.next, f.write);
            AfterSaves(s, f) == s.(rows := Written(s.rows, s.jc.next, f.write),
                                   jc := AfterJobError(
                                     Wrap(if r.Ok? && f.publishOk then Sentinel(NonRetryable) else s.jc.err)))
  {
  }

  /** The verdict before anything is saved, or None when there is something to save. */
  function EarlyError(rows: Rows, id: JobId, f: ProcessFaults): Option<Err> {
    match GetJob(rows, id, f.readOk)
    case Fail(e) => Some(Wrap(e))
    case Ok(j) =>
      if j.status != Queued then Some(Wrap(Sentinel(InvalidStatusTransition)))
      else
        match f.gen
        case Generated(_) => None
        case GenerationFailed(e) => if AsRetryable(e) == Some(false) then None else Some(Wrap(e))
  }

  lemma StartRefines(s: State, id: JobId, f: ProcessFaults)
    requires s.jc == JGot(id) && Plausible(f.gen)
    ensures var e := EarlyError(s.rows, id, f);
            var s' := DoJobGenerate(DoJobGet(s, f.readOk), f.gen, f.now, f.text);
            s' == s.(jc := s'.jc) &&
            if e.Some? then s'.jc == AfterJobError(e.value)
            else
              var j := s.rows[id];
              match f.gen
              case Generated(task) => s'.jc == JMark(j, MarkedProcessing(j, f.now, task).value, task)
              case GenerationFailed(err) => s'.jc == JMarkFailed(j, MarkedFailed(j, f.now, f.text).value, err)
  {
  }

  lemma EarlyProcess(rows: Rows, id: JobId, f: ProcessFaults)
    requires EarlyError(rows, id, f).Some?
    ensures Process(rows, id, f) == Processed(rows, EarlyError(rows, id, f), None)
  {
  }

  lemma LateProcess(rows: Rows, id: JobId, f: ProcessFaults)
    requires EarlyError(rows, id, f).None?
    ensures var p := Process(rows, id, f);
            match f.gen
            case Generated(task) =>
              var next := MarkedProcessing(rows[id], f.now, task).value;
              var r := WriteResult(rows, next, f.write);
              p == Processed(Written(rows, next, f.write),
                             if r.Fail? then Some(Wrap(r.error)) else if f.publishOk then None else Some(Wrap(Plain)),
                             if r.Ok? && f.publishOk then Some(task) else None)
            case GenerationFailed(e) =>
              var next := MarkedFailed(rows[id], f.now, f.text).value;
              var r := WriteResult(rows, next, f.write);
              p == Processed(Written(rows, next, f.write),
                             Some(Wrap(if r.Ok? && f.publishOk then Sentinel(NonRetryable) else e)), None)
  {
  }

  lemma SavedUnderId(rows: Rows, id: JobId, f: ProcessFaults)
    requires EarlyError(rows, id, f).None? && rows[id].id == id && f.gen.Generated?
    ensures var r := WriteResult(rows, MarkedProcessing(rows[id], f.now, f.gen.task).value, f.write);
            r.Ok? ==> r.value.id == id
  {
  }

  /** From the moment the changed copy is made. */
  lemma LateProcessRefines(s: State, id: JobId, f: ProcessFaults)
    requires EarlyError(s.rows, id, f).None? && s.rows[id].id == id && Plausible(f.gen)
    requires match f.gen
             case Generated(task) => s.jc == JMark(s.rows[id], MarkedProcessing(s.rows[id], f.now, task).value, task)
             case GenerationFailed(e) =>
               s.jc == JMarkFailed(s.rows[id], MarkedFailed(s.rows[id], f.now, f.text).value, e)
    ensures var p := Process(s.rows, id, f);
            AfterSaves(s, f)
            == s.(rows := p.rows, jc := JobVerdict(p.err),
                  pollers := s.pollers + if p.task.Some? then [Poller(id, p.task.value, PCheck, 0)] else [])
  {
    LateProcess(s.rows, id, f);
    if f.gen.Generated? {
      MarkSaves(s, f);
      SavedUnderId(s.rows, id, f);
    } else {
      MarkFailedSaves(s, f);
    }
    hide AfterSaves, JobRequeue, Written, WriteResult, Process, EarlyError, MarkedProcessing, MarkedFailed;
  }

  /**
    Running the calls of `Process` one after the other from the moment the message is in hand leaves the
    rows, the verdict and the pollers of the one-step `Process`.
    */
  lemma ProcessRefines(s: State, id: JobId, f: ProcessFaults)
    requires s.jc == JGot(id) && Plausible(f.gen)
    requires id in s.rows ==> s.rows[id].id == id
    ensures var p := Process(s.rows, id, f);
            Exec(s, ProcessActs(f))
            == s.(rows := p.rows, jc := JobVerdict(p.err),
                  pollers := s.pollers + if p.task.Some? then [Poller(id, p.task.value, PCheck, 0)] else [])
  {
    hide Exec, AfterSaves, JobRequeue, Process, DoJobGet, DoJobGenerate, MarkedProcessing, MarkedFailed;
    ProcessRuns(s, f);
    StartRefines(s, id, f);
    var s2 := DoJobGenerate(DoJobGet(s, f.readOk), f.gen, f.now, f.text);
    if EarlyError(s.rows, id, f).Some? {
      EarlyProcess(s.rows, id, f);
      DecidedRests(s2, f);
    } else {
      LateProcessRefines(s2, id, f);
    }
  }

  // Handle

  function ResultActs(fs: seq<ResultFaults>, tail: seq<Action>): seq<Action>
    decreases |fs|
  {
    if fs == [] then tail else [CbBuild(fs[0].uploads)] + ([CbStore(fs[0].store)] + ResultActs(fs[1..], tail))
  }

  function FinishActs(f: HandleFaults): seq<Action> {
    [CbMarkReady(f.now)] + ([CbSaveReady(f.write)] + ([CbPublish(f.publishOk)] + ([CbSaveFailed(f.write)] + [])))
  }

  function HandleActs(f: HandleFaults): seq<Action> {
    [CbLookup(f.lookupOk, f.now)] + ResultActs(f.results, FinishActs(f))
  }

  lemma LookupStep(s: State, ok: bool, now: Time)
    ensures Step(s, CbLookup(ok, now)) == DoCbLookup(s, ok, now)
  {
  }

  lemma ReadySteps(s: State, f: HandleFaults)
    ensures Step(s, CbMarkReady(f.now)) == DoCbMarkReady(s, f.now)
    ensures Step(s, CbSaveReady(f.write)) == DoCbSaveReady(s, f.write)
  {
    hide Step, DoCbLookup, DoCbBuild, DoCbStore, DoCbMarkReady, DoCbSaveReady, DoCbPublish, DoCbSaveFailed;
    StepIs(s, CbMarkReady(f.now));
    StepIs(s, CbSaveReady(f.write));
  }

  lemma LastSteps(s: State, f: HandleFaults)
    ensures Step(s, CbPublish(f.publishOk)) == DoCbPublish(s, f.publishOk)
    ensures Step(s, CbSaveFailed(f.write)) == DoCbSaveFailed(s, f.write)
  {
    hide Step, DoCbLookup, DoCbBuild, DoCbStore, DoCbMarkReady, DoCbSaveReady, DoCbPublish, DoCbSaveFailed;
    StepIs(s, CbPublish(f.publishOk));
    StepIs(s, CbSaveFailed(f.write));
  }

  lemma ResultSteps(s: State, u: Uploads, how: WriteOutcome)
    ensures Step(s, CbBuild(u)) == DoCbBuild(s, u)
    ensures Step(s, CbStore(how)) == DoCbStore(s, how)
  {
    hide Step, DoCbLookup, DoCbBuild, DoCbStore, DoCbMarkReady, DoCbSaveReady, DoCbPublish, DoCbSaveFailed;
    StepIs(s, CbBuild(u));
    StepIs(s, CbStore(how));
  }

  function AfterFinish(s: State, f: HandleFaults): State {
    DoCbSaveFailed(DoCbPublish(DoCbSaveReady(DoCbMarkReady(s, f.now), f.write), f.publishOk), f.write)
  }

  lemma FinishRuns(s: State, f: HandleFaults)
    ensures Exec(s, FinishActs(f)) == AfterFinish(s, f)
  {
    hide Exec, Step, DoCbMarkReady, DoCbSaveReady, DoCbPublish, DoCbSaveFailed;
    var s1 := DoCbMarkReady(s, f.now);
    var s2 := DoCbSaveReady(s1, f.write);
    var s3 := DoCbPublish(s2, f.publishOk);
    var s4 := DoCbSaveFailed(s3, f.write);
    ReadySteps(s, f);
    ReadySteps(s1, f);
    LastSteps(s2, f);
    LastSteps(s3, f);
    ExecCons(s, CbMarkReady(f.now),
        [CbSaveReady(f.write)] + ([CbPublish(f.publishOk)] + ([CbSaveFailed(f.write)] + [])));
    ExecCons(s1, CbSaveReady(f.write), [CbPublish(f.publishOk)] + ([CbSaveFailed(f.write)] + []));
    ExecCons(s2, CbPublish(f.publishOk), [CbSaveFailed(f.write)] + []);
    ExecCons(s3, CbSaveFailed(f.write), []);
    ExecNil(s4);
  }

  predicate CbDecided(cc: CbPc) {
    cc.CAck? || cc == CRetry
  }

  /** A consumer that is not building skips the rest of the results. */
  lemma {:induction false} ResultsSkipped(s: State, fs: seq<ResultFaults>, tail: seq<Action>)
    requires !s.cc.CBuild? && !s.cc.CStore?
    ensures Exec(s, ResultActs(fs, tail)) == Exec(s, tail)
    decreases |fs|
  {
    hide Exec, Step;
    if fs != [] {
      ResultSteps(s, fs[0].uploads, fs[0].store);
      ExecCons(s, CbBuild(fs[0].uploads), [CbStore(fs[0].store)] + ResultActs(fs[1..], tail));
      ExecCons(s, CbStore(fs[0].store), ResultActs(fs[1..], tail));
      ResultsSkipped(s, fs[1..], tail);
    }
  }

  lemma OneResult(s: State, u: Uploads, how: WriteOutcome)
    requires s.cc.CBuild? && s.cc.i < |s.cc.req.results|
    ensures var base, req, i := s.cc.base, s.cc.req, s.cc.i;
            var s' := DoCbStore(DoCbBuild(s, u), how);
            match BuildTrack(base, req.results[i], u)
            case Fail(e) => s' == s.(cc := AfterCbError(e, Some(base.id)))
            case Ok(t) =>
              s' == s.(tracks := Stored(s.tracks, t, how),
                       deleted := s.deleted - Stored(s.tracks, t, how).Keys,
                       cc := if how == WrittenRead && !Rejected(s.tracks, t) then CBuild(base, req, i + 1)
                             else AfterCbError(Wrap(CREATE_TRACK_ERROR), Some(base.id)))
  {
  }

  /** The loop over the results from result i on. */
  lemma {:induction false} ResultsRefine(s: State, fs: seq<ResultFaults>, tail: seq<Action>)
    returns (deleted: set<TrackKey>)
    requires s.cc.CBuild? && s.cc.i + |fs| == |s.cc.req.results|
    ensures var base, req := s.cc.base, s.cc.req;
            var (tracks, err) := StoreResults(s.tracks, base, req.results[s.cc.i..], fs);
            Exec(s, ResultActs(fs, tail))
            == Exec(s.(tracks := tracks, deleted := deleted,
                       cc := if err.None? then CBuild(base, req, |req.results|)
                           else AfterCbError(err.value, Some(base.id))), tail)
    decreases |fs|
  {
    hide Exec, Step, BuildTrack, Stored, Rejected, CallbackRequeue;
    deleted := s.deleted;
    if fs == [] {
      assert s.(cc := CBuild(s.cc.base, s.cc.req, |s.cc.req.results|)) == s;
    } else {
      var rest := s.cc.req.results[s.cc.i..];
      var (u, how) := (fs[0].uploads, fs[0].store);
      var s1 := DoCbBuild(s, u);
      var s2 := DoCbStore(s1, how);
      ResultSteps(s, u, how);
      ResultSteps(s1, u, how);
      ExecCons(s, CbBuild(u), [CbStore(how)] + ResultActs(fs[1..], tail));
      ExecCons(s1, CbStore(how), ResultActs(fs[1..], tail));
      OneResult(s, u, how);
      assert rest[0] == s.cc.req.results[s.cc.i] && rest[1..] == s.cc.req.results[s.cc.i + 1..];
      if s2.cc.CBuild? {
        deleted := ResultsRefine(s2, fs[1..], tail);
      } else {
        deleted := s2.deleted;
        ResultsSkipped(s2, fs[1..], tail);
      }
    }
  }

  /** Where the callback consumer stands after its handler returned. */
  predicate CbVerdict(cc: CbPc, err: Option<Err>) {
    if err.None? || !CallbackRequeue(err.value) then cc.CAck? else cc == CRetry
  }

  lemma FinishRefines(s: State, f: HandleFaults)
    requires s.cc.CBuild? && s.cc.i == |s.cc.req.results| && s.cc.base.status != Ready
    ensures var s' := AfterFinish(s, f);
            match MarkedReady(s.cc.base, f.now)
            case Fail(e) => s' == s.(cc := s'.cc) && CbVerdict(s'.cc, Some(e))
            case Ok(next) =>
              var r := WriteResult(s.rows, next, f.write);
              && s' == s.(rows := Written(s.rows, next, f.write), cc := s'.cc)
              && CbVerdict(s'.cc, if r.Fail? then Some(Wrap(r.error))
                                  else if f.publishOk then None else Some(Wrap(Plain)))
  {
  }

  lemma FinishDecided(s: State, f: HandleFaults)
    requires CbDecided(s.cc)
    ensures AfterFinish(s, f) == s
  {
  }

  lemma FinishError(s: State, f: HandleFaults)
    requires s.cc.CFail?
    ensures var s' := AfterFinish(s, f);
            var r := WriteResult(s.rows, s.cc.next, f.write);
            && s' == s.(rows := Written(s.rows, s.cc.next, f.write), cc := s'.cc)
            && CbVerdict(s'.cc, if r.Fail? then Some(Wrap(r.error)) else None)
  {
  }

  lemma CompleteRefines(s: State, j: Job, req: Request, f: HandleFaults)
    requires s.cc == CBuild(j, req, 0) && j.status != Ready && |f.results| == |req.results|
    ensures var (db, err) := HandleComplete(Db(s.rows, s.tracks), j, req, f);
            var s' := Exec(s, ResultActs(f.results, FinishActs(f)));
            s' == s.(rows := db.rows, tracks := db.tracks, deleted := s'.deleted, cc := s'.cc) && CbVerdict(s'.cc, err)
  {
    var deleted := ResultsRefine(s, f.results, FinishActs(f));
    assert req.results[0..] == req.results;
    var (tracks, err) := StoreResults(s.tracks, j, req.results, f.results);
    var s1 := s.(tracks := tracks, deleted := deleted,
                 cc := if err.None? then CBuild(j, req, |req.results|) else AfterCbError(err.value, Some(j.id)));
    FinishRuns(s1, f);
    hide Exec, AfterFinish, StoreResults, Written, WriteResult, CallbackRequeue, MarkedReady, FinishActs;
    if err.None? {
      FinishRefines(s1, f);
    } else {
      FinishDecided(s1, f);
    }
  }

  /** What `Handle` decides without a table write, or None when it goes on to save. */
  ghost function EarlyVerdict(rows: Rows, req: Request, f: HandleFaults): Option<Option<Err>> {
    match GetJobByTask(rows, req.TaskId(), f.lookupOk)
    case Fail(e) => Some(Some(e))
    case Ok(j) =>
      match req.kind
      case TextType | FirstType => Some(None)
      case CompleteType => if j.status == Ready then Some(None) else None
      case ErrorType =>
        if j.status == Failed then Some(None)
        else if j.status == Ready then Some(Some(InvalidInput(InvalidStatusTransition))) else None
      case OtherType(_) => Some(Some(InvalidCallback(CallbackTypeInvalid)))
  }

  lemma LookupRefines(s: State, req: Request, f: HandleFaults)
    requires s.cc == CGot(req)
    ensures var v := EarlyVerdict(s.rows, req, f);
            var s' := DoCbLookup(s, f.lookupOk, f.now);
            s' == s.(cc := s'.cc) &&
            if v.Some? then CbDecided(s'.cc) && CbVerdict(s'.cc, v.value)
            else
              var j := GetJobByTask(s.rows, req.TaskId(), f.lookupOk).value;
              if req.kind == CompleteType then j.status != Ready && s'.cc == CBuild(j, req, 0)
              else s'.cc == CFail(j, MarkedFailed(j, f.now, req.ErrorMessage()).value, req)
  {
    hide GetJobByTask, CallbackRequeue;
  }

  lemma EarlyHandle(db: Db, req: Request, f: HandleFaults)
    requires |f.results| == |req.results| && EarlyVerdict(db.rows, req, f).Some?
    ensures Handle(db, req, f) == (db, EarlyVerdict(db.rows, req, f).value)
  {
  }

  lemma LateHandle(db: Db, req: Request, f: HandleFaults)
    requires |f.results| == |req.results| && EarlyVerdict(db.rows, req, f).None?
    ensures var j := GetJobByTask(db.rows, req.TaskId(), f.lookupOk).value;
            if req.kind == CompleteType then Handle(db, req, f) == HandleComplete(db, j, req, f)
            else
              var next := MarkedFailed(j, f.now, req.ErrorMessage()).value;
              var r := WriteResult(db.rows, next, f.write);
              Handle(db, req, f)
              == (db.(rows := Written(db.rows, next, f.write)), if r.Fail? then Some(Wrap(r.error)) else None)
  {
  }

  lemma HandleRuns(s: State, f: HandleFaults)
    ensures Exec(s, HandleActs(f)) == Exec(DoCbLookup(s, f.lookupOk, f.now), ResultActs(f.results, FinishActs(f)))
  {
  }

  /**
    Running the calls of `Handle` one after the other leaves the tables of the one-step `Handle`, and the
    consumer acknowledges or retries by the error that it returns.
    */
  lemma HandleRefines(s: State, req: Request, f: HandleFaults)
    requires s.cc == CGot(req) && |f.results| == |req.results|
    ensures var (db, err) := Handle(Db(s.rows, s.tracks), req, f);
            var s' := Exec(s, HandleActs(f));
            s' == s.(rows := db.rows, tracks := db.tracks, deleted := s'.deleted, cc := s'.cc) && CbVerdict(s'.cc, err)
  {
    HandleRuns(s, f);
    LookupRefines(s, req, f);
    hide *;
    var db := Db(s.rows, s.tracks);
    var s1 := DoCbLookup(s, f.lookupOk, f.now);
    if EarlyVerdict(s.rows, req, f).Some? {
      EarlyHandle(db, req, f);
      ResultsSkipped(s1, f.results, FinishActs(f));
      FinishRuns(s1, f);
      FinishDecided(s1, f);
    } else {
      LateHandle(db, req, f);
      if req.kind == CompleteType {
        CompleteRefines(s1, s1.cc.base, req, f);
      } else {
        ResultsSkipped(s1, f.results, FinishActs(f));
        FinishRuns(s1, f);
        FinishError(s1, f);
      }
    }
  }
}
