/** What the pipeline guarantees in every reachable state and over every run. */
module PipelineTheorems {
  import opened Text
  import opened Errors
  import opened Jobs
  import opened JobStore
  import opened Callbacks
  import opened Tracks
  import opened QueueProtocol
  import opened Pipeline
  import opened PipelineInv

  // Accounting of jobs

  /** A message for the job is in a list, in the retry gap, or was lost in it. */
  predicate InFlight(q: Queue<JobId>, id: JobId) {
    Count(q.main, id) + Count(q.processing, id) + Count(q.dlq, id) + Count(q.lost, id)
    + (if q.gap.Some? && q.gap.value.msg.body == id then 1 else 0) == 1
  }

  /**
    Every job has at most one message, and exactly one once its create call has enqueued it. A row that
    is still queued has its message in flight or belongs to a create call that did not get that far;
    so a message is acknowledged only after its row left the queued state.
    */
  lemma JobAccounting(s: State, id: JobId)
    requires Reachable(s)
    ensures Total(s.jobs, id) == if id in s.calls && s.calls[id].Done? then 1 else 0
    ensures id in s.rows && s.rows[id].status == Queued ==>
        id in s.calls && (InFlight(s.jobs, id) <==> s.calls[id].Done?)
    ensures Count(s.jobs.acked, id) > 0 ==> id in s.rows && s.rows[id].status != Queued
  {
    ReachableInv(s);
    assert Total(s.jobs, id) == Times(s.jobs.sent, id);
    if Count(s.jobs.acked, id) > 0 {
      CountPositive(s.jobs.acked, id);
    }
  }

  /** `LREM` always finds the receipt: the "queue ack failed" error never occurs. */
  lemma ReceiptAlwaysFound(s: State)
    requires Reachable(s)
    ensures s.jobs.hand.Holding? ==> Find(s.jobs.processing, s.jobs.hand.msg) < |s.jobs.processing|
    ensures s.cbs.hand.Holding? ==> Find(s.cbs.processing, s.cbs.hand.msg) < |s.cbs.processing|
  {
    ReachableInv(s);
  }

  // What each action does to the rows

  /** The row that an action saves, with the outcome of the statement. */
  function RowWrite(s: State, a: Action): Option<(Job, WriteOutcome)> {
    match a
    case ApiCompensate(id, how) =>
      if id in s.calls && s.calls[id].EnqueueFailed? then Some((s.calls[id].next, how)) else None
    case JobSave(how) => if s.jc.JMark? then Some((s.jc.next, how)) else None
    case JobSaveFailed(how) => if s.jc.JMarkFailed? then Some((s.jc.next, how)) else None
    case ExhaustSave(how) => if s.jc.JExhaustSave? then Some((s.jc.next, how)) else None
    case CbSaveReady(how) => if s.cc.CReady? then Some((s.cc.next, how)) else None
    case CbSaveFailed(how) => if s.cc.CFail? then Some((s.cc.next, how)) else None
    case _ => None
  }

  function RowsAfter(s: State, a: Action): Rows {
    match RowWrite(s, a)
    case Some((j, how)) => Written(s.rows, j, how)
    case None =>
      if a.ApiCreate? && a.id !in s.rows && Validate(Normalized(a.params)).None? then
        s.rows[a.id := NewJob(a.id, a.user, Normalized(a.params))]
      else s.rows
  }

  lemma ApiRows(s: State, a: Action)
    requires By(a) == Server
    ensures ApiStep(s, a).rows == RowsAfter(s, a)
  {
    hide Written, Validate, Normalized;
  }

  lemma JobRows(s: State, a: Action)
    requires By(a) == Processor || By(a) == Exhausted
    ensures (if By(a) == Processor then ProcessorStep(s, a) else ExhaustedStep(s, a)).rows == RowsAfter(s, a)
  {
  }

  lemma QueueStepRows(s: State, a: Action)
    ensures JobQueueStep(s, a).rows == s.rows && CallbackQueueStep(s, a).rows == s.rows && PollStep(s, a).rows == s.rows
  {
    hide Recovered, Reserved, AckSent, Removed, Republished, Pushed;
  }

  lemma HandlerRows(s: State, a: Action)
    requires By(a) == Handler
    ensures HandlerStep(s, a).rows == RowsAfter(s, a)
  {
    hide Written, WriteResult, AfterLookup, AfterCbError, BuildTrack, MarkedReady, GetJobByTask, Stored;
  }

  lemma HostRows(s: State, a: Action)
    requires By(a) == Host || By(a) == JobQueue || By(a) == CallbackQueue || By(a) == Polling
    ensures RowsAfter(s, a) == s.rows == DoWorkerCrash(s).rows
  {
  }

  /** Only six calls save a row, and only `CreateJob` adds one. */
  lemma StepRows(s: State, a: Action)
    ensures Step(s, a).rows == RowsAfter(s, a)
  {
    hide ApiStep, ProcessorStep, ExhaustedStep, JobQueueStep, HandlerStep, CallbackQueueStep, PollStep, DoWorkerCrash,
        By, RowsAfter;
    match By(a)
    case Server => ApiRows(s, a);
    case Processor | Exhausted => JobRows(s, a);
    case Handler => HandlerRows(s, a);
    case _ =>
      QueueStepRows(s, a);
      HostRows(s, a);
  }

  /** Whoever saves a row saves a legal successor of what is stored at that moment. */
  lemma RowWriteLegal(s: State, a: Action)
    requires s in SAFE && RowWrite(s, a).Some?
    ensures var j := RowWrite(s, a).value.0;
            LegalWrite(s.rows, j.id, j) && (a.JobSave? || SameCore(s.rows[j.id], j))
            && (a.JobSave? || a.JobSaveFailed? || a.ApiCompensate? ==> s.rows[j.id].status == Queued)
            && (a.CbSaveReady? || a.CbSaveFailed? ==> s.rows[j.id].status != Queued)
  {
    if a.ExhaustSave? {
      ExhaustIsLegal(s.rows, s.calls, s.jobs.sent, s.jobs.hand, s.jc);
    } else if a.CbSaveReady? || a.CbSaveFailed? {
      CopyIsLegal(s.rows, s.cc.base, s.cc.next, s.cc.req);
    }
  }

  // Who moves which consumer

  lemma ApiLeavesConsumers(s: State, a: Action)
    ensures ApiStep(s, a).jc == s.jc && ApiStep(s, a).cc == s.cc
  {
    hide Pushed, Written, Validate, Normalized, MarkedFailed, ValidateRequest, Owns, GetJob;
  }

  lemma PollLeavesConsumers(s: State, a: Action)
    ensures PollStep(s, a).jc == s.jc && PollStep(s, a).cc == s.cc
  {
    hide Pushed, FromDetails, AfterCheck, GetJob;
  }

  lemma HandlerLeavesJobConsumer(s: State, a: Action)
    ensures HandlerStep(s, a).jc == s.jc
  {
    hide Written, WriteResult, AfterLookup, AfterCbError, BuildTrack, MarkedReady, GetJobByTask, Stored, Rejected;
    hide AfterSaveReady, AfterSaveFailed;
  }

  lemma CallbackQueueLeavesJobConsumer(s: State, a: Action)
    ensures CallbackQueueStep(s, a).jc == s.jc
  {
    hide Recovered, Reserved, AckSent, Removed, Republished;
  }

  lemma ProcessorLeavesCallbackConsumer(s: State, a: Action)
    ensures ProcessorStep(s, a).cc == s.cc && ExhaustedStep(s, a).cc == s.cc
  {
    hide Written, WriteResult, AfterGeneration, AfterJobError, MarkedFailed, GetJob;
  }

  lemma JobQueueLeavesCallbackConsumer(s: State, a: Action)
    ensures JobQueueStep(s, a).cc == s.cc
  {
    hide Recovered, Reserved, AckSent, Removed, Republished;
  }

  // Non-interference

  /** The queued row that `Process` has read and not yet written. */
  function ReadRow(jc: JobPc): Option<Job> {
    match jc
    case JRead(base) => Some(base)
    case JMark(base, _, _) => Some(base)
    case JMarkFailed(base, _, _) => Some(base)
    case _ => None
  }

  lemma ReadRowEnqueued(s: State)
    requires s in SAFE && ReadRow(s.jc).Some?
    ensures var base := ReadRow(s.jc).value;
            base.status == Queued && base.id in s.rows && s.rows[base.id] == base && base.id in s.calls
                && s.calls[base.id].Done?
  {
    CarriedRow(s);
  }

  /** The row of a write by anyone else is another one. */
  lemma OtherRow(s: State, a: Action)
    requires s in SAFE && ReadRow(s.jc).Some? && RowWrite(s, a).Some? && !a.JobSave? && !a.JobSaveFailed?
    ensures RowWrite(s, a).value.0.id != ReadRow(s.jc).value.id
  {
    ReadRowEnqueued(s);
    RowWriteLegal(s, a);
    if a.ApiCompensate? {
      CompensatesOwn(s, a.id);
    }
    hide SAFE, Holds, LegalWrite, SameCore;
  }

  lemma CompensatesOwn(s: State, id: JobId)
    requires s in SAFE && id in s.calls && s.calls[id].EnqueueFailed?
    ensures s.calls[id].next.id == id
  {
  }

  lemma RowsAfterOther(s: State, a: Action, id: JobId)
    requires id in s.rows && (RowWrite(s, a).Some? ==> RowWrite(s, a).value.0.id != id)
    ensures id in RowsAfter(s, a) && RowsAfter(s, a)[id] == s.rows[id]
  {
  }

  /**
    Between reading a row as queued and writing it, the row stays exactly as it was read, whatever any
    other actor does at call granularity.
    */
  lemma NonInterference(s: State, a: Action)
    requires Reachable(s) && ReadRow(s.jc).Some? && !a.JobSave? && !a.JobSaveFailed?
    ensures var base := ReadRow(s.jc).value;
            && base.status == Queued
            && base.id in s.rows && s.rows[base.id] == base
            && base.id in Step(s, a).rows && Step(s, a).rows[base.id] == base
  {
    hide *;
    ReachableInv(s);
    StepRows(s, a);
    ReadRowEnqueued(s);
    if RowWrite(s, a).Some? {
      OtherRow(s, a);
    }
    RowsAfterOther(s, a, ReadRow(s.jc).value.id);
  }

  // Rows only move forward

  predicate Later(j: Job, k: Job) {
    && k.id == j.id && k.user == j.user && k.params == j.params
    && (j.taskId.Some? ==> k.taskId == j.taskId)
    && (j.status != Queued ==> k.status != Queued && SameCore(j, k))
    && (Terminal(j.status) ==> Terminal(k.status))
  }

  predicate Forward(rows: Rows, rows': Rows) {
    forall id :: id in rows ==> id in rows' && Later(rows[id], rows'[id])
  }

  lemma LegalIsForward(rows: Rows, next: Job, how: WriteOutcome)
    requires RowsOK(rows) && LegalWrite(rows, next.id, next)
    ensures Forward(rows, Written(rows, next, how))
  {
  }

  lemma SafeRows(s: State)
    requires s in SAFE
    ensures RowsOK(s.rows)
  {
  }

  lemma NoSaveForward(s: State, a: Action)
    requires RowWrite(s, a).None?
    ensures Forward(s.rows, RowsAfter(s, a))
  {
    hide Validate, Normalized;
  }

  lemma RowsAfterForward(s: State, a: Action)
    requires s in SAFE
    ensures Forward(s.rows, RowsAfter(s, a))
  {
    hide *;
    if RowWrite(s, a).Some? {
      RowWriteLegal(s, a);
      SafeRows(s);
      SaveIsWritten(s, a);
      LegalIsForward(s.rows, RowWrite(s, a).value.0, RowWrite(s, a).value.1);
    } else {
      NoSaveForward(s, a);
    }
  }

  lemma StepForward(s: State, a: Action)
    requires s in SAFE
    ensures Forward(s.rows, Step(s, a).rows)
  {
    hide *;
    StepRows(s, a);
    RowsAfterForward(s, a);
  }

  lemma ForwardTransitive(a: Rows, b: Rows, c: Rows)
    requires Forward(a, b) && Forward(b, c)
    ensures Forward(a, c)
  {
  }

  lemma ForwardReflexive(a: Rows)
    ensures Forward(a, a)
  {
  }

  /**
    Over every run: no row disappears, a finished job never becomes queued or processing again, a job
    that left the queue never returns to it, and a stored task id, start time and attempt count never change.
    */
  lemma {:induction false} RowsOnlyMoveForward(s: State, acts: seq<Action>)
    requires s in SAFE
    ensures Forward(s.rows, Exec(s, acts).rows)
    decreases |acts|
  {
    hide Step, Forward, SAFE;
    if acts == [] {
      ForwardReflexive(s.rows);
    } else {
      StepForward(s, acts[0]);
      StepKeeps(s, acts[0]);
      RowsOnlyMoveForward(Step(s, acts[0]), acts[1..]);
      ForwardTransitive(s.rows, Step(s, acts[0]).rows, Exec(s, acts).rows);
    }
  }

  lemma Finality(s: State, acts: seq<Action>, id: JobId)
    requires Reachable(s) && id in s.rows && Terminal(s.rows[id].status)
    ensures id in Exec(s, acts).rows && Terminal(Exec(s, acts).rows[id].status)
  {
    ReachableInv(s);
    RowsOnlyMoveForward(s, acts);
  }

  /** A task id is written once, stays, and names one job for ever. */
  lemma TaskIdNamesOneJob(s: State, acts: seq<Action>, id: JobId, other: JobId)
    requires Reachable(s) && id in s.rows && s.rows[id].taskId.Some?
    ensures id in Exec(s, acts).rows && Exec(s, acts).rows[id].taskId == s.rows[id].taskId
    ensures other in Exec(s, acts).rows && other != id ==> Exec(s, acts).rows[other].taskId != s.rows[id].taskId
  {
    ReachableInv(s);
    RowsOnlyMoveForward(s, acts);
    ExecKeeps(s, acts);
  }

  lemma RowsWellFormed(s: State, id: JobId)
    requires Reachable(s) && id in s.rows
    ensures s.rows[id].id == id && WellFormed(s.rows[id])
  {
    ReachableInv(s);
  }

  // When does the exact final status change?

  /** A stale copy of the other finisher lands on a finished row. */
  predicate StaleOverwrite(s: State, a: Action, id: JobId) {
    && id in s.rows
    && ((a.ExhaustSave? && a.how != NotWritten && s.jc.JExhaustSave? && s.jc.base.id == id
       && s.rows[id].status == Ready)
        || (a.CbSaveReady? && a.how != NotWritten && s.cc.CReady? && s.cc.base.id == id && s.rows[id].status == Failed))
  }

  lemma SavedStatus(s: State, a: Action)
    requires RowWrite(s, a).Some?
    requires JcOK(s.rows, s.jobs.hand, s.jc) && CcOK(s.rows, EverStored(s), s.cbs.hand, s.cc)
    ensures var j := RowWrite(s, a).value.0;
            && (a.ExhaustSave? ==> j.status == Failed && j.id == s.jc.base.id)
            && (a.CbSaveReady? ==> j.status == Ready && j.id == s.cc.base.id)
            && (a.CbSaveFailed? ==> j.status == Failed && j.id in s.rows && s.rows[j.id].status != Ready)
  {
  }

  lemma WriteChangesStatusIff(rows: Rows, j: Job, how: WriteOutcome, id: JobId)
    requires RowsOK(rows) && TasksUnique(rows) && LegalWrite(rows, j.id, j) && id in rows && Terminal(rows[id].status)
    ensures id in Written(rows, j, how)
    ensures Written(rows, j, how)[id].status != rows[id].status <==>
        how != NotWritten && j.id == id && j.status != rows[id].status
  {
  }

  lemma SafeParts(s: State)
    requires s in SAFE
    ensures RowsOK(s.rows) && TasksUnique(s.rows)
    ensures JcOK(s.rows, s.jobs.hand, s.jc) && CcOK(s.rows, EverStored(s), s.cbs.hand, s.cc)
  {
    hide RowsOK, TasksUnique, JcOK, CcOK;
  }

  lemma SaveStatusChange(s: State, a: Action, id: JobId)
    requires s in SAFE && id in s.rows && Terminal(s.rows[id].status)
    ensures RowWrite(s, a).Some? ==>
              var (j, how) := RowWrite(s, a).value;
              var rows' := Written(s.rows, j, how);
              id in rows' && (rows'[id].status != s.rows[id].status <==> StaleOverwrite(s, a, id))
  {
    hide SAFE, Holds, JcOK, CcOK, WellFormed, Written, RowsOK, TasksUnique, LegalWrite, SameCore;
    SafeParts(s);
    if RowWrite(s, a).Some? {
      var (j, how) := RowWrite(s, a).value;
      RowWriteLegal(s, a);
      SavedStatus(s, a);
      WriteChangesStatusIff(s.rows, j, how, id);
    }
  }

  lemma NoSaveNoOverwrite(s: State, a: Action, id: JobId)
    requires RowWrite(s, a).None? && id in s.rows
    ensures id in RowsAfter(s, a) && RowsAfter(s, a)[id] == s.rows[id] && !StaleOverwrite(s, a, id)
  {
  }

  lemma SaveIsWritten(s: State, a: Action)
    requires RowWrite(s, a).Some?
    ensures RowsAfter(s, a) == Written(s.rows, RowWrite(s, a).value.0, RowWrite(s, a).value.1)
  {
  }

  lemma RowsAfterStatus(s: State, a: Action, id: JobId)
    requires s in SAFE && id in s.rows && Terminal(s.rows[id].status)
    ensures id in RowsAfter(s, a) && (RowsAfter(s, a)[id].status != s.rows[id].status <==> StaleOverwrite(s, a, id))
  {
    hide *;
    if RowWrite(s, a).Some? {
      SaveIsWritten(s, a);
      SaveStatusChange(s, a, id);
    } else {
      NoSaveNoOverwrite(s, a, id);
    }
  }

  /**
    The exact final status changes in one action if and only if a stale copy lands: `Exhausted` saves
    failed over a row made ready since it read it, or a complete callback saves ready over a row that
    `Exhausted` made failed since.
    */
  lemma FinalStatusChangesIff(s: State, a: Action, id: JobId)
    requires Reachable(s) && id in s.rows && Terminal(s.rows[id].status)
    ensures id in Step(s, a).rows
    ensures Step(s, a).rows[id].status != s.rows[id].status <==> StaleOverwrite(s, a, id)
  {
    hide *;
    ReachableInv(s);
    StepRows(s, a);
    RowsAfterStatus(s, a, id);
  }

  // Acknowledgements

  /**
    At any time every callback ever acknowledged names a job, and every complete or error callback ever
    acknowledged names a job that is finished.
    */
  lemma AckedCallbacksAnswered(s: State, c: Cell<Request>)
    requires Reachable(s) && c in s.cbs.acked
    ensures exists id :: id in s.rows && s.rows[id].taskId == Some(c.msg.body.TaskId())
                         && (IsTerminal(c.msg.body) ==> Terminal(s.rows[id].status))
  {
    ReachableInv(s);
    assert Answered(s.rows, c.msg.body);
    var id :| Concerns(s.rows, id, c.msg.body) && (IsTerminal(c.msg.body) ==> Terminal(s.rows[id].status));
    assert id in s.rows && s.rows[id].taskId == Some(c.msg.body.TaskId());
  }

  lemma LookupStep(s: State, ok: bool, now: Time)
    ensures Step(s, CbLookup(ok, now)) == DoCbLookup(s, ok, now)
  {
  }

  /** A callback whose task id no row has is never acknowledged: it is looked up and retried, nothing else. */
  lemma UnknownTaskOnlyRetried(s: State, ok: bool, now: Time)
    requires Reachable(s) && s.cbs.hand.Holding?
    requires forall id :: id in s.rows ==> s.rows[id].taskId != Some(s.cbs.hand.msg.body.TaskId())
    ensures s.cc == CGot(s.cbs.hand.msg.body) || s.cc == CRetry
    ensures s.cc.CGot? ==> Step(s, CbLookup(ok, now)) == s.(cc := CRetry)
  {
    hide Step;
    ReachableInv(s);
    LookupStep(s, ok, now);
    ForeignRequeued(DB_ERROR);
  }

  // Requests

  /** Wherever a callback is in the queue, it is one that was enqueued, unchanged, and it passes `Validate`. */
  lemma QueuedRequestsValid(s: State, c: Cell<Request>)
    requires Reachable(s)
    requires c in s.cbs.main || c in s.cbs.processing || c in s.cbs.dlq || c in s.cbs.acked || c in s.cbs.lost
             || s.cbs.gap == Some(c)
    ensures c.msg.body in s.cbs.sent && ValidateRequest(c.msg.body).None?
  {
    ReachableInv(s);
    var q := s.cbs;
    var b := c.msg.body;
    CountPositive(q.main, b);
    CountPositive(q.processing, b);
    CountPositive(q.dlq, b);
    CountPositive(q.acked, b);
    CountPositive(q.lost, b);
    assert Total(q, b) == Times(q.sent, b);
    var i := TimesIndex(q.sent, b);
  }

  /** The unknown-type branch of `Handle` is dead, and each poller run enqueues at most one callback. */
  lemma HandledTypesKnown(s: State)
    requires Reachable(s)
    ensures s.cc.CGot? ==> !s.cc.req.kind.OtherType? && (s.cc.req.kind == CompleteType ==> s.cc.req.results != [])
    ensures forall i :: 0 <= i < |s.pollers| ==>
        s.pollers[i].sent <= 1 && (s.pollers[i].sent == 1 ==> s.pollers[i].pc.PStopped?)
  {
    ReachableInv(s);
    if s.cc.CGot? {
      CarriedValid(s);
      RequestAcceptedIff(s.cc.req);
    }
  }

  // Tracks

  /** The unique object indexes never refuse a track of the callback consumer. */
  lemma TracksNeverRejected(s: State)
    requires Reachable(s) && s.cc.CStore?
    ensures !Rejected(s.tracks, s.cc.track)
  {
    hide SAFE;
    ReachableInv(s);
    IndexesAdmit(s);
  }

  lemma IndexesAdmit(s: State)
    requires s in SAFE && s.cc.CStore?
    ensures !Rejected(s.tracks, s.cc.track)
  {
    var k := KeyOf(s.cc.track);
    var r := Upserted(s.tracks, s.cc.track)[k];
    assert CanonicalRow(k, r);
    forall k' | k' in s.tracks && k' != k
      ensures s.tracks[k'].audioKey != r.audioKey && (r.imageKey.Some? ==> s.tracks[k'].imageKey != r.imageKey)
    {
      CanonicalApart(k, r, k', s.tracks[k']);
    }
  }

  /**
    A ready job has, for every result of some complete callback of its own task, a track that is stored,
    except exactly for those that its owner deleted; and the callback has at least one result.
    */
  lemma ReadyHasTracks(s: State, id: JobId) returns (req: Request)
    requires Reachable(s) && id in s.rows && s.rows[id].status == Ready
    ensures req in s.cbs.sent && req.kind == CompleteType && s.rows[id].taskId == Some(req.TaskId())
    ensures req.results != []
    ensures forall k :: 0 <= k < |req.results| ==>
              var key := (id, TrimSpace(req.results[k].audioId)); key in s.tracks <==> key !in s.deleted
  {
    ReachableInv(s);
    var keys := EverStored(s);
    assert Backed(keys, s.cbs.sent, s.rows[id]) && s.tracks.Keys !! s.deleted;
    var i :| 0 <= i < |s.cbs.sent| && s.cbs.sent[i].kind == CompleteType
             && s.rows[id].taskId == Some(s.cbs.sent[i].TaskId())
             && StoredUpTo(keys, s.rows[id].id, s.cbs.sent[i], |s.cbs.sent[i].results|);
    req := s.cbs.sent[i];
  }

  // Only owners delete tracks

  /** What a call does to the tracks: an owner's delete removes one, every other call keeps all keys. */
  ghost predicate TracksStep(s: State, a: Action, s': State) {
    if a.ApiDeleteTrack? && Owns(s.rows, s.tracks, a.key, a.user) then
      s'.tracks == s.tracks - {a.key} && s'.deleted == s.deleted + {a.key}
    else s.tracks.Keys <= s'.tracks.Keys && s'.deleted <= s.deleted
  }

  lemma ApiTracks(s: State, a: Action)
    ensures if By(a) == Server then TracksStep(s, a, ApiStep(s, a)) else ApiStep(s, a) == s
  {
    hide Written, Validate, Normalized, ValidateRequest, MarkedFailed, Pushed, GetJob;
  }

  lemma HandlerTracks(s: State, a: Action)
    requires By(a) == Handler
    ensures TracksStep(s, a, HandlerStep(s, a))
  {
    hide Written, WriteResult, AfterLookup, AfterCbError, BuildTrack, MarkedReady, GetJobByTask, Rejected;
    hide AfterSaveReady, AfterSaveFailed, Merged, InsertRow;
  }

  predicate SameTracks(s: State, s': State) {
    s'.tracks == s.tracks && s'.deleted == s.deleted
  }

  lemma ConsumersLeaveTracks(s: State, a: Action)
    ensures SameTracks(s, ProcessorStep(s, a)) && SameTracks(s, ExhaustedStep(s, a))
  {
    hide Written, WriteResult, AfterGeneration, AfterJobError, MarkedFailed, GetJob;
  }

  lemma QueuesLeaveTracks(s: State, a: Action)
    ensures SameTracks(s, JobQueueStep(s, a)) && SameTracks(s, CallbackQueueStep(s, a)) && SameTracks(s, PollStep(s, a))
    ensures SameTracks(s, DoWorkerCrash(s))
  {
    hide Recovered, Reserved, AckSent, Removed, Republished, Pushed, FromDetails, AfterCheck, Crashed, Stopped, GetJob;
  }

  lemma StepTracks(s: State, a: Action)
    ensures TracksStep(s, a, Step(s, a))
  {
    hide ApiStep, ProcessorStep, ExhaustedStep, JobQueueStep, HandlerStep, CallbackQueueStep, PollStep, DoWorkerCrash;
    if By(a) == Server {
      ApiTracks(s, a);
    } else if By(a) == Handler {
      HandlerTracks(s, a);
    } else {
      ConsumersLeaveTracks(s, a);
      QueuesLeaveTracks(s, a);
      OthersTracks(s, a);
    }
  }

  /** Whoever is neither the API nor the handler of callbacks leaves the tracks alone. */
  lemma OthersTracks(s: State, a: Action)
    requires By(a) != Server && By(a) != Handler
    requires SameTracks(s, ProcessorStep(s, a)) && SameTracks(s, ExhaustedStep(s, a))
    requires SameTracks(s, JobQueueStep(s, a)) && SameTracks(s, CallbackQueueStep(s, a))
    requires SameTracks(s, PollStep(s, a)) && SameTracks(s, DoWorkerCrash(s))
    ensures SameTracks(s, Step(s, a)) && !a.ApiDeleteTrack?
  {
    hide ApiStep, ProcessorStep, ExhaustedStep, JobQueueStep, HandlerStep, CallbackQueueStep, PollStep, DoWorkerCrash;
  }

  /** A stored track disappears by one call if and only if that call is its owner's delete. */
  lemma OnlyOwnersDelete(s: State, a: Action, key: TrackKey)
    requires key in s.tracks
    ensures key !in Step(s, a).tracks <==>
              a.ApiDeleteTrack? && a.key == key && key.0 in s.rows && s.rows[key.0].user == a.user
  {
    hide Step;
    StepTracks(s, a);
  }

  predicate NoDeletions(acts: seq<Action>) {
    forall i :: 0 <= i < |acts| ==> !acts[i].ApiDeleteTrack?
  }

  lemma {:induction false} NothingDeleted(s: State, acts: seq<Action>)
    requires NoDeletions(acts)
    ensures Exec(s, acts).deleted <= s.deleted && s.tracks.Keys <= Exec(s, acts).tracks.Keys
    decreases |acts|
  {
    hide Step;
    if acts != [] {
      StepTracks(s, acts[0]);
      NothingDeleted(Step(s, acts[0]), acts[1..]);
    }
  }

  /** In a run in which no owner deletes a track, a ready job has a stored track for each of those results. */
  lemma ReadyKeepsTracks(acts: seq<Action>, id: JobId) returns (req: Request)
    requires NoDeletions(acts) && id in Exec(Start(), acts).rows && Exec(Start(), acts).rows[id].status == Ready
    ensures var s := Exec(Start(), acts);
            && req in s.cbs.sent && req.kind == CompleteType && s.rows[id].taskId == Some(req.TaskId())
            && req.results != []
            && forall k :: 0 <= k < |req.results| ==> (id, TrimSpace(req.results[k].audioId)) in s.tracks
  {
    var s := Exec(Start(), acts);
    NothingDeleted(Start(), acts);
    hide Exec;
    req := ReadyHasTracks(s, id);
  }

  lemma ApiFavouriteIs(s: State, key: TrackKey, user: UserId, favourite: bool)
    ensures Step(s, ApiFavourite(key, user, favourite)) == DoApiFavourite(s, key, user, favourite)
  {
  }

  /** An owner can set the flag of any track at any time, and nobody else can; nothing but the flag changes. */
  lemma OnlyOwnersMark(s: State, key: TrackKey, user: UserId, favourite: bool)
    ensures Step(s, ApiFavourite(key, user, favourite))
            == if key in s.tracks && key.0 in s.rows && s.rows[key.0].user == user then
                 s.(tracks := s.tracks[key := s.tracks[key].(favourite := favourite)])
               else s
  {
    hide Step;
    ApiFavouriteIs(s, key, user, favourite);
  }

  /** An owner can delete any track at any time, and the row of its job stays as it is, ready or not. */
  lemma OwnerDeletes(s: State, key: TrackKey)
    requires Reachable(s) && key in s.tracks && key.0 in s.rows
    ensures var s' := Step(s, ApiDeleteTrack(key, s.rows[key.0].user));
            key !in s'.tracks && key in s'.deleted && s'.rows == s.rows && s'.tracks == s.tracks - {key}
  {
    hide Step;
    StepTracks(s, ApiDeleteTrack(key, s.rows[key.0].user));
    StepRows(s, ApiDeleteTrack(key, s.rows[key.0].user));
  }
}
