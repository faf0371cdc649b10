/**
  Which jobs are queued for ever: exactly those whose message is lost, those whose dead letter `Exhausted`
  is done with, and those whose create call ended without an enqueue. Every other queued job has a run that
  takes it out of the queue.
  */
module Stuck {
  import opened Text
  import opened Errors
  import opened Jobs
  import opened JobStore
  import opened Callbacks
  import opened Tracks
  import opened QueueProtocol
  import opened Pipeline
  import opened PipelineInv
  import opened PipelineTheorems
  import opened DeadLetters
  import opened Refinement

  /** `Exhausted` is still going to fail the row of the job. */
  predicate BeingExhausted(jc: JobPc, id: JobId) {
    (jc.JExhaust? && jc.id == id) || (jc.JExhaustSave? && jc.base.id == id)
  }

  /** Nobody is left who would take the job out of the queue. */
  predicate Abandoned(s: State, id: JobId) {
    id in s.calls
    && (s.calls[id].Ended?
        || Count(s.jobs.lost, id) > 0
        || (Count(s.jobs.dlq, id) > 0 && !BeingExhausted(s.jc, id)))
  }

  predicate StuckNow(s: State, id: JobId) {
    id in s.rows && s.rows[id].status == Queued && Abandoned(s, id)
  }

  // Abandoned jobs stay queued

  /** An abandoned job has no message in circulation, and none in the hand of the consumer. */
  lemma NothingInCirculation(s: State, id: JobId)
    requires s in SAFE && StuckNow(s, id)
    ensures Count(s.jobs.main, id) == 0 && Count(s.jobs.processing, id) == 0
    ensures s.jobs.gap.Some? ==> s.jobs.gap.value.msg.body != id
    ensures s.calls[id].Ended? || s.calls[id].Done?
    ensures s.calls[id].Ended? || Count(s.jobs.lost, id) > 0 ==> Count(s.jobs.dlq, id) == 0
  {
    assert Total(s.jobs, id) == Times(s.jobs.sent, id);
  }

  lemma AbandonedNotHeld(s: State, id: JobId)
    requires s in SAFE && StuckNow(s, id)
    ensures !Carries(s.jobs.hand, id) && (s.jobs.hand.InGap? ==> s.jobs.hand.msg.body != id)
  {
    NothingInCirculation(s, id);
    if Carries(s.jobs.hand, id) {
      CountAtLeast(s.jobs.processing, Find(s.jobs.processing, s.jobs.hand.msg));
    }
  }

  lemma AbandonedNotExhausted(s: State, id: JobId)
    requires s in SAFE && DeadOK(s) && StuckNow(s, id)
    ensures !BeingExhausted(s.jc, id)
  {
    NothingInCirculation(s, id);
  }

  lemma AbandonedNotSaved(s: State, a: Action, id: JobId)
    requires s in SAFE && DeadOK(s) && StuckNow(s, id) && RowWrite(s, a).Some?
    ensures RowWrite(s, a).value.0.id != id
  {
    hide SAFE, Holds, LegalWrite, Count, Carries, CcOK, JcOK, RowsOK, TasksUnique, DeadOK;
    NothingInCirculation(s, id);
    AbandonedNotHeld(s, id);
    AbandonedNotExhausted(s, id);
    RowWriteLegal(s, a);
    SafeParts(s);
    ConsumerSaves(s, a);
    if a.ApiCompensate? {
      CompensatesOwn(s, a.id);
    }
  }

  // How the positions move

  lemma ApiCalls(s: State, a: Action, id: JobId)
    requires id in s.rows && id in s.calls && s.calls[id].Ended?
    ensures id in ApiStep(s, a).calls && ApiStep(s, a).calls[id].Ended?
  {
    hide Written, Validate, Normalized, ValidateRequest, MarkedFailed, Pushed, GetJob, Owns;
  }

  lemma ProcessorLeavesCalls(s: State, a: Action)
    ensures ProcessorStep(s, a).calls == s.calls
  {
    hide Written, WriteResult, AfterGeneration, AfterJobError, GetJob;
  }

  lemma ExhaustedLeavesCalls(s: State, a: Action)
    ensures ExhaustedStep(s, a).calls == s.calls
  {
    hide Written, MarkedFailed, GetJob;
  }

  lemma QueuesLeaveCalls(s: State, a: Action)
    ensures JobQueueStep(s, a).calls == s.calls && CallbackQueueStep(s, a).calls == s.calls
  {
    hide Recovered, Reserved, AckSent, Removed, Republished;
  }

  lemma PollLeavesCalls(s: State, a: Action)
    ensures PollStep(s, a).calls == s.calls && DoWorkerCrash(s).calls == s.calls
  {
    hide Pushed, FromDetails, AfterCheck, GetJob, Crashed, Stopped;
  }

  lemma HandlerLeavesCalls(s: State, a: Action)
    ensures HandlerStep(s, a).calls == s.calls
  {
    hide Written, WriteResult, AfterLookup, AfterCbError, BuildTrack, MarkedReady, GetJobByTask, Stored, Rejected;
    hide AfterSaveReady, AfterSaveFailed;
  }

  lemma EndedStays(s: State, a: Action, id: JobId)
    requires id in s.rows && id in s.calls && s.calls[id].Ended?
    ensures id in Step(s, a).calls && Step(s, a).calls[id].Ended?
  {
    hide ApiStep, ProcessorStep, ExhaustedStep, JobQueueStep, HandlerStep, CallbackQueueStep, PollStep, DoWorkerCrash;
    ApiCalls(s, a, id);
    ProcessorLeavesCalls(s, a);
    ExhaustedLeavesCalls(s, a);
    QueuesLeaveCalls(s, a);
    PollLeavesCalls(s, a);
    HandlerLeavesCalls(s, a);
  }

  lemma ExhaustedKeepsAim(s: State, a: Action, id: JobId)
    requires RowsOK(s.rows) && BeingExhausted(ExhaustedStep(s, a).jc, id)
    ensures BeingExhausted(s.jc, id)
  {
    hide Written, MarkedFailed, WellFormed;
  }

  lemma QueueStartsExhausting(s: State, a: Action, id: JobId)
    requires BeingExhausted(JobQueueStep(s, a).jc, id)
    ensures BeingExhausted(s.jc, id) || (s.jobs.hand.InGap? && s.jobs.hand.msg.body == id)
  {
    hide Recovered, Reserved, AckSent, Removed, Republished;
  }

  lemma ExhaustingComesFrom(s: State, a: Action, id: JobId)
    requires s in SAFE && BeingExhausted(Step(s, a).jc, id)
    ensures BeingExhausted(s.jc, id) || (s.jobs.hand.InGap? && s.jobs.hand.msg.body == id)
  {
    hide SAFE, ApiStep, ProcessorStep, ExhaustedStep, JobQueueStep, HandlerStep, CallbackQueueStep, PollStep, RowsOK;
    SafeQueue(s);
    ApiLeavesConsumers(s, a);
    PollLeavesConsumers(s, a);
    HandlerLeavesJobConsumer(s, a);
    CallbackQueueLeavesJobConsumer(s, a);
    ProcessorNeverExhausts(s, a);
    if By(a) == Exhausted {
      ExhaustedKeepsAim(s, a, id);
    } else if By(a) == JobQueue {
      QueueStartsExhausting(s, a, id);
    }
  }

  lemma CallsAreRows(s: State)
    requires s in SAFE
    ensures s.calls.Keys == s.rows.Keys
  {
  }

  lemma AbandonedStays(s: State, a: Action, id: JobId)
    requires s in SAFE && Step(s, a) in SAFE && StuckNow(s, id) && id in Step(s, a).rows
    ensures Abandoned(Step(s, a), id)
  {
    hide SAFE, Step, Count, Carries;
    var s' := Step(s, a);
    CallsAreRows(s');
    AbandonedNotHeld(s, id);
    StepGrows(s, a, id);
    if s.calls[id].Ended? {
      EndedStays(s, a, id);
    } else if BeingExhausted(s'.jc, id) {
      ExhaustingComesFrom(s, a, id);
    }
  }

  lemma StuckHas(s: State, id: JobId)
    requires StuckNow(s, id)
    ensures id in s.rows
  {
  }

  lemma StuckAgain(s: State, s': State, id: JobId)
    requires StuckNow(s, id) && id in s'.rows && s'.rows[id] == s.rows[id] && Abandoned(s', id)
    ensures StuckNow(s', id)
  {
  }

  lemma StuckStep(s: State, a: Action, id: JobId)
    requires s in SAFE && DeadOK(s) && StuckNow(s, id)
    ensures StuckNow(Step(s, a), id) && Step(s, a).rows[id] == s.rows[id]
  {
    hide *;
    StuckHas(s, id);
    StepRows(s, a);
    if RowWrite(s, a).Some? {
      AbandonedNotSaved(s, a, id);
    }
    RowsAfterOther(s, a, id);
    StepKeeps(s, a);
    AbandonedStays(s, a, id);
    StuckAgain(s, Step(s, a), id);
  }

  lemma {:induction false} StuckFrom(s: State, acts: seq<Action>, id: JobId)
    requires s in SAFE && DeadOK(s) && StuckNow(s, id)
    ensures StuckNow(Exec(s, acts), id) && Exec(s, acts).rows[id] == s.rows[id]
    decreases |acts|
  {
    if acts != [] {
      hide SAFE, Step, DeadOK, Abandoned;
      StuckStep(s, acts[0], id);
      DeadKept(s, acts[0]);
      StepKeeps(s, acts[0]);
      StuckFrom(Step(s, acts[0]), acts[1..], id);
    }
  }

  /** An abandoned queued job keeps its row, column by column, in every further run, restarts included. */
  lemma AbandonedStaysQueued(s: State, acts: seq<Action>, id: JobId)
    requires Reachable(s) && StuckNow(s, id)
    ensures StuckNow(Exec(s, acts), id) && Exec(s, acts).rows[id] == s.rows[id]
  {
    hide SAFE, DeadOK, Exec;
    ReachableDead(s);
    StuckFrom(s, acts, id);
  }

  // Lost messages

  /** The message of a job is lost while its row is still queued. */
  predicate Stranded(s: State, id: JobId) {
    id in s.rows && s.rows[id].status == Queued && Count(s.jobs.lost, id) > 0
  }

  lemma {:induction false} LostStays(s: State, acts: seq<Action>, id: JobId)
    requires s in SAFE
    ensures Count(Exec(s, acts).jobs.lost, id) >= Count(s.jobs.lost, id)
    decreases |acts|
  {
    hide SAFE, Step, Count;
    if acts != [] {
      StepGrows(s, acts[0], id);
      StepKeeps(s, acts[0]);
      LostStays(Step(s, acts[0]), acts[1..], id);
    }
  }

  /** A queued job whose message is lost stays exactly as it is in every further run, restarts included. */
  lemma LostJobStaysQueued(s: State, acts: seq<Action>, id: JobId)
    requires Reachable(s) && Stranded(s, id)
    ensures Stranded(Exec(s, acts), id) && Exec(s, acts).rows[id] == s.rows[id]
  {
    hide SAFE, Exec, Count;
    ReachableInv(s);
    CallsAreRows(s);
    AbandonedStaysQueued(s, acts, id);
    LostStays(s, acts, id);
  }

  // Every other queued job can leave

  ghost predicate QueuedAfter(s: State, acts: seq<Action>, id: JobId) {
    id in Exec(s, acts).rows && Exec(s, acts).rows[id].status == Queued
  }

  /** Some run takes the job out of the queue. */
  ghost predicate CanLeave(s: State, id: JobId) {
    exists acts: seq<Action> :: !QueuedAfter(s, acts, id)
  }

  lemma LeavesNow(s: State, a: Action, id: JobId)
    requires id !in Step(s, a).rows || Step(s, a).rows[id].status != Queued
    ensures CanLeave(s, id)
  {
    hide Step;
    ExecCons(s, a, []);
    ExecNil(Step(s, a));
    assert !QueuedAfter(s, [a] + [], id);
  }

  lemma LeavesLater(s: State, a: Action, id: JobId)
    requires CanLeave(Step(s, a), id)
    ensures CanLeave(s, id)
  {
    hide Step, Exec;
    var acts: seq<Action> :| !QueuedAfter(Step(s, a), acts, id);
    ExecCons(s, a, acts);
    assert !QueuedAfter(s, [a] + acts, id);
  }

  /** A queued row has no task id, so nothing stands in the way of saving it. */
  lemma SaveLands(rows: Rows, j: Job)
    requires RowsOK(rows) && j.id in rows && rows[j.id].status == Queued && SameCore(rows[j.id], j)
    ensures Written(rows, j, WrittenRead) == rows[j.id := j]
  {
    assert Patched(rows[j.id], j) == j;
  }

  // An unfinished create call

  lemma CallIs(s: State, id: JobId)
    requires s in SAFE && id in s.rows
    ensures id in s.calls && CallOK(s.rows[id], s.calls[id], Times(s.jobs.sent, id))
  {
  }

  lemma CompensationLeaves(s: State, id: JobId)
    requires s in SAFE && id in s.rows && id in s.calls && s.calls[id].EnqueueFailed?
    ensures CanLeave(s, id)
  {
    hide SAFE, CanLeave, Written, WellFormed, Times;
    var a := ApiCompensate(id, WrittenRead);
    CallIs(s, id);
    CompensatesOwn(s, id);
    SafeQueue(s);
    SaveLands(s.rows, s.calls[id].next);
    StepIs(s, a);
    hide Step, RowsOK, HandAgrees;
    LeavesNow(s, a, id);
  }

  lemma EnqueueFails(s: State, id: JobId)
    requires id in s.rows && id in s.calls && s.calls[id].Created? && s.calls[id].copy.status == Queued
    ensures var s' := Step(s, ApiEnqueue(id, false, 0, ""));
            s'.rows == s.rows && id in s'.calls && s'.calls[id].EnqueueFailed?
  {
    StepIs(s, ApiEnqueue(id, false, 0, ""));
    hide Step;
  }

  lemma FailedEnqueueLeaves(s: State, id: JobId)
    requires s in SAFE && id in s.rows && id in s.calls && s.calls[id].Created?
    ensures CanLeave(s, id)
  {
    hide Step, CanLeave, SAFE, Times, WellFormed;
    var a := ApiEnqueue(id, false, 0, "");
    CallIs(s, id);
    EnqueueFails(s, id);
    StepKeeps(s, a);
    CompensationLeaves(Step(s, a), id);
    LeavesLater(s, a, id);
  }

  lemma ReadsBack(s: State, id: JobId)
    requires id in s.rows && id in s.calls && s.calls[id].Inserted?
    ensures var s' := Step(s, ApiReadBack(id, true)); s'.rows == s.rows && id in s'.calls && s'.calls[id].Created?
  {
    StepIs(s, ApiReadBack(id, true));
    hide Step;
  }

  lemma ReadBackLeaves(s: State, id: JobId)
    requires s in SAFE && id in s.rows && id in s.calls && s.calls[id].Inserted?
    ensures CanLeave(s, id)
  {
    hide Step, CanLeave, SAFE;
    var a := ApiReadBack(id, true);
    ReadsBack(s, id);
    StepKeeps(s, a);
    FailedEnqueueLeaves(Step(s, a), id);
    LeavesLater(s, a, id);
  }

  // A dead letter that is being exhausted

  lemma ExhaustSaveLeaves(s: State, id: JobId)
    requires s in SAFE && id in s.rows && s.rows[id].status == Queued && s.jc.JExhaustSave? && s.jc.base.id == id
    ensures CanLeave(s, id)
  {
    hide SAFE, CanLeave, Written, WellFormed, CcOK;
    var a := ExhaustSave(WrittenRead);
    SafeParts(s);
    SaveLands(s.rows, s.jc.next);
    StepIs(s, a);
    hide Step, RowsOK, TasksUnique;
    LeavesNow(s, a, id);
  }

  lemma ExhaustReads(s: State, id: JobId)
    requires id in s.rows && s.rows[id].id == id && s.rows[id].status == Queued && s.jc == JExhaust(id)
    ensures var s' := Step(s, ExhaustGet(true, 0, ""));
            s'.rows == s.rows && s'.jc.JExhaustSave? && s'.jc.base.id == id
  {
    StepIs(s, ExhaustGet(true, 0, ""));
    hide Step, TrimSpace, ExhaustedMessage;
  }

  lemma RowKeyed(s: State, id: JobId)
    requires s in SAFE && id in s.rows
    ensures s.rows[id].id == id
  {
  }

  lemma ExhaustGetLeaves(s: State, id: JobId)
    requires s in SAFE && id in s.rows && s.rows[id].status == Queued && s.jc == JExhaust(id)
    ensures CanLeave(s, id)
  {
    hide Step, CanLeave, SAFE;
    var a := ExhaustGet(true, 0, "");
    RowKeyed(s, id);
    ExhaustReads(s, id);
    StepKeeps(s, a);
    ExhaustSaveLeaves(Step(s, a), id);
    LeavesLater(s, a, id);
  }

  // A message that is delivered: the provider refuses the job, and the refusal is saved.

  const REFUSAL: Generation := GenerationFailed(Api(false))

  lemma RefusalSaveLeaves(s: State, id: JobId)
    requires s in SAFE && s.jc.JMarkFailed? && s.jc.base.id == id
    ensures CanLeave(s, id)
  {
    hide SAFE, CanLeave, Written, WellFormed, CcOK, WriteResult, JobRequeue;
    var a := JobSaveFailed(WrittenRead);
    SafeParts(s);
    SaveLands(s.rows, s.jc.next);
    StepIs(s, a);
    hide Step, RowsOK, TasksUnique;
    LeavesNow(s, a, id);
  }

  lemma RefusalGenerated(s: State)
    requires s.jc.JRead? && s.jc.base.status == Queued
    ensures var s' := Step(s, JobGenerate(REFUSAL, 0, ""));
            s'.rows == s.rows && s'.jc.JMarkFailed? && s'.jc.base == s.jc.base
  {
    StepIs(s, JobGenerate(REFUSAL, 0, ""));
    hide Step, TrimSpace;
  }

  lemma ReadLeaves(s: State, id: JobId)
    requires s in SAFE && s.jc.JRead? && s.jc.base.id == id && s.jc.base.status == Queued
    ensures CanLeave(s, id)
  {
    hide Step, CanLeave, SAFE;
    var a := JobGenerate(REFUSAL, 0, "");
    RefusalGenerated(s);
    StepKeeps(s, a);
    RefusalSaveLeaves(Step(s, a), id);
    LeavesLater(s, a, id);
  }

  lemma RowRead(s: State, id: JobId)
    requires id in s.rows && s.rows[id].status == Queued && s.jc == JGot(id)
    ensures Step(s, JobGet(true)) == s.(jc := JRead(s.rows[id]))
  {
    StepIs(s, JobGet(true));
    hide Step;
  }

  lemma GotLeaves(s: State, id: JobId)
    requires s in SAFE && id in s.rows && s.rows[id].status == Queued && s.jc == JGot(id)
    ensures CanLeave(s, id)
  {
    hide Step, CanLeave, SAFE;
    var a := JobGet(true);
    RowKeyed(s, id);
    RowRead(s, id);
    StepKeeps(s, a);
    ReadLeaves(Step(s, a), id);
    LeavesLater(s, a, id);
  }

  lemma DequeueStep(s: State)
    requires s.jc == JQueue && s.jobs.hand.Idle? && s.jobs.main != []
    ensures Step(s, JobDequeue) == s.(jobs := Reserved(s.jobs), jc := JGot(Last(s.jobs.main).msg.body))
    ensures Reserved(s.jobs).hand.Holding? && Reserved(s.jobs).main == Init(s.jobs.main)
    ensures |Reserved(s.jobs).processing| == 1 + |s.jobs.processing|
            && Reserved(s.jobs).processing[0].msg == Last(s.jobs.main).msg
  {
    StepIs(s, JobDequeue);
    hide Step;
  }

  lemma TopLeaves(s: State, id: JobId)
    requires s in SAFE && id in s.rows && s.rows[id].status == Queued
    requires s.jc == JQueue && s.jobs.hand.Idle? && s.jobs.main != [] && Last(s.jobs.main).msg.body == id
    ensures CanLeave(s, id)
  {
    hide Step, CanLeave, SAFE, Reserved;
    DequeueStep(s);
    StepKeeps(s, JobDequeue);
    GotLeaves(Step(s, JobDequeue), id);
    LeavesLater(s, JobDequeue, id);
  }

  // A message deeper in main: restarts bring the messages above it to the other end.

  lemma CrashStep(s: State)
    ensures Step(s, WorkerCrash) == DoWorkerCrash(s)
  {
    hide ApiStep, ProcessorStep, ExhaustedStep, JobQueueStep, HandlerStep, CallbackQueueStep, PollStep, DoWorkerCrash;
  }

  lemma Crashes(s: State)
    ensures var s' := Step(s, WorkerCrash);
            && s'.rows == s.rows && s'.jc == JQueue && s'.jobs.hand.Recovering?
            && s'.jobs.main == s.jobs.main && s'.jobs.processing == s.jobs.processing
  {
    hide Step;
    CrashStep(s);
  }

  lemma RecoverStep(s: State)
    requires s.jc == JQueue && s.jobs.hand.Recovering?
    ensures Step(s, JobRecover(true)) == s.(jobs := Recovered(s.jobs, true))
  {
    StepIs(s, JobRecover(true));
    hide Step, Recovered;
  }

  /** How many elements are to the right of index i. */
  function Above<T>(cells: seq<T>, i: nat): nat
    requires i < |cells|
  {
    |cells| - 1 - i
  }

  lemma {:induction false} IdleLeaves(s: State, id: JobId, i: nat)
    requires s in SAFE && id in s.rows && s.rows[id].status == Queued
    requires s.jc == JQueue && s.jobs.hand.Idle? && s.jobs.processing == []
    requires i < |s.jobs.main| && s.jobs.main[i].msg.body == id
    ensures CanLeave(s, id)
    decreases Above(s.jobs.main, i)
  {
    hide Step, CanLeave, SAFE;
    if i == |s.jobs.main| - 1 {
      TopLeaves(s, id);
    } else {
      var s1 := Step(s, JobDequeue);
      var s2 := Step(s1, WorkerCrash);
      var s3 := Step(s2, JobRecover(true));
      var s4 := Step(s3, JobRecover(true));
      DequeueStep(s);
      Crashes(s1);
      RecoverStep(s2);
      RecoverStep(s3);
      StepKeeps(s, JobDequeue);
      StepKeeps(s1, WorkerCrash);
      StepKeeps(s2, JobRecover(true));
      StepKeeps(s3, JobRecover(true));
      hide Reserved;
      assert s4.jobs.main[i + 1].msg == s.jobs.main[i].msg;
      IdleLeaves(s4, id, i + 1);
      LeavesLater(s3, JobRecover(true), id);
      LeavesLater(s2, JobRecover(true), id);
      LeavesLater(s1, WorkerCrash, id);
      LeavesLater(s, JobDequeue, id);
    }
  }

  /** A message in one of the two lists comes to main when the consumer recovers. */
  lemma {:induction false} RecoveringLeaves(s: State, id: JobId)
    requires s in SAFE && id in s.rows && s.rows[id].status == Queued
    requires s.jc == JQueue && s.jobs.hand.Recovering?
    requires Count(s.jobs.main, id) + Count(s.jobs.processing, id) > 0
    ensures CanLeave(s, id)
    decreases |s.jobs.processing|
  {
    hide Step, CanLeave, SAFE;
    var s' := Step(s, JobRecover(true));
    RecoverStep(s);
    StepKeeps(s, JobRecover(true));
    if s.jobs.processing == [] {
      CountPositive(s.jobs.main, id);
      var i :| 0 <= i < |s.jobs.main| && s.jobs.main[i].msg.body == id;
      IdleLeaves(s', id, i);
    } else {
      var c := Last(s.jobs.processing);
      CountInit(s.jobs.processing, id);
      CountEnds(s.jobs.main, c.(recoveries := c.recoveries + 1), id);
      hide Count;
      RecoveringLeaves(s', id);
    }
    LeavesLater(s, JobRecover(true), id);
  }

  lemma ListedLeaves(s: State, id: JobId)
    requires s in SAFE && id in s.rows && s.rows[id].status == Queued
    requires Count(s.jobs.main, id) + Count(s.jobs.processing, id) > 0
    ensures CanLeave(s, id)
  {
    hide Step, CanLeave, SAFE, Count;
    Crashes(s);
    StepKeeps(s, WorkerCrash);
    RecoveringLeaves(Step(s, WorkerCrash), id);
    LeavesLater(s, WorkerCrash, id);
  }

  // A message in the retry gap

  lemma Pushes(s: State, id: JobId)
    requires s.jc == JGap && s.jobs.hand.InGap? && s.jobs.gap.Some?
    requires s.jobs.gap.value.msg == s.jobs.hand.msg && s.jobs.hand.msg.body == id
    ensures var s' := Step(s, JobRepublish(true));
            s'.rows == s.rows && (s'.jc == JExhaust(id) || Count(s'.jobs.main, id) > 0)
  {
    StepIs(s, JobRepublish(true));
    CountEnds(s.jobs.main, Retried(s.jobs.gap.value), id);
    hide Step, Count;
  }

  lemma GapIs(s: State)
    requires s in SAFE && s.jobs.gap.Some?
    ensures s.jc == JGap && s.jobs.hand.InGap? && s.jobs.gap.value.msg == s.jobs.hand.msg
  {
  }

  lemma GapLeaves(s: State, id: JobId)
    requires s in SAFE && id in s.rows && s.rows[id].status == Queued
    requires s.jobs.gap.Some? && s.jobs.gap.value.msg.body == id
    ensures CanLeave(s, id)
  {
    hide Step, CanLeave, SAFE, Count;
    var a := JobRepublish(true);
    GapIs(s);
    Pushes(s, id);
    StepKeeps(s, a);
    if Step(s, a).jc == JExhaust(id) {
      ExhaustGetLeaves(Step(s, a), id);
    } else {
      ListedLeaves(Step(s, a), id);
    }
    LeavesLater(s, a, id);
  }

  // The exact condition

  /** A queued job that is not abandoned is in one of the places treated above. */
  lemma NotAbandoned(s: State, id: JobId)
    requires s in SAFE && id in s.rows && s.rows[id].status == Queued && !Abandoned(s, id)
    ensures id in s.calls && !s.calls[id].Ended?
    ensures s.calls[id].Done? ==>
              || Count(s.jobs.main, id) + Count(s.jobs.processing, id) > 0
              || (s.jobs.gap.Some? && s.jobs.gap.value.msg.body == id)
              || BeingExhausted(s.jc, id)
  {
    assert Total(s.jobs, id) == Times(s.jobs.sent, id);
    if Count(s.jobs.acked, id) > 0 {
      CountPositive(s.jobs.acked, id);
    }
  }

  lemma NotAbandonedLeaves(s: State, id: JobId)
    requires s in SAFE && id in s.rows && s.rows[id].status == Queued && !Abandoned(s, id)
    ensures CanLeave(s, id)
  {
    NotAbandoned(s, id);
    hide CanLeave, SAFE, Count, Abandoned;
    match s.calls[id] {
      case Inserted => ReadBackLeaves(s, id);
      case Created(_) => FailedEnqueueLeaves(s, id);
      case EnqueueFailed(_) => CompensationLeaves(s, id);
      case Done =>
        if Count(s.jobs.main, id) + Count(s.jobs.processing, id) > 0 {
          ListedLeaves(s, id);
        } else if s.jobs.gap.Some? && s.jobs.gap.value.msg.body == id {
          GapLeaves(s, id);
        } else if s.jc.JExhaust? {
          ExhaustGetLeaves(s, id);
        } else {
          ExhaustSaveLeaves(s, id);
        }
      case Ended =>
    }
  }

  /**
    A queued job stays queued in every further run if and only if its create call ended without an enqueue,
    its message is lost, or its message is dead and `Exhausted` is done with it.
    */
  lemma QueuedForeverIff(s: State, id: JobId)
    requires Reachable(s) && id in s.rows && s.rows[id].status == Queued
    ensures (forall acts :: QueuedAfter(s, acts, id)) <==> Abandoned(s, id)
  {
    hide SAFE, Abandoned, Exec, QueuedAfter;
    ReachableInv(s);
    if Abandoned(s, id) {
      forall acts: seq<Action> ensures QueuedAfter(s, acts, id) {
        AbandonedStaysQueued(s, acts, id);
        StaysQueued(s, acts, id);
      }
    } else {
      NotAbandonedLeaves(s, id);
    }
  }

  lemma StaysQueued(s: State, acts: seq<Action>, id: JobId)
    requires StuckNow(Exec(s, acts), id)
    ensures QueuedAfter(s, acts, id)
  {
    hide Exec, Abandoned;
  }
}
