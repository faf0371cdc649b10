/**
  What becomes of a job whose message left circulation: a lost message leaves its queued job queued for
  ever, and only a dead-lettered message lets an exact final status change.
  */
module DeadLetters {
  import opened Errors
  import opened Jobs
  import opened JobStore
  import opened Callbacks
  import opened Tracks
  import opened QueueProtocol
  import opened Pipeline
  import opened PipelineInv
  import opened PipelineTheorems
  import opened QueueLinks

  // Lists that only grow

  lemma DeadAndLostGrow<T>(q: Queue<T>, a: Act<T>, b: T)
    ensures Count(Next(q, a).dlq, b) >= Count(q.dlq, b) && Count(Next(q, a).lost, b) >= Count(q.lost, b)
  {
    if q.gap.Some? {
      CountEnds(q.lost, q.gap.value, b);
      CountEnds(q.dlq, Retried(q.gap.value), b);
    }
  }

  lemma StepGrows(s: State, a: Action, id: JobId)
    requires s in SAFE
    ensures Count(Step(s, a).jobs.dlq, id) >= Count(s.jobs.dlq, id)
    ensures Count(Step(s, a).jobs.lost, id) >= Count(s.jobs.lost, id)
  {
    hide SAFE, Step, JobAct, Next, Count;
    JobStepProjects(s, a);
    JobActShort(s, a);
    if JobAct(s, a) != [] {
      DeadAndLostGrow(s.jobs, JobAct(s, a)[0], id);
    }
  }

  // The consumer calls `Exhausted` only for dead letters

  ghost predicate ExhaustDead(dlq: seq<Cell<JobId>>, jc: JobPc) {
    && (jc.JExhaust? ==> Count(dlq, jc.id) > 0)
    && (jc.JExhaustSave? ==> Count(dlq, jc.base.id) > 0)
  }

  predicate Exhausting(jc: JobPc) {
    jc.JExhaust? || jc.JExhaustSave?
  }

  lemma ProcessorNeverExhausts(s: State, a: Action)
    ensures if Exhausting(s.jc) then ProcessorStep(s, a) == s else !Exhausting(ProcessorStep(s, a).jc)
  {
    hide Written, WriteResult, MarkedFailed, MarkedProcessing, JobRequeue;
  }

  lemma ExhaustedKeepsJob(s: State, a: Action)
    requires RowsOK(s.rows) && ExhaustDead(s.jobs.dlq, s.jc)
    ensures ExhaustDead(s.jobs.dlq, ExhaustedStep(s, a).jc)
  {
    hide Written, MarkedFailed, Count, WellFormed;
  }

  lemma QueueDeadLetters(s: State, a: Action)
    requires ExhaustDead(s.jobs.dlq, s.jc) && HandAgrees(s.jobs)
    ensures ExhaustDead(JobQueueStep(s, a).jobs.dlq, JobQueueStep(s, a).jc)
  {
    if a.JobRepublish? && s.jobs.gap.Some? {
      var c := Retried(s.jobs.gap.value);
      CountEnds(s.jobs.dlq, c, c.msg.body);
    }
    hide Count, Recovered, Find;
  }

  lemma SafeQueue(s: State)
    requires s in SAFE
    ensures RowsOK(s.rows) && HandAgrees(s.jobs)
  {
  }

  lemma DlqElsewhere(s: State, a: Action)
    requires s in SAFE && By(a) != JobQueue
    ensures Step(s, a).jobs.dlq == s.jobs.dlq
  {
    hide SAFE, Step;
    JobStepProjects(s, a);
  }

  lemma ExhaustStaysDead(s: State, a: Action)
    requires s in SAFE && ExhaustDead(s.jobs.dlq, s.jc)
    ensures ExhaustDead(Step(s, a).jobs.dlq, Step(s, a).jc)
  {
    hide ApiStep, ProcessorStep, ExhaustedStep, JobQueueStep, HandlerStep, CallbackQueueStep, PollStep, By, SAFE;
    SafeQueue(s);
    hide HandAgrees, RowsOK;
    if By(a) == JobQueue {
      QueueDeadLetters(s, a);
    } else {
      DlqElsewhere(s, a);
      ApiLeavesConsumers(s, a);
      PollLeavesConsumers(s, a);
      HandlerLeavesJobConsumer(s, a);
      CallbackQueueLeavesJobConsumer(s, a);
      ProcessorNeverExhausts(s, a);
      ExhaustedKeepsJob(s, a);
    }
  }

  // A stale copy of the callback consumer

  predicate Copying(cc: CbPc) {
    cc.CBuild? || cc.CStore? || cc.CReady?
  }

  /** The row became failed behind the back of a complete callback only if its message is dead. */
  ghost predicate CopyDead(rows: Rows, dlq: seq<Cell<JobId>>, cc: CbPc) {
    Copying(cc) && cc.base.status == Processing && cc.base.id in rows && rows[cc.base.id].status == Failed ==>
      Count(dlq, cc.base.id) > 0
  }

  lemma QueueStepsMakeNoCopy(s: State, a: Action)
    ensures var c := CallbackQueueStep(s, a).cc; Copying(c) ==> c == s.cc
  {
    hide Recovered, Reserved, AckSent, Removed, Republished;
  }

  lemma LookupCopies(s: State, a: Action)
    requires RowsOK(s.rows) && a.CbLookup?
    ensures var c := HandlerStep(s, a).cc;
            Copying(c) ==> if s.cc.CGot? then c.base.id in s.rows && s.rows[c.base.id] == c.base else c == s.cc
  {
    hide CallbackRequeue, WellFormed, MarkedFailed;
  }

  lemma HandlerCopies(s: State, a: Action)
    requires !a.CbLookup?
    ensures var c := HandlerStep(s, a).cc;
            Copying(c) ==> Copying(s.cc) && c.base == s.cc.base && !(a.CbSaveFailed? && s.cc.CFail?)
  {
    hide Written, WriteResult, CallbackRequeue, BuildTrack, Stored, Rejected, MarkedReady;
  }

  /** Who fails a row that has a task id: `Exhausted`, or an error callback. */
  lemma RowTurnsFailed(s: State, a: Action, id: JobId)
    requires s in SAFE && id in s.rows && s.rows[id].status != Queued && s.rows[id].status != Failed
    requires id in RowsAfter(s, a) && RowsAfter(s, a)[id].status == Failed
    ensures (a.ExhaustSave? && s.jc.JExhaustSave? && s.jc.base.id == id) || (a.CbSaveFailed? && s.cc.CFail?)
  {
    hide SAFE, RowsAfter;
    if RowWrite(s, a).None? {
      NoSaveNoOverwrite(s, a, id);
    } else {
      RowWriteLegal(s, a);
      hide LegalWrite;
      if RowWrite(s, a).value.0.id != id {
        RowsAfterOther(s, a, id);
      } else {
        SafeParts(s);
        SavedStatus(s, a);
        SaveIsWritten(s, a);
        WrittenStatus(s.rows, RowWrite(s, a).value.0, RowWrite(s, a).value.1);
      }
    }
  }

  lemma WrittenStatus(rows: Rows, j: Job, how: WriteOutcome)
    requires j.id in rows
    ensures j.id in Written(rows, j, how)
    ensures Written(rows, j, how)[j.id].status == rows[j.id].status || Written(rows, j, how)[j.id].status == j.status
  {
    hide Writable;
  }

  lemma CopiedRow(s: State)
    requires s in SAFE && Copying(s.cc)
    ensures s.cc.base.id in s.rows && s.rows[s.cc.base.id].status != Queued
  {
  }

  lemma CopyOrigin(s: State, a: Action)
    requires s in SAFE && Copying(Step(s, a).cc)
    ensures var c := Step(s, a).cc;
            if By(a) == Handler && a.CbLookup? && s.cc.CGot? then
              RowWrite(s, a).None? && c.base.id in s.rows && s.rows[c.base.id] == c.base
            else
              Copying(s.cc) && c.base == s.cc.base && !(a.CbSaveFailed? && s.cc.CFail?)
  {
    hide ApiStep, ProcessorStep, ExhaustedStep, JobQueueStep, HandlerStep, CallbackQueueStep, PollStep, SAFE;
    SafeQueue(s);
    hide RowsOK, HandAgrees;
    QueueStepsMakeNoCopy(s, a);
    ApiLeavesConsumers(s, a);
    PollLeavesConsumers(s, a);
    ProcessorLeavesCallbackConsumer(s, a);
    JobQueueLeavesCallbackConsumer(s, a);
    if a.CbLookup? {
      LookupCopies(s, a);
    } else {
      HandlerCopies(s, a);
    }
  }

  lemma CopyStaysDead(s: State, a: Action)
    requires s in SAFE && ExhaustDead(s.jobs.dlq, s.jc) && CopyDead(s.rows, s.jobs.dlq, s.cc)
    ensures CopyDead(Step(s, a).rows, Step(s, a).jobs.dlq, Step(s, a).cc)
  {
    hide SAFE, Step, RowsAfter, By, RowWrite;
    var c := Step(s, a).cc;
    if Copying(c) {
      var id := c.base.id;
      StepRows(s, a);
      CopyOrigin(s, a);
      StepGrows(s, a, id);
      if a.CbLookup? && s.cc.CGot? {
        NoSaveNoOverwrite(s, a, id);
      } else {
        CopiedRow(s);
        if s.rows[id].status != Failed && id in RowsAfter(s, a) && RowsAfter(s, a)[id].status == Failed {
          RowTurnsFailed(s, a, id);
        }
      }
    }
  }

  // The exact final status

  ghost predicate DeadOK(s: State) {
    ExhaustDead(s.jobs.dlq, s.jc) && CopyDead(s.rows, s.jobs.dlq, s.cc)
  }

  lemma DeadKept(s: State, a: Action)
    requires s in SAFE && DeadOK(s)
    ensures DeadOK(Step(s, a))
  {
    hide SAFE, Step, ExhaustDead, CopyDead;
    ExhaustStaysDead(s, a);
    CopyStaysDead(s, a);
  }

  lemma {:induction false} DeadRun(s: State, acts: seq<Action>)
    requires s in SAFE && DeadOK(s)
    ensures DeadOK(Exec(s, acts)) && Exec(s, acts) in SAFE
    decreases |acts|
  {
    hide SAFE, Step, DeadOK;
    if acts != [] {
      DeadKept(s, acts[0]);
      StepKeeps(s, acts[0]);
      DeadRun(Step(s, acts[0]), acts[1..]);
    }
  }

  lemma ReachableDead(s: State)
    requires Reachable(s)
    ensures s in SAFE && DeadOK(s)
  {
    hide SAFE;
    StartInv();
    assert DeadOK(Start());
    hide DeadOK;
    var acts: seq<Action> :| Exec(Start(), acts) == s;
    DeadRun(Start(), acts);
  }

  lemma OverwriteNeedsDeadLetter(s: State, a: Action, id: JobId)
    requires s in SAFE && DeadOK(s) && StaleOverwrite(s, a, id)
    ensures Count(s.jobs.dlq, id) > 0
  {
    hide Count, WellFormed, StoredUpTo;
  }

  lemma StatusStep(s: State, a: Action, id: JobId)
    requires s in SAFE && DeadOK(s) && id in s.rows && Terminal(s.rows[id].status)
    ensures id in Step(s, a).rows && Terminal(Step(s, a).rows[id].status)
    ensures Step(s, a).rows[id].status != s.rows[id].status ==> Count(s.jobs.dlq, id) > 0
  {
    hide *;
    StepRows(s, a);
    RowsAfterStatus(s, a, id);
    StepFinal(s, a, id);
    if StaleOverwrite(s, a, id) {
      OverwriteNeedsDeadLetter(s, a, id);
    }
  }

  lemma StepFinal(s: State, a: Action, id: JobId)
    requires s in SAFE && id in s.rows && Terminal(s.rows[id].status)
    ensures id in Step(s, a).rows && Terminal(Step(s, a).rows[id].status)
  {
    hide SAFE, Step;
    StepForward(s, a);
  }

  lemma {:induction false} StatusFixedFrom(s: State, acts: seq<Action>, id: JobId)
    requires s in SAFE && DeadOK(s) && id in s.rows && Terminal(s.rows[id].status)
    requires Count(Exec(s, acts).jobs.dlq, id) == 0
    ensures id in Exec(s, acts).rows && Exec(s, acts).rows[id].status == s.rows[id].status
    ensures Count(s.jobs.dlq, id) == 0
    decreases |acts|
  {
    hide SAFE, Step, DeadOK;
    if acts != [] {
      var s' := Step(s, acts[0]);
      StatusStep(s, acts[0], id);
      DeadKept(s, acts[0]);
      StepKeeps(s, acts[0]);
      StepGrows(s, acts[0], id);
      StatusFixedFrom(s', acts[1..], id);
    }
  }

  /**
    As long as the message of a job has not been moved to the dead-letter list, the exact final status of
    the job is final over every interleaving of calls.
    */
  lemma StatusFixedUnlessDead(s: State, acts: seq<Action>, id: JobId)
    requires Reachable(s) && id in s.rows && Terminal(s.rows[id].status)
    requires Count(Exec(s, acts).jobs.dlq, id) == 0
    ensures id in Exec(s, acts).rows && Exec(s, acts).rows[id].status == s.rows[id].status
  {
    hide SAFE, DeadOK, Exec;
    ReachableDead(s);
    StatusFixedFrom(s, acts, id);
  }

  // Lost messages

  /** A message is lost in exactly two ways: a crash in the retry gap, and a failed push at its end. */
  lemma LostGrowsIff<T>(q: Queue<T>, a: Act<T>)
    requires HandAgrees(q)
    ensures |Next(q, a).lost| > |q.lost| <==> q.hand.InGap? && (a == Crash || a == Republish(false))
    ensures |Next(q, a).lost| > |q.lost| ==> Next(q, a).lost == q.lost + [q.gap.value]
  {
  }

  lemma JobLostIff(s: State, a: Action)
    requires Reachable(s)
    ensures |Step(s, a).jobs.lost| > |s.jobs.lost| <==>
              s.jobs.hand.InGap? && (a.WorkerCrash? || a == JobRepublish(false))
  {
    hide SAFE, Step, Next, RowsOK, HandAgrees, Reachable;
    ReachableInv(s);
    JobStepProjects(s, a);
    JobActShort(s, a);
    SafeConsumer(s);
    SafeQueue(s);
    if JobAct(s, a) != [] {
      LostGrowsIff(s.jobs, JobAct(s, a)[0]);
    }
  }

  lemma CallbackLostIff(s: State, a: Action)
    requires Reachable(s)
    ensures |Step(s, a).cbs.lost| > |s.cbs.lost| <==>
              s.cbs.hand.InGap? && (a.WorkerCrash? || a == CbRepublish(false))
  {
    hide SAFE, Step, Next, HandAgrees, ValidateRequest, Reachable;
    ReachableInv(s);
    CbStepProjects(s, a);
    CbActShort(s, a);
    SafeCallbacks(s);
    if CbAct(s, a) != [] {
      LostGrowsIff(s.cbs, CbAct(s, a)[0]);
    }
  }

  lemma SafeCallbacks(s: State)
    requires s in SAFE
    ensures HandAgrees(s.cbs) && (s.cbs.hand.InGap? ==> s.cc == CGap)
  {
  }

  /** Whose row the job consumer saves: the one its message is about, or that of the dead letter. */
  lemma ConsumerSaves(s: State, a: Action)
    requires JcOK(s.rows, s.jobs.hand, s.jc) && RowWrite(s, a).Some?
    ensures a.JobSave? || a.JobSaveFailed? ==> Carries(s.jobs.hand, RowWrite(s, a).value.0.id)
    ensures a.ExhaustSave? ==> s.jc.JExhaustSave? && RowWrite(s, a).value.0.id == s.jc.base.id
  {
    hide WellFormed;
  }
}
