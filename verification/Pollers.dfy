/** Which jobs are polled: a job gets at most one poller, when its start is reported, and never later. */
module Pollers {
  import opened Text
  import opened Errors
  import opened Jobs
  import opened JobStore
  import opened Callbacks
  import opened Tracks
  import opened QueueProtocol
  import opened Pipeline
  import opened PipelineInv
  import opened PipelineTheorems

  predicate Polled(ps: seq<Poller>, id: JobId) {
    exists i :: 0 <= i < |ps| && ps[i].id == id
  }

  predicate SameJobs(ps: seq<Poller>, qs: seq<Poller>) {
    |ps| == |qs| && forall i :: 0 <= i < |ps| ==> ps[i].id == qs[i].id
  }

  /** The publish that succeeds is the one call that starts a poller. */
  function Started(s: State, a: Action): Option<JobId> {
    if a.JobPublish? && a.ok && a.polling && s.jc.JPublish? && !Blank(s.jc.task) then Some(s.jc.id) else None
  }

  ghost predicate PollersFollow(ps: seq<Poller>, qs: seq<Poller>, started: Option<JobId>) {
    match started
    case None => SameJobs(ps, qs)
    case Some(id) => |qs| == |ps| + 1 && SameJobs(ps, qs[..|ps|]) && qs[|ps|].id == id
  }

  lemma ProcessorPollers(s: State, a: Action)
    requires By(a) == Processor
    ensures PollersFollow(s.pollers, ProcessorStep(s, a).pollers, Started(s, a))
  {
    hide Written, WriteResult, AfterGeneration, AfterJobError;
  }

  lemma PollStepPollers(s: State, a: Action)
    ensures SameJobs(s.pollers, PollStep(s, a).pollers) && SameJobs(s.pollers, DoWorkerCrash(s).pollers)
  {
    hide FromDetails, AfterCheck, Pushed, Crashed;
  }

  lemma ApiPollers(s: State, a: Action)
    ensures ApiStep(s, a).pollers == s.pollers
  {
    hide Written, Validate, Normalized, ValidateRequest, MarkedFailed, Pushed;
  }

  lemma QueuePollers(s: State, a: Action)
    ensures JobQueueStep(s, a).pollers == CallbackQueueStep(s, a).pollers == ExhaustedStep(s, a).pollers == s.pollers
  {
    hide Recovered, Reserved, AckSent, Removed, Republished, Written, MarkedFailed;
  }

  lemma HandlerPollers(s: State, a: Action)
    ensures HandlerStep(s, a).pollers == s.pollers
  {
    hide Written, WriteResult, AfterLookup, AfterCbError, BuildTrack, MarkedReady, GetJobByTask, Stored, Rejected;
  }

  lemma StepPollers(s: State, a: Action)
    ensures PollersFollow(s.pollers, Step(s, a).pollers, Started(s, a))
  {
    hide ApiStep, ProcessorStep, ExhaustedStep, JobQueueStep, HandlerStep, CallbackQueueStep, PollStep, DoWorkerCrash;
    ApiPollers(s, a);
    QueuePollers(s, a);
    HandlerPollers(s, a);
    PollStepPollers(s, a);
    if By(a) == Processor {
      ProcessorPollers(s, a);
    }
  }

  // The consumer on its way to a poller

  predicate Publishing(jc: JobPc, id: JobId) {
    jc.JPublish? && jc.id == id
  }

  /** It comes to the publish of a started task only by saving a row that was still queued. */
  lemma ProcessorPublishes(s: State, a: Action, id: JobId)
    requires By(a) == Processor && JcOK(s.rows, s.jobs.hand, s.jc) && RowsOK(s.rows)
    requires Publishing(ProcessorStep(s, a).jc, id)
    ensures (Publishing(s.jc, id) && Started(s, a).None?) || (id in s.rows && s.rows[id].status == Queued)
  {
    hide Written, JobRequeue, MarkedProcessing, MarkedFailed, WellFormed, Writable;
  }

  lemma QueueDoesNotPublish(s: State, a: Action, id: JobId)
    ensures Publishing(JobQueueStep(s, a).jc, id) || Publishing(ExhaustedStep(s, a).jc, id) ==> Publishing(s.jc, id)
    ensures !Publishing(DoWorkerCrash(s).jc, id)
  {
    hide Recovered, Reserved, AckSent, Removed, Republished, Written, MarkedFailed, GetJob, Crashed, Stopped;
  }

  lemma OthersDoNotPublish(s: State, a: Action, id: JobId)
    requires By(a) != Processor && Publishing(Step(s, a).jc, id)
    ensures Publishing(s.jc, id) && Started(s, a).None?
  {
    hide ApiStep, ProcessorStep, ExhaustedStep, JobQueueStep, HandlerStep, CallbackQueueStep, PollStep, DoWorkerCrash;
    ApiLeavesConsumers(s, a);
    PollLeavesConsumers(s, a);
    HandlerLeavesJobConsumer(s, a);
    CallbackQueueLeavesJobConsumer(s, a);
    QueueDoesNotPublish(s, a, id);
  }

  lemma SafeJobConsumer(s: State)
    requires s in SAFE
    ensures RowsOK(s.rows) && JcOK(s.rows, s.jobs.hand, s.jc)
  {
  }

  lemma PublishComesFrom(s: State, a: Action, id: JobId)
    requires s in SAFE && Publishing(Step(s, a).jc, id)
    ensures (Publishing(s.jc, id) && Started(s, a).None?) || (id in s.rows && s.rows[id].status == Queued)
  {
    hide SAFE, ProcessorStep, JcOK, RowsOK;
    SafeJobConsumer(s);
    if By(a) == Processor {
      ProcessorPublishes(s, a, id);
    } else {
      hide Step;
      OthersDoNotPublish(s, a, id);
    }
  }

  // Never later

  /** Past queued, without a poller, and not about to get one. */
  ghost predicate Unpolled(s: State, id: JobId) {
    id in s.rows && s.rows[id].status != Queued && !Polled(s.pollers, id) && !Publishing(s.jc, id)
  }

  lemma FollowPolled(ps: seq<Poller>, qs: seq<Poller>, started: Option<JobId>, id: JobId)
    requires PollersFollow(ps, qs, started)
    ensures Polled(qs, id) <==> Polled(ps, id) || started == Some(id)
  {
    if Polled(ps, id) {
      var i :| 0 <= i < |ps| && ps[i].id == id;
      assert qs[i].id == id;
    }
    if Polled(qs, id) {
      var i :| 0 <= i < |qs| && qs[i].id == id;
      assert i < |ps| ==> ps[i].id == id;
    }
  }

  lemma UnpolledStep(s: State, a: Action, id: JobId)
    requires s in SAFE && Unpolled(s, id)
    ensures Unpolled(Step(s, a), id)
  {
    hide SAFE, Step, Polled;
    StepPollers(s, a);
    FollowPolled(s.pollers, Step(s, a).pollers, Started(s, a), id);
    StepForward(s, a);
    if Publishing(Step(s, a).jc, id) {
      PublishComesFrom(s, a, id);
    }
  }

  lemma {:induction false} UnpolledFrom(s: State, acts: seq<Action>, id: JobId)
    requires s in SAFE && Unpolled(s, id)
    ensures Unpolled(Exec(s, acts), id)
    decreases |acts|
  {
    hide SAFE, Step, Unpolled;
    if acts != [] {
      UnpolledStep(s, acts[0], id);
      StepKeeps(s, acts[0]);
      UnpolledFrom(Step(s, acts[0]), acts[1..], id);
    }
  }

  /**
    A job that left the queue without a poller, and whose publish is not pending, is never polled, whatever
    is redelivered, restarted or retried.
    */
  lemma NeverPolledLater(s: State, acts: seq<Action>, id: JobId)
    requires Reachable(s) && id in s.rows && s.rows[id].status != Queued
    requires !Polled(s.pollers, id) && !Publishing(s.jc, id)
    ensures !Polled(Exec(s, acts).pollers, id)
  {
    hide SAFE, Exec;
    ReachableInv(s);
    UnpolledFrom(s, acts, id);
  }

  // Polling ends

  lemma ProcessorKeepsPollers(s: State, a: Action, p: nat)
    requires p < |s.pollers|
    ensures p < |ProcessorStep(s, a).pollers| && ProcessorStep(s, a).pollers[p] == s.pollers[p]
  {
    hide Written, WriteResult, AfterGeneration, AfterJobError, GetJob;
  }

  lemma StoppedPollStep(s: State, a: Action, p: nat)
    requires p < |s.pollers| && s.pollers[p].pc.PStopped?
    ensures PollStep(s, a).pollers[p] == s.pollers[p] == DoWorkerCrash(s).pollers[p]
  {
    hide FromDetails, AfterCheck, Pushed, Crashed, GetJob;
  }

  lemma StoppedStep(s: State, a: Action, p: nat)
    requires p < |s.pollers| && s.pollers[p].pc.PStopped?
    ensures p < |Step(s, a).pollers| && Step(s, a).pollers[p] == s.pollers[p]
  {
    hide ApiStep, ProcessorStep, ExhaustedStep, JobQueueStep, HandlerStep, CallbackQueueStep, PollStep, DoWorkerCrash;
    ApiPollers(s, a);
    QueuePollers(s, a);
    HandlerPollers(s, a);
    PollStepPollers(s, a);
    StoppedPollStep(s, a, p);
    ProcessorKeepsPollers(s, a, p);
  }

  lemma {:induction false} StoppedFrom(s: State, acts: seq<Action>, p: nat)
    requires p < |s.pollers| && s.pollers[p].pc.PStopped?
    ensures p < |Exec(s, acts).pollers| && Exec(s, acts).pollers[p] == s.pollers[p]
    decreases |acts|
  {
    hide Step;
    if acts != [] {
      StoppedStep(s, acts[0], p);
      StoppedFrom(Step(s, acts[0]), acts[1..], p);
    }
  }

  /** When the worker dies every poller ends with it, and a restart brings none back: it sends nothing more. */
  lemma CrashEndsPolling(s: State, later: seq<Action>, p: nat)
    requires p < |s.pollers|
    ensures var s' := Exec(Step(s, WorkerCrash), later);
            p < |s'.pollers| && s'.pollers[p] == s.pollers[p].(pc := PStopped)
  {
    hide Exec, Crashed;
    StoppedFrom(Step(s, WorkerCrash), later, p);
  }

  /** A poller that times out between two ticks sends nothing more. */
  lemma TimeoutEndsPolling(s: State, later: seq<Action>, p: nat)
    requires p < |s.pollers| && s.pollers[p].pc.PCheck?
    ensures var s' := Exec(Step(s, PollTimeout(p)), later);
            p < |s'.pollers| && s'.pollers[p] == s.pollers[p].(pc := PStopped)
  {
    hide Exec;
    StoppedFrom(Step(s, PollTimeout(p)), later, p);
  }

  // At most once

  ghost predicate PolledOnce(s: State) {
    && (forall i, j :: 0 <= i < j < |s.pollers| ==> s.pollers[i].id != s.pollers[j].id)
    && (forall i :: 0 <= i < |s.pollers| ==>
          s.pollers[i].id in s.rows && s.rows[s.pollers[i].id].status != Queued)
    && (s.jc.JPublish? ==> !Polled(s.pollers, s.jc.id))
  }

  lemma PublishingRow(s: State)
    requires s in SAFE && s.jc.JPublish?
    ensures s.jc.id in s.rows && s.rows[s.jc.id].status != Queued
  {
  }

  lemma DistinctFollow(ps: seq<Poller>, qs: seq<Poller>, started: Option<JobId>)
    requires PollersFollow(ps, qs, started)
    requires forall i, j :: 0 <= i < j < |ps| ==> ps[i].id != ps[j].id
    requires started.Some? ==> !Polled(ps, started.value)
    ensures forall i, j :: 0 <= i < j < |qs| ==> qs[i].id != qs[j].id
    ensures forall i :: 0 <= i < |qs| ==> (i < |ps| && qs[i].id == ps[i].id) || started == Some(qs[i].id)
  {
    assert forall i :: 0 <= i < |ps| ==> qs[i].id == ps[i].id;
  }

  lemma PolledOnceStep(s: State, a: Action)
    requires s in SAFE && PolledOnce(s)
    ensures PolledOnce(Step(s, a))
  {
    hide SAFE, Step;
    var s' := Step(s, a);
    StepPollers(s, a);
    StepForward(s, a);
    if s.jc.JPublish? {
      PublishingRow(s);
    }
    if Started(s, a).Some? {
      StartedRow(s, a);
    }
    DistinctFollow(s.pollers, s'.pollers, Started(s, a));
    if s'.jc.JPublish? {
      var id := s'.jc.id;
      PublishComesFrom(s, a, id);
      FollowPolled(s.pollers, s'.pollers, Started(s, a), id);
    }
    hide PollersFollow;
  }

  lemma StartedRow(s: State, a: Action)
    requires s in SAFE && Started(s, a).Some?
    ensures Started(s, a).value in s.rows && s.rows[Started(s, a).value].status != Queued
  {
  }

  lemma {:induction false} PolledOnceFrom(s: State, acts: seq<Action>)
    requires s in SAFE && PolledOnce(s)
    ensures PolledOnce(Exec(s, acts))
    decreases |acts|
  {
    hide SAFE, Step, PolledOnce;
    if acts != [] {
      PolledOnceStep(s, acts[0]);
      StepKeeps(s, acts[0]);
      PolledOnceFrom(Step(s, acts[0]), acts[1..]);
    }
  }

  /** In every reachable state no two pollers, running or stopped, are for one job, and only started jobs have one. */
  lemma AtMostOnePoller(s: State, i: nat, j: nat)
    requires Reachable(s) && i < j < |s.pollers|
    ensures s.pollers[i].id != s.pollers[j].id
    ensures s.pollers[i].id in s.rows && s.rows[s.pollers[i].id].status != Queued
  {
    hide SAFE, Step;
    StartInv();
    var acts: seq<Action> :| Exec(Start(), acts) == s;
    PolledOnceFrom(Start(), acts);
  }
}
