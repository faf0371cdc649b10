/** The two queues of the pipeline go through runs of the queue protocol, so what holds of those holds here. */
module QueueLinks {
  import opened Text
  import opened Jobs
  import opened JobStore
  import opened Callbacks
  import opened QueueProtocol
  import opened QueueRuns
  import opened Pipeline
  import opened PipelineInv

  // The job queue

  function JobAct(s: State, a: Action): seq<Act<JobId>> {
    match a
    case ApiEnqueue(id, ok, _, _) => if ok && id in s.calls && s.calls[id].Created? then [Push(id)] else []
    case JobRecover(ok) => if s.jc == JQueue && s.jobs.hand.Recovering? then [RecoverOne(ok)] else []
    case JobDequeue => if s.jc == JQueue && s.jobs.hand.Idle? && s.jobs.main != [] then [Reserve] else []
    case JobAck(ok) => if s.jc == JAck then [Ack(ok)] else []
    case JobRemove(ok) => if s.jc == JRetry then [Remove(ok)] else []
    case JobRepublish(ok) => if s.jc == JGap && s.jobs.hand.InGap? then [Republish(ok)] else []
    case WorkerCrash => [Crash]
    case _ => []
  }

  ghost function JobActs(s: State, acts: seq<Action>): seq<Act<JobId>>
    decreases |acts|
  {
    if acts == [] then [] else JobAct(s, acts[0]) + JobActs(Step(s, acts[0]), acts[1..])
  }

  lemma {:induction false} RunAppend<T>(q: Queue<T>, a: seq<Act<T>>, b: seq<Act<T>>)
    ensures Run(q, a + b) == Run(Run(q, a), b)
    decreases |a|
  {
    if a == [] {
      assert a + b == b;
    } else {
      assert (a + b)[1..] == a[1..] + b && (a + b)[0] == a[0];
      RunAppend(Next(q, a[0]), a[1..], b);
    }
  }

  lemma RunAtMostOne<T>(q: Queue<T>, acts: seq<Act<T>>)
    requires |acts| <= 1
    ensures Run(q, acts) == if acts == [] then q else Next(q, acts[0])
  {
  }

  /** What one queue command, or none, makes of a queue. */
  function Applied<T(==)>(q: Queue<T>, acts: seq<Act<T>>): Queue<T> {
    if acts == [] then q else Next(q, acts[0])
  }

  lemma JobQueueStepProjects(s: State, a: Action)
    requires JcOK(s.rows, s.jobs.hand, s.jc) && By(a) == JobQueue
    ensures JobQueueStep(s, a).jobs == Applied(s.jobs, JobAct(s, a))
  {
  }

  lemma ProcessorLeavesJobQueue(s: State, a: Action)
    ensures ProcessorStep(s, a).jobs == ExhaustedStep(s, a).jobs == s.jobs
  {
  }

  lemma CallbacksLeaveJobQueue(s: State, a: Action)
    ensures HandlerStep(s, a).jobs == CallbackQueueStep(s, a).jobs == s.jobs
  {
  }

  lemma PollLeavesJobQueue(s: State, a: Action)
    ensures PollStep(s, a).jobs == s.jobs
  {
  }

  lemma ApiProjects(s: State, a: Action)
    requires By(a) == Server
    ensures ApiStep(s, a).jobs == Applied(s.jobs, JobAct(s, a))
  {
  }

  lemma NoJobAct(s: State, a: Action)
    requires By(a) != Server && By(a) != JobQueue
    ensures Applied(s.jobs, JobAct(s, a)) == if By(a) == Host then DoWorkerCrash(s).jobs else s.jobs
  {
  }

  lemma SafeConsumer(s: State)
    requires s in SAFE
    ensures JcOK(s.rows, s.jobs.hand, s.jc)
  {
  }

  lemma JobStepProjects(s: State, a: Action)
    requires s in SAFE
    ensures Step(s, a).jobs == Applied(s.jobs, JobAct(s, a))
  {
    hide ApiStep, ProcessorStep, ExhaustedStep, JobQueueStep, HandlerStep, CallbackQueueStep, PollStep, DoWorkerCrash,
        By;
    hide Applied, JobAct, SAFE, JcOK;
    match By(a)
    case Server => ApiProjects(s, a);
    case JobQueue =>
      SafeConsumer(s);
      JobQueueStepProjects(s, a);
    case _ =>
      ProcessorLeavesJobQueue(s, a);
      CallbacksLeaveJobQueue(s, a);
      PollLeavesJobQueue(s, a);
      NoJobAct(s, a);
  }

  lemma JobActShort(s: State, a: Action)
    ensures |JobAct(s, a)| <= 1
  {
  }

  /** However the actors interleave, the job queue goes through a run of the queue protocol. */
  lemma {:induction false} JobQueueRefines(s: State, acts: seq<Action>)
    requires s in SAFE
    ensures Exec(s, acts).jobs == Run(s.jobs, JobActs(s, acts))
    decreases |acts|
  {
    hide Step, SAFE, JobAct;
    if acts != [] {
      JobActShort(s, acts[0]);
      RunAtMostOne(s.jobs, JobAct(s, acts[0]));
      JobStepProjects(s, acts[0]);
      StepKeeps(s, acts[0]);
      JobQueueRefines(Step(s, acts[0]), acts[1..]);
      RunAppend(s.jobs, JobAct(s, acts[0]), JobActs(Step(s, acts[0]), acts[1..]));
    }
  }

  // The callback queue

  function CbAct(s: State, a: Action): seq<Act<Request>> {
    match a
    case ApiCallback(req) => if ValidateRequest(req).None? then [Push(req)] else []
    case PollSend(p, ok) => if ok && p < |s.pollers| && s.pollers[p].pc.PSend? then [Push(s.pollers[p].pc.req)] else []
    case CbRecover(ok) => if s.cc == CQueue && s.cbs.hand.Recovering? then [RecoverOne(ok)] else []
    case CbDequeue => if s.cc == CQueue && s.cbs.hand.Idle? && s.cbs.main != [] then [Reserve] else []
    case CbAck(ok) => if s.cc.CAck? then [Ack(ok)] else []
    case CbRemove(ok) => if s.cc == CRetry then [Remove(ok)] else []
    case CbRepublish(ok) => if s.cc == CGap then [Republish(ok)] else []
    case WorkerCrash => [Crash]
    case _ => []
  }

  ghost function CbActs(s: State, acts: seq<Action>): seq<Act<Request>>
    decreases |acts|
  {
    if acts == [] then [] else CbAct(s, acts[0]) + CbActs(Step(s, acts[0]), acts[1..])
  }

  lemma CallbackQueueStepProjects(s: State, a: Action)
    requires s.cc == CQueue ==> s.cbs.hand.Recovering? || s.cbs.hand.Idle?
    requires By(a) == CallbackQueue
    ensures CallbackQueueStep(s, a).cbs == Applied(s.cbs, CbAct(s, a))
  {
  }

  lemma JobsLeaveCallbackQueue(s: State, a: Action)
    ensures ProcessorStep(s, a).cbs == ExhaustedStep(s, a).cbs == JobQueueStep(s, a).cbs == s.cbs
  {
    hide Recovered, Reserved, AckSent, Removed, Republished, Written, WriteResult, AfterGeneration, AfterJobError,
        MarkedFailed;
  }

  lemma HandlerLeavesCallbackQueue(s: State, a: Action)
    ensures HandlerStep(s, a).cbs == s.cbs
  {
  }

  lemma PollProjects(s: State, a: Action)
    requires By(a) == Polling
    ensures PollStep(s, a).cbs == Applied(s.cbs, CbAct(s, a))
  {
  }

  lemma ApiCallbackProjects(s: State, a: Action)
    requires By(a) == Server
    ensures ApiStep(s, a).cbs == Applied(s.cbs, CbAct(s, a))
  {
  }

  lemma NoCbAct(s: State, a: Action)
    requires By(a) != Server && By(a) != CallbackQueue && By(a) != Polling
    ensures Applied(s.cbs, CbAct(s, a)) == if By(a) == Host then DoWorkerCrash(s).cbs else s.cbs
  {
  }

  lemma SafeCallbackConsumer(s: State)
    requires s in SAFE
    ensures s.cc == CQueue ==> s.cbs.hand.Recovering? || s.cbs.hand.Idle?
  {
  }

  lemma CbStepProjects(s: State, a: Action)
    requires s in SAFE
    ensures Step(s, a).cbs == Applied(s.cbs, CbAct(s, a))
  {
    hide ApiStep, ProcessorStep, ExhaustedStep, JobQueueStep, HandlerStep, CallbackQueueStep, PollStep, DoWorkerCrash,
        By;
    hide Applied, CbAct, SAFE;
    match By(a)
    case Server => ApiCallbackProjects(s, a);
    case Polling => PollProjects(s, a);
    case CallbackQueue =>
      SafeCallbackConsumer(s);
      CallbackQueueStepProjects(s, a);
    case _ =>
      JobsLeaveCallbackQueue(s, a);
      HandlerLeavesCallbackQueue(s, a);
      NoCbAct(s, a);
  }

  lemma CbActShort(s: State, a: Action)
    ensures |CbAct(s, a)| <= 1
  {
  }

  /** The same for the callback queue, which the API and the pollers feed. */
  lemma {:induction false} CbQueueRefines(s: State, acts: seq<Action>)
    requires s in SAFE
    ensures Exec(s, acts).cbs == Run(s.cbs, CbActs(s, acts))
    decreases |acts|
  {
    hide Step, SAFE, CbAct;
    if acts != [] {
      CbActShort(s, acts[0]);
      RunAtMostOne(s.cbs, CbAct(s, acts[0]));
      CbStepProjects(s, acts[0]);
      StepKeeps(s, acts[0]);
      CbQueueRefines(Step(s, acts[0]), acts[1..]);
      RunAppend(s.cbs, CbAct(s, acts[0]), CbActs(Step(s, acts[0]), acts[1..]));
    }
  }

  /**
    The exact number of deliveries by place: one for each attempt and recovery while waiting, one more once
    taken out of main, and ten and one for each recovery as a dead letter. So it is never above ten and the
    recoveries.
    */
  predicate Counted<T(==)>(q: Queue<T>, c: Cell<T>) {
    && (c in q.main ==> c.msg.attempts <= 9 && c.deliveries == c.msg.attempts + c.recoveries)
    && (c in q.processing || c in q.acked || c in q.lost || q.gap == Some(c) ==>
          c.msg.attempts <= 9 && c.deliveries == c.msg.attempts + c.recoveries + 1)
    && (c in q.dlq ==> c.msg.attempts == 10 && c.deliveries == 10 + c.recoveries)
  }

  predicate Somewhere<T(==)>(q: Queue<T>, c: Cell<T>) {
    c in q.main || c in q.processing || c in q.dlq || c in q.acked || c in q.lost || q.gap == Some(c)
  }

  lemma SoundCounts<T(!new)>(q: Queue<T>, c: Cell<T>)
    requires Sound(q)
    ensures Counted(q, c)
    ensures Somewhere(q, c) ==> c.deliveries <= 10 + c.recoveries
  {
  }

  /** Every message of either queue has been delivered exactly as often as its place says, in every run. */
  lemma DeliveriesBounded(acts: seq<Action>, c: Cell<JobId>, d: Cell<Request>)
    ensures Counted(Exec(Start(), acts).jobs, c) && Counted(Exec(Start(), acts).cbs, d)
    ensures Somewhere(Exec(Start(), acts).jobs, c) ==> c.deliveries <= 10 + c.recoveries
    ensures Somewhere(Exec(Start(), acts).cbs, d) ==> d.deliveries <= 10 + d.recoveries
  {
    StartInv();
    ExecKeeps(Start(), acts);
    BothSound(Exec(Start(), acts));
    hide Exec, SAFE, Counted, Somewhere, Sound;
    SoundCounts(Exec(Start(), acts).jobs, c);
    SoundCounts(Exec(Start(), acts).cbs, d);
  }

  lemma BothSound(s: State)
    requires s in SAFE
    ensures Sound(s.jobs) && Sound(s.cbs)
  {
    hide Sound;
  }

  // Draining

  /** Neither a new job nor a restart. */
  predicate NoNewJobs(acts: seq<Action>) {
    forall i :: 0 <= i < |acts| ==> !acts[i].ApiEnqueue? && !acts[i].WorkerCrash?
  }

  /** Neither a new callback nor a restart. */
  predicate NoNewCallbacks(acts: seq<Action>) {
    forall i :: 0 <= i < |acts| ==> !acts[i].ApiCallback? && !acts[i].PollSend? && !acts[i].WorkerCrash?
  }

  lemma JobActQuiet(s: State, a: Action)
    requires !a.ApiEnqueue? && !a.WorkerCrash? && !s.jobs.hand.Recovering?
    ensures Quiet(JobAct(s, a))
    ensures !Applied(s.jobs, JobAct(s, a)).hand.Recovering?
  {
  }

  lemma CbActQuiet(s: State, a: Action)
    requires !a.ApiCallback? && !a.PollSend? && !a.WorkerCrash? && !s.cbs.hand.Recovering?
    ensures Quiet(CbAct(s, a))
    ensures !Applied(s.cbs, CbAct(s, a)).hand.Recovering?
  {
  }

  lemma QuietAppend<T>(a: seq<Act<T>>, b: seq<Act<T>>)
    requires Quiet(a) && Quiet(b)
    ensures Quiet(a + b)
  {
  }

  lemma {:induction false} JobActsQuiet(s: State, acts: seq<Action>)
    requires s in SAFE && NoNewJobs(acts) && !s.jobs.hand.Recovering?
    ensures Quiet(JobActs(s, acts))
    decreases |acts|
  {
    hide Step, SAFE, JobAct, Quiet;
    if acts != [] {
      JobActQuiet(s, acts[0]);
      JobStepProjects(s, acts[0]);
      StepKeeps(s, acts[0]);
      JobActsQuiet(Step(s, acts[0]), acts[1..]);
      QuietAppend(JobAct(s, acts[0]), JobActs(Step(s, acts[0]), acts[1..]));
    } else {
      EmptyQuiet<JobId>();
    }
  }

  lemma EmptyQuiet<T>()
    ensures Quiet<T>([])
  {
  }

  lemma {:induction false} CbActsQuiet(s: State, acts: seq<Action>)
    requires s in SAFE && NoNewCallbacks(acts) && !s.cbs.hand.Recovering?
    ensures Quiet(CbActs(s, acts))
    decreases |acts|
  {
    hide Step, SAFE, CbAct, Quiet;
    if acts != [] {
      CbActQuiet(s, acts[0]);
      CbStepProjects(s, acts[0]);
      StepKeeps(s, acts[0]);
      CbActsQuiet(Step(s, acts[0]), acts[1..]);
      QuietAppend(CbAct(s, acts[0]), CbActs(Step(s, acts[0]), acts[1..]));
    } else {
      EmptyQuiet<Request>();
    }
  }

  /**
    Without new jobs and restarts, whatever else happens and whatever fails: the deliveries made and the
    messages still waiting never exceed the initial measure, ten less its attempts for each message.
    */
  lemma JobsDrain(s: State, acts: seq<Action>)
    requires Reachable(s) && NoNewJobs(acts) && !s.jobs.hand.Recovering?
    ensures Deliveries(s.jobs, JobActs(s, acts)) + |Exec(s, acts).jobs.main| <= Measure(s.jobs)
  {
    ReachableInv(s);
    JobActsQuiet(s, acts);
    JobQueueRefines(s, acts);
    assert Sound(s.jobs);
    hide SAFE, Exec, JobActs, Sound, Quiet;
    DrainBound(s.jobs, JobActs(s, acts));
  }

  lemma CallbacksDrain(s: State, acts: seq<Action>)
    requires Reachable(s) && NoNewCallbacks(acts) && !s.cbs.hand.Recovering?
    ensures Deliveries(s.cbs, CbActs(s, acts)) + |Exec(s, acts).cbs.main| <= Measure(s.cbs)
  {
    ReachableInv(s);
    CbActsQuiet(s, acts);
    CbQueueRefines(s, acts);
    assert Sound(s.cbs);
    hide SAFE, Exec, CbActs, Sound, Quiet;
    DrainBound(s.cbs, CbActs(s, acts));
  }

  // Stack discipline

  /** Neither a new job nor a restart nor a failing command on the job queue. */
  predicate JobQueueCalm(acts: seq<Action>) {
    forall i :: 0 <= i < |acts| ==>
      && !acts[i].ApiEnqueue? && !acts[i].WorkerCrash?
      && acts[i] != JobAck(false) && acts[i] != JobRemove(false) && acts[i] != JobRepublish(false)
  }

  /** Neither a new callback nor a restart nor a failing command on the callback queue. */
  predicate CallbackQueueCalm(acts: seq<Action>) {
    forall i :: 0 <= i < |acts| ==>
      && !acts[i].ApiCallback? && !acts[i].PollSend? && !acts[i].WorkerCrash?
      && acts[i] != CbAck(false) && acts[i] != CbRemove(false) && acts[i] != CbRepublish(false)
  }

  lemma JobActCalm(s: State, a: Action, start: Queue<JobId>, under: seq<Cell<JobId>>, b: JobId)
    requires JobQueueCalm([a]) && Driven(start, s.jobs, under, b)
    ensures |JobAct(s, a)| <= 1 && (JobAct(s, a) != [] ==> Calm(JobAct(s, a)[0]))
  {
    assert [a][0] == a;
  }

  lemma CbActCalm(s: State, a: Action, start: Queue<Request>, under: seq<Cell<Request>>, b: Request)
    requires CallbackQueueCalm([a]) && Driven(start, s.cbs, under, b)
    ensures |CbAct(s, a)| <= 1 && (CbAct(s, a) != [] ==> Calm(CbAct(s, a)[0]))
  {
    assert [a][0] == a;
  }

  lemma {:induction false} JobStackFrom(
    start: Queue<JobId>, s: State, under: seq<Cell<JobId>>, b: JobId, acts: seq<Action>)
    requires s in SAFE && Driven(start, s.jobs, under, b) && JobQueueCalm(acts)
    ensures Driven(start, Exec(s, acts).jobs, under, b)
            || exists i :: 0 < i <= |acts| && Settled(start, Exec(s, acts[..i]).jobs, under, b)
    decreases |acts|
  {
    hide Step, SAFE, JobAct, Driven, Settled, Next;
    if acts != [] {
      var s' := Step(s, acts[0]);
      JobStackStep(start, s, under, b, acts[0]);
      StepKeeps(s, acts[0]);
      if Settled(start, s'.jobs, under, b) {
        assert acts[..1][0] == acts[0] && acts[..1][1..] == [];
        assert Exec(s, acts[..1]) == s';
      } else {
        JobStackFrom(start, s', under, b, acts[1..]);
        if !Driven(start, Exec(s', acts[1..]).jobs, under, b) {
          var i :| 0 < i <= |acts| - 1 && Settled(start, Exec(s', acts[1..][..i]).jobs, under, b);
          assert acts[..i + 1][0] == acts[0] && acts[..i + 1][1..] == acts[1..][..i];
          assert Exec(s, acts[..i + 1]) == Exec(s', acts[1..][..i]);
        }
      }
    }
  }

  lemma JobStackStep(start: Queue<JobId>, s: State, under: seq<Cell<JobId>>, b: JobId, a: Action)
    requires s in SAFE && Driven(start, s.jobs, under, b) && JobQueueCalm([a])
    ensures Driven(start, Step(s, a).jobs, under, b) || Settled(start, Step(s, a).jobs, under, b)
  {
    JobStepProjects(s, a);
    JobActCalm(s, a, start, under, b);
    assert Sound(s.jobs);
    hide Step, SAFE, JobAct, Driven, Settled, Sound, Next;
    if JobAct(s, a) != [] {
      DrivenStep(start, s.jobs, under, b, JobAct(s, a)[0]);
    }
  }

  lemma {:induction false} CallbackStackFrom(
    start: Queue<Request>, s: State, under: seq<Cell<Request>>, b: Request, acts: seq<Action>)
    requires s in SAFE && Driven(start, s.cbs, under, b) && CallbackQueueCalm(acts)
    ensures Driven(start, Exec(s, acts).cbs, under, b)
            || exists i :: 0 < i <= |acts| && Settled(start, Exec(s, acts[..i]).cbs, under, b)
    decreases |acts|
  {
    hide Step, SAFE, CbAct, Driven, Settled, Next;
    if acts != [] {
      var s' := Step(s, acts[0]);
      CallbackStackStep(start, s, under, b, acts[0]);
      StepKeeps(s, acts[0]);
      if Settled(start, s'.cbs, under, b) {
        assert acts[..1][0] == acts[0] && acts[..1][1..] == [];
        assert Exec(s, acts[..1]) == s';
      } else {
        CallbackStackFrom(start, s', under, b, acts[1..]);
        if !Driven(start, Exec(s', acts[1..]).cbs, under, b) {
          var i :| 0 < i <= |acts| - 1 && Settled(start, Exec(s', acts[1..][..i]).cbs, under, b);
          assert acts[..i + 1][0] == acts[0] && acts[..i + 1][1..] == acts[1..][..i];
          assert Exec(s, acts[..i + 1]) == Exec(s', acts[1..][..i]);
        }
      }
    }
  }

  lemma CallbackStackStep(start: Queue<Request>, s: State, under: seq<Cell<Request>>, b: Request, a: Action)
    requires s in SAFE && Driven(start, s.cbs, under, b) && CallbackQueueCalm([a])
    ensures Driven(start, Step(s, a).cbs, under, b) || Settled(start, Step(s, a).cbs, under, b)
  {
    CbStepProjects(s, a);
    CbActCalm(s, a, start, under, b);
    assert Sound(s.cbs);
    hide Step, SAFE, CbAct, Driven, Settled, Sound, Next;
    if CbAct(s, a) != [] {
      DrivenStep(start, s.cbs, under, b, CbAct(s, a)[0]);
    }
  }

  /**
    The job that was enqueued last is driven to an acknowledgement or to the dead-letter list before any
    job under it is touched, however the other actors interleave.
    */
  lemma JobStackDiscipline(s: State, acts: seq<Action>, under: seq<Cell<JobId>>, c: Cell<JobId>)
    requires Reachable(s) && s.jobs.hand.Idle? && s.jobs.main == under + [c] && JobQueueCalm(acts)
    ensures Driven(s.jobs, Exec(s, acts).jobs, under, c.msg.body)
            || exists i :: 0 < i <= |acts| && Settled(s.jobs, Exec(s, acts[..i]).jobs, under, c.msg.body)
  {
    hide SAFE, Exec, Settled;
    ReachableInv(s);
    assert Driven(s.jobs, s.jobs, under, c.msg.body);
    JobStackFrom(s.jobs, s, under, c.msg.body, acts);
  }

  lemma CallbackStackDiscipline(s: State, acts: seq<Action>, under: seq<Cell<Request>>, c: Cell<Request>)
    requires Reachable(s) && s.cbs.hand.Idle? && s.cbs.main == under + [c] && CallbackQueueCalm(acts)
    ensures Driven(s.cbs, Exec(s, acts).cbs, under, c.msg.body)
            || exists i :: 0 < i <= |acts| && Settled(s.cbs, Exec(s, acts[..i]).cbs, under, c.msg.body)
  {
    hide SAFE, Exec, Settled;
    ReachableInv(s);
    assert Driven(s.cbs, s.cbs, under, c.msg.body);
    CallbackStackFrom(s.cbs, s, under, c.msg.body, acts);
  }

  // Callbacks for tasks that no job has

  /** No restart, and no push of a retry fails. */
  predicate CallbackQueueHealthy(acts: seq<Action>) {
    forall i :: 0 <= i < |acts| ==> !acts[i].WorkerCrash? && acts[i] != CbRepublish(false)
  }

  lemma CbActHealthy(s: State, a: Action)
    requires !a.WorkerCrash? && a != CbRepublish(false)
    ensures Healthy(CbAct(s, a))
  {
  }

  lemma HealthyAppend<T>(a: seq<Act<T>>, b: seq<Act<T>>)
    requires Healthy(a) && Healthy(b)
    ensures Healthy(a + b)
  {
  }

  lemma EmptyHealthy<T>()
    ensures Healthy<T>([])
  {
  }

  lemma {:induction false} CbActsHealthy(s: State, acts: seq<Action>)
    requires CallbackQueueHealthy(acts)
    ensures Healthy(CbActs(s, acts))
    decreases |acts|
  {
    hide Step, CbAct, Healthy;
    if acts != [] {
      CbActHealthy(s, acts[0]);
      CbActsHealthy(Step(s, acts[0]), acts[1..]);
      HealthyAppend(CbAct(s, acts[0]), CbActs(Step(s, acts[0]), acts[1..]));
    } else {
      EmptyHealthy<Request>();
    }
  }

  /**
    A callback whose task id was never stored, in a run without restarts and lost pushes: it is never
    acknowledged and never lost, it is dead-lettered exactly at its tenth delivery, and once the queue has
    run empty every copy that was ever enqueued is in the dead-letter list.
    */
  lemma UnknownTaskDeadLetters(acts: seq<Action>, req: Request)
    requires CallbackQueueHealthy(acts)
    requires var s := Exec(Start(), acts); forall id :: id in s.rows ==> s.rows[id].taskId != Some(req.TaskId())
    ensures var q := Exec(Start(), acts).cbs;
            && Count(q.acked, req) == 0 && q.lost == []
            && (forall c :: c in q.dlq ==> c.deliveries == 10)
            && (forall c :: c in q.main ==> c.deliveries == c.msg.attempts < 10)
            && (q.main == [] && q.processing == [] && q.gap.None? ==> Count(q.dlq, req) == Times(q.sent, req))
  {
    var s := Exec(Start(), acts);
    StartInv();
    ExecKeeps(Start(), acts);
    assert CbAckedOK(s.rows, s.cbs.acked) && Accounted(s.cbs) && Conserved(s.cbs);
    CbQueueRefines(Start(), acts);
    CbActsHealthy(Start(), acts);
    hide Exec, SAFE, CbActs, Healthy, Run, Accounted, Conserved;
    HealthyRun(Empty<Request>(), CbActs(Start(), acts));
    UnknownNotAcked(s.rows, s.cbs.acked, req);
    UnscathedAccounts(s.cbs, req);
  }

  lemma UnknownNotAcked(rows: Rows, acked: seq<Cell<Request>>, req: Request)
    requires CbAckedOK(rows, acked) && forall id :: id in rows ==> rows[id].taskId != Some(req.TaskId())
    ensures Count(acked, req) == 0
  {
  }
}
