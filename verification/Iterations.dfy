/**
  One uninterrupted iteration of a consumer object is a run of the pipeline's calls, so what holds of those
  holds of it. The same is shown of polling and of creating a job.
  */
module Iterations {
  import opened Text
  import opened Errors
  import opened Jobs
  import opened JobStore
  import opened Callbacks
  import opened QueueProtocol
  import opened Pipeline
  import opened Handlers
  import opened Services
  import opened Refinement

  // The job consumer

  function SettleActs(f: JobFaults): seq<Action> {
    [JobAck(f.ackOk)] + ([JobRemove(f.removeOk)] + ([JobRepublish(f.pushOk)] + ExhaustActs(f)))
  }

  function ExhaustActs(f: JobFaults): seq<Action> {
    [ExhaustGet(f.exhausted.readOk, f.exhausted.now, f.cause)] + ([ExhaustSave(f.exhausted.write)] + [])
  }

  /** The calls of one iteration; those off the path taken change nothing. */
  function JobActsOf(f: JobFaults): seq<Action> {
    [JobDequeue] + (ProcessActs(f.process) + SettleActs(f))
  }

  function AfterSettle(s: State, f: JobFaults): State {
    DoJobRepublish(DoJobRemove(DoJobAck(s, f.ackOk), f.removeOk), f.pushOk)
  }

  function AfterExhaust(s: State, f: JobFaults): State {
    DoExhaustSave(DoExhaustGet(s, f.exhausted.readOk, f.exhausted.now, f.cause), f.exhausted.write)
  }

  lemma TakeSteps(s: State, f: JobFaults)
    ensures Step(s, JobDequeue) == DoJobDequeue(s)
    ensures Step(s, JobAck(f.ackOk)) == DoJobAck(s, f.ackOk)
  {
    hide Step, DoJobRecover, DoJobDequeue, DoJobAck, DoJobRemove, DoJobRepublish;
    StepIs(s, JobDequeue);
    StepIs(s, JobAck(f.ackOk));
  }

  lemma RetrySteps(s: State, f: JobFaults)
    ensures Step(s, JobRemove(f.removeOk)) == DoJobRemove(s, f.removeOk)
    ensures Step(s, JobRepublish(f.pushOk)) == DoJobRepublish(s, f.pushOk)
  {
    hide Step, DoJobRecover, DoJobDequeue, DoJobAck, DoJobRemove, DoJobRepublish;
    StepIs(s, JobRemove(f.removeOk));
    StepIs(s, JobRepublish(f.pushOk));
  }

  lemma ExhaustSteps(s: State, ok: bool, now: Time, text: string, how: WriteOutcome)
    ensures Step(s, ExhaustGet(ok, now, text)) == DoExhaustGet(s, ok, now, text)
    ensures Step(s, ExhaustSave(how)) == DoExhaustSave(s, how)
  {
    hide Step, DoExhaustGet, DoExhaustSave;
    StepIs(s, ExhaustGet(ok, now, text));
    StepIs(s, ExhaustSave(how));
  }

  lemma ExhaustRuns(s: State, f: JobFaults)
    ensures Exec(s, ExhaustActs(f)) == AfterExhaust(s, f)
  {
    hide Exec, Step, DoExhaustGet, DoExhaustSave;
    var x := f.exhausted;
    var s1 := DoExhaustGet(s, x.readOk, x.now, f.cause);
    var s2 := DoExhaustSave(s1, x.write);
    ExhaustSteps(s, x.readOk, x.now, f.cause, x.write);
    ExhaustSteps(s1, x.readOk, x.now, f.cause, x.write);
    ExecCons(s, ExhaustGet(x.readOk, x.now, f.cause), [ExhaustSave(x.write)] + []);
    ExecCons(s1, ExhaustSave(x.write), []);
    ExecNil(s2);
  }

  lemma SettleRuns(s: State, f: JobFaults)
    ensures Exec(s, SettleActs(f)) == AfterExhaust(AfterSettle(s, f), f)
  {
    hide Exec, Step, DoJobAck, DoJobRemove, DoJobRepublish, ExhaustActs, AfterExhaust;
    var s1 := DoJobAck(s, f.ackOk);
    var s2 := DoJobRemove(s1, f.removeOk);
    var s3 := DoJobRepublish(s2, f.pushOk);
    TakeSteps(s, f);
    RetrySteps(s1, f);
    RetrySteps(s2, f);
    ExecCons(s, JobAck(f.ackOk), [JobRemove(f.removeOk)] + ([JobRepublish(f.pushOk)] + ExhaustActs(f)));
    ExecCons(s1, JobRemove(f.removeOk), [JobRepublish(f.pushOk)] + ExhaustActs(f));
    ExecCons(s2, JobRepublish(f.pushOk), ExhaustActs(f));
    ExhaustRuns(s3, f);
  }

  lemma JobRuns(s: State, f: JobFaults)
    ensures Exec(s, JobActsOf(f)) == AfterExhaust(AfterSettle(Exec(DoJobDequeue(s), ProcessActs(f.process)), f), f)
  {
    hide Exec, Step, DoJobDequeue, ProcessActs, SettleActs, AfterSettle, AfterExhaust;
    TakeSteps(s, f);
    ExecCons(s, JobDequeue, ProcessActs(f.process) + SettleActs(f));
    ExecAppend(DoJobDequeue(s), ProcessActs(f.process), SettleActs(f));
    SettleRuns(Exec(DoJobDequeue(s), ProcessActs(f.process)), f);
  }

  /** What the settling calls make of the queue and whether they lead to `Exhausted`. */
  lemma SettleQueue(s: State, f: JobFaults)
    requires Decided(s.jc) && s.jobs.hand.Holding? && HandAgrees(s.jobs)
    ensures var s' := AfterSettle(s, f);
            var m := s.jobs.hand.msg;
            s' == s.(jobs := s'.jobs, jc := s'.jc) &&
            if s.jc == JAck then s'.jobs == AckSent(s.jobs, f.ackOk) && s'.jc == JQueue
            else if !f.removeOk then s'.jobs == Removed(s.jobs, false) && s'.jc == JQueue
            else
              && s'.jobs == Republished(Removed(s.jobs, true), f.pushOk)
              && s'.jc == if f.pushOk && m.attempts + 1 >= MAX_ATTEMPTS then JExhaust(m.body) else JQueue
  {
  }

  lemma ExhaustRests(s: State, f: JobFaults)
    requires s.jc == JQueue
    ensures AfterExhaust(s, f) == s
  {
  }

  lemma ExhaustRows(s: State, id: JobId, f: JobFaults)
    requires s.jc == JExhaust(id)
    ensures var x := f.exhausted;
            AfterExhaust(s, f)
            == s.(rows := ExhaustedOn(s.rows, id, f.cause, x.readOk, x.now, x.write, x.publishOk).0, jc := JQueue)
  {
  }

  lemma Dequeued(s: State)
    requires s.jc == JQueue && s.jobs.hand.Idle? && s.jobs.main != [] && HandAgrees(s.jobs)
    ensures var m := Last(s.jobs.main).msg;
            && DoJobDequeue(s) == s.(jobs := Reserved(s.jobs), jc := JGot(m.body))
            && Reserved(s.jobs).hand == Holding(m) && HandAgrees(Reserved(s.jobs))
  {
  }

  lemma VerdictDecides(err: Option<Err>)
    ensures Decided(JobVerdict(err)) && (JobVerdict(err) == JAck <==> Acknowledges(err))
  {
  }

  lemma Settled(s: State, q: Queue<JobId>, rows: Rows, f: JobFaults)
    requires s.jobs == Reserved(q) && s.jobs.hand.Holding? && HandAgrees(s.jobs) && q.hand.Idle? && q.main != []
        && f.dequeueOk
    requires var p := Handlers.Process(rows, s.jobs.hand.msg.body, f.process);
             s.rows == p.rows && s.jc == JobVerdict(p.err)
    ensures var s' := AfterExhaust(AfterSettle(s, f), f);
            (s'.rows, s'.jobs) == JobIteration(rows, q, f) && s'.jc == JQueue
  {
    var m := s.jobs.hand.msg;
    var err := Handlers.Process(rows, m.body, f.process).err;
    VerdictDecides(err);
    SettleQueue(s, f);
    var s1 := AfterSettle(s, f);
    if s1.jc == JQueue {
      ExhaustRests(s1, f);
    } else {
      ExhaustRows(s1, m.body, f);
    }
    hide AfterSettle, AfterExhaust, ExhaustedOn, Handlers.Process, Reserved, AckSent, Removed, Republished,
        Acknowledges, JobVerdict;
  }

  /**
    One iteration of the job consumer, uninterrupted, leaves the rows and the queue of the pipeline's
    calls in a row: dequeue, `Process`, then an acknowledgement, or a retry and `Exhausted`.
    */
  lemma JobIterationRefines(s: State, f: JobFaults)
    requires s.jc == JQueue && s.jobs.hand.Idle? && s.jobs.main != [] && HandAgrees(s.jobs)
    requires f.dequeueOk && Plausible(f.process.gen)
    requires forall id :: id in s.rows ==> s.rows[id].id == id
    ensures var s' := Exec(s, JobActsOf(f));
            (s'.rows, s'.jobs) == JobIteration(s.rows, s.jobs, f) && s'.jc == JQueue
  {
    hide *;
    JobRuns(s, f);
    Dequeued(s);
    var m := Last(s.jobs.main).msg;
    var s1 := DoJobDequeue(s);
    ProcessRefines(s1, m.body, f.process);
    Settled(Exec(s1, ProcessActs(f.process)), s.jobs, s.rows, f);
  }

  // The callback consumer

  function CallbackSettleActs(f: CallbackFaults): seq<Action> {
    [CbAck(f.ackOk)] + ([CbRemove(f.removeOk)] + ([CbRepublish(f.pushOk)] + []))
  }

  /** The calls of one iteration over a callback with n results. */
  function CallbackActsOf(f: CallbackFaults, n: nat): seq<Action> {
    [CbDequeue] + (HandleActs(Outcomes(f.handle, n)) + CallbackSettleActs(f))
  }

  function AfterCallbackSettle(s: State, f: CallbackFaults): State {
    DoCbRepublish(DoCbRemove(DoCbAck(s, f.ackOk), f.removeOk), f.pushOk)
  }

  lemma CallbackTakeSteps(s: State, f: CallbackFaults)
    ensures Step(s, CbDequeue) == DoCbDequeue(s)
    ensures Step(s, CbAck(f.ackOk)) == DoCbAck(s, f.ackOk)
  {
    hide Step, DoCbRecover, DoCbDequeue, DoCbAck, DoCbRemove, DoCbRepublish;
    StepIs(s, CbDequeue);
    StepIs(s, CbAck(f.ackOk));
  }

  lemma CallbackRetrySteps(s: State, f: CallbackFaults)
    ensures Step(s, CbRemove(f.removeOk)) == DoCbRemove(s, f.removeOk)
    ensures Step(s, CbRepublish(f.pushOk)) == DoCbRepublish(s, f.pushOk)
  {
    hide Step, DoCbRecover, DoCbDequeue, DoCbAck, DoCbRemove, DoCbRepublish;
    StepIs(s, CbRemove(f.removeOk));
    StepIs(s, CbRepublish(f.pushOk));
  }

  lemma CallbackSettleRuns(s: State, f: CallbackFaults)
    ensures Exec(s, CallbackSettleActs(f)) == AfterCallbackSettle(s, f)
  {
    hide Exec, Step, DoCbAck, DoCbRemove, DoCbRepublish;
    var s1 := DoCbAck(s, f.ackOk);
    var s2 := DoCbRemove(s1, f.removeOk);
    var s3 := DoCbRepublish(s2, f.pushOk);
    CallbackTakeSteps(s, f);
    CallbackRetrySteps(s1, f);
    CallbackRetrySteps(s2, f);
    ExecCons(s, CbAck(f.ackOk), [CbRemove(f.removeOk)] + ([CbRepublish(f.pushOk)] + []));
    ExecCons(s1, CbRemove(f.removeOk), [CbRepublish(f.pushOk)] + []);
    ExecCons(s2, CbRepublish(f.pushOk), []);
    ExecNil(s3);
  }

  lemma CallbackRuns(s: State, f: CallbackFaults, n: nat)
    ensures Exec(s, CallbackActsOf(f, n))
            == AfterCallbackSettle(Exec(DoCbDequeue(s), HandleActs(Outcomes(f.handle, n))), f)
  {
    hide Exec, Step, DoCbDequeue, HandleActs, CallbackSettleActs, AfterCallbackSettle, Outcomes;
    var acts := HandleActs(Outcomes(f.handle, n));
    CallbackTakeSteps(s, f);
    ExecCons(s, CbDequeue, acts + CallbackSettleActs(f));
    ExecAppend(DoCbDequeue(s), acts, CallbackSettleActs(f));
    CallbackSettleRuns(Exec(DoCbDequeue(s), acts), f);
  }

  lemma CallbackDequeued(s: State)
    requires s.cc == CQueue && s.cbs.hand.Idle? && s.cbs.main != []
    ensures var m := Last(s.cbs.main).msg;
            && DoCbDequeue(s) == s.(cbs := Reserved(s.cbs), cc := CGot(m.body))
            && Reserved(s.cbs).hand == Holding(m)
  {
  }

  lemma CallbackSettleQueue(s: State, f: CallbackFaults)
    requires CbDecided(s.cc) && s.cbs.hand.Holding?
    ensures AfterCallbackSettle(s, f)
            == s.(cc := CQueue,
                  cbs := if s.cc.CAck? then AckSent(s.cbs, f.ackOk)
                         else if !f.removeOk then Removed(s.cbs, false)
                         else Republished(Removed(s.cbs, true), f.pushOk))
  {
  }

  lemma CallbackSettled(s: State, q: Queue<Request>, db: Db, f: CallbackFaults)
    requires q.hand.Idle? && q.main != [] && f.dequeueOk
    requires s.cbs == Reserved(q) && s.cbs.hand.Holding?
    requires var req := s.cbs.hand.msg.body;
             var (db', err) := Handlers.Handle(db, req, Outcomes(f.handle, |req.results|));
             s.rows == db'.rows && s.tracks == db'.tracks && CbVerdict(s.cc, err)
    ensures var s' := AfterCallbackSettle(s, f);
            (Db(s'.rows, s'.tracks), s'.cbs) == CallbackIteration(db, q, f) && s'.cc == CQueue
  {
    hide AfterCallbackSettle, Handlers.Handle, AckSent, Removed, Republished, CallbackRequeue, Outcomes;
    CallbackSettleQueue(s, f);
  }

  /** The same for the callback consumer. */
  lemma CallbackIterationRefines(s: State, f: CallbackFaults)
    requires s.cc == CQueue && s.cbs.hand.Idle? && s.cbs.main != [] && f.dequeueOk
    ensures var s' := Exec(s, CallbackActsOf(f, |Last(s.cbs.main).msg.body.results|));
            (Db(s'.rows, s'.tracks), s'.cbs) == CallbackIteration(Db(s.rows, s.tracks), s.cbs, f) && s'.cc == CQueue
  {
    hide *;
    var req := Last(s.cbs.main).msg.body;
    var g := Outcomes(f.handle, |req.results|);
    var s1 := DoCbDequeue(s);
    CallbackRuns(s, f, |req.results|);
    CallbackDequeued(s);
    HandleRefines(s1, req, g);
    CallbackSettled(Exec(s1, HandleActs(g)), s.cbs, Db(s.rows, s.tracks), f);
  }

  // Polling

  /** What the calls of one tick meet. */
  datatype PollFaults = PollFaults(readOk: bool, details: Option<Details>, enqueueOk: bool)

  function TickOf(rows: Rows, id: JobId, f: PollFaults): Tick {
    Tick(GetJob(rows, id, f.readOk), f.details, f.enqueueOk)
  }

  function TicksOf(rows: Rows, id: JobId, fs: seq<PollFaults>): seq<Tick>
    decreases |fs|
  {
    if fs == [] then [] else [TickOf(rows, id, fs[0])] + TicksOf(rows, id, fs[1..])
  }

  function PollActs(p: nat, fs: seq<PollFaults>): seq<Action>
    decreases |fs|
  {
    if fs == [] then []
    else
      var f := fs[0];
      [PollCheck(p, f.readOk)] + ([PollFetch(p, f.details)] + ([PollSend(p, f.enqueueOk)] + PollActs(p, fs[1..])))
  }

  function AfterTick(s: State, p: nat, f: PollFaults): State {
    DoPollSend(DoPollFetch(DoPollCheck(s, p, f.readOk), p, f.details), p, f.enqueueOk)
  }

  lemma PollSteps(s: State, p: nat, f: PollFaults)
    ensures Step(s, PollCheck(p, f.readOk)) == DoPollCheck(s, p, f.readOk)
    ensures Step(s, PollFetch(p, f.details)) == DoPollFetch(s, p, f.details)
  {
    hide Step, DoPollCheck, DoPollFetch, DoPollSend, DoPollTimeout;
    StepIs(s, PollCheck(p, f.readOk));
    StepIs(s, PollFetch(p, f.details));
  }

  lemma PollSendStep(s: State, p: nat, ok: bool)
    ensures Step(s, PollSend(p, ok)) == DoPollSend(s, p, ok)
  {
    hide Step, DoPollCheck, DoPollFetch, DoPollSend, DoPollTimeout;
    StepIs(s, PollSend(p, ok));
  }

  lemma TickRuns(s: State, p: nat, fs: seq<PollFaults>)
    requires fs != []
    ensures Exec(s, PollActs(p, fs)) == Exec(AfterTick(s, p, fs[0]), PollActs(p, fs[1..]))
  {
    hide Exec, Step, DoPollCheck, DoPollFetch, DoPollSend;
    var f, rest := fs[0], PollActs(p, fs[1..]);
    var s1 := DoPollCheck(s, p, f.readOk);
    var s2 := DoPollFetch(s1, p, f.details);
    PollSteps(s, p, f);
    PollSteps(s1, p, f);
    PollSendStep(s2, p, f.enqueueOk);
    ExecCons(s, PollCheck(p, f.readOk), [PollFetch(p, f.details)] + ([PollSend(p, f.enqueueOk)] + rest));
    ExecCons(s1, PollFetch(p, f.details), [PollSend(p, f.enqueueOk)] + rest);
    ExecCons(s2, PollSend(p, f.enqueueOk), rest);
  }

  lemma TickEffect(s: State, p: nat, f: PollFaults)
    requires p < |s.pollers| && s.pollers[p].pc == PCheck
    ensures var poller := s.pollers[p];
            var tick := TickOf(s.rows, poller.id, f);
            AfterTick(s, p, f)
            == if !KeepsPolling(tick.row) then s.(pollers := s.pollers[p := poller.(pc := PStopped)])
               else if Delivers(tick) then
                 s.(cbs := Pushed(s.cbs, FromDetails(poller.task, f.details.value).value),
                    pollers := s.pollers[p := poller.(pc := PStopped, sent := poller.sent + 1)])
               else s
    ensures var poller := s.pollers[p];
            Delivers(TickOf(s.rows, poller.id, f)) ==> FromDetails(poller.task, f.details.value).Some?
  {
    var poller := s.pollers[p];
    if f.details.Some? {
      FromDetailsTable(poller.task, f.details.value);
    }
    hide FromDetails, Conclusive, Pushed;
    assert s.pollers[p := poller] == s.pollers;
  }

  lemma {:induction false} StoppedPollerRests(s: State, p: nat, fs: seq<PollFaults>)
    requires p < |s.pollers| && s.pollers[p].pc == PStopped
    ensures Exec(s, PollActs(p, fs)) == s
    decreases |fs|
  {
    if fs != [] {
      TickRuns(s, p, fs);
      hide Exec, Step;
      StoppedPollerRests(s, p, fs[1..]);
    }
  }

  /** A poller whose ticks nobody interrupts enqueues exactly the callback of the polling loop, and stops with it. */
  lemma {:induction false} PollingRefines(s: State, p: nat, fs: seq<PollFaults>)
    requires p < |s.pollers| && s.pollers[p].pc == PCheck
    ensures var poller := s.pollers[p];
            var sent := Polled(poller.task, TicksOf(s.rows, poller.id, fs));
            var s' := Exec(s, PollActs(p, fs));
            && s'.cbs == (if sent.Some? then Pushed(s.cbs, sent.value) else s.cbs)
            && s' == s.(cbs := s'.cbs, pollers := s'.pollers) && |s'.pollers| == |s.pollers|
            && s'.pollers[p].sent == poller.sent + (if sent.Some? then 1 else 0)
            && (sent.Some? ==> s'.pollers[p].pc == PStopped)
    decreases |fs|
  {
    hide Exec, Step, AfterTick, KeepsPolling, FromDetails, Pushed;
    if fs == [] {
      ExecNil(s);
    } else {
      TickRuns(s, p, fs);
      TickEffect(s, p, fs[0]);
      var s1 := AfterTick(s, p, fs[0]);
      assert TicksOf(s.rows, s.pollers[p].id, fs)[1..] == TicksOf(s.rows, s.pollers[p].id, fs[1..]);
      if s1.pollers[p].pc == PStopped {
        StoppedPollerRests(s1, p, fs[1..]);
      } else {
        PollingRefines(s1, p, fs[1..]);
      }
    }
  }

  // Creating a job

  /** The calls of `CreateJob` after validation and the user lookup. */
  function CreateActs(params: JobParams, f: CreateFaults): seq<Action>
    requires f.user.Ok?
  {
    [ApiCreate(f.id, f.user.value, params)]
    + ([ApiReadBack(f.id, f.readOk)]
        + ([ApiEnqueue(f.id, f.enqueueOk, f.now, f.text)] + ([ApiCompensate(f.id, f.update)] + [])))
  }

  lemma CreateSteps(s: State, params: JobParams, f: CreateFaults)
    requires f.user.Ok?
    ensures Step(s, ApiCreate(f.id, f.user.value, params)) == DoApiCreate(s, f.id, f.user.value, params)
    ensures Step(s, ApiReadBack(f.id, f.readOk)) == DoApiReadBack(s, f.id, f.readOk)
  {
    hide Step, DoApiCreate, DoApiReadBack, DoApiEnqueue, DoApiCompensate;
    StepIs(s, ApiCreate(f.id, f.user.value, params));
    StepIs(s, ApiReadBack(f.id, f.readOk));
  }

  lemma EnqueueSteps(s: State, f: CreateFaults)
    ensures Step(s, ApiEnqueue(f.id, f.enqueueOk, f.now, f.text)) == DoApiEnqueue(s, f.id, f.enqueueOk, f.now, f.text)
    ensures Step(s, ApiCompensate(f.id, f.update)) == DoApiCompensate(s, f.id, f.update)
  {
    hide Step, DoApiCreate, DoApiReadBack, DoApiEnqueue, DoApiCompensate;
    StepIs(s, ApiEnqueue(f.id, f.enqueueOk, f.now, f.text));
    StepIs(s, ApiCompensate(f.id, f.update));
  }

  function AfterCreate(s: State, params: JobParams, f: CreateFaults): State
    requires f.user.Ok?
  {
    DoApiCompensate(DoApiEnqueue(DoApiReadBack(DoApiCreate(s, f.id, f.user.value, params), f.id, f.readOk),
                                 f.id, f.enqueueOk, f.now, f.text), f.id, f.update)
  }

  lemma CreateRuns(s: State, params: JobParams, f: CreateFaults)
    requires f.user.Ok?
    ensures Exec(s, CreateActs(params, f)) == AfterCreate(s, params, f)
  {
    hide Exec, Step, DoApiCreate, DoApiReadBack, DoApiEnqueue, DoApiCompensate;
    var a1, a2 := ApiReadBack(f.id, f.readOk), ApiEnqueue(f.id, f.enqueueOk, f.now, f.text);
    var a3 := ApiCompensate(f.id, f.update);
    var s1 := DoApiCreate(s, f.id, f.user.value, params);
    var s2 := DoApiReadBack(s1, f.id, f.readOk);
    var s3 := DoApiEnqueue(s2, f.id, f.enqueueOk, f.now, f.text);
    CreateSteps(s, params, f);
    CreateSteps(s1, params, f);
    EnqueueSteps(s2, f);
    EnqueueSteps(s3, f);
    ExecCons(s, ApiCreate(f.id, f.user.value, params), [a1] + ([a2] + ([a3] + [])));
    ExecCons(s1, a1, [a2] + ([a3] + []));
    ExecCons(s2, a2, [a3] + []);
    ExecCons(s3, a3, []);
    ExecNil(DoApiCompensate(s3, f.id, f.update));
  }

  lemma InsertEffect(s: State, params: JobParams, f: CreateFaults)
    requires f.user.Ok? && f.id !in s.rows && f.id !in s.calls
    ensures var row := NewJob(f.id, f.user.value, Normalized(params));
            DoApiReadBack(DoApiCreate(s, f.id, f.user.value, params), f.id, f.readOk)
            == if Accepted(params) then
                 s.(rows := s.rows[f.id := row], calls := s.calls[f.id := if f.readOk then Created(row) else Ended])
               else s
  {
    ValidateMeetsTable(params);
    hide Accepted, Validate, Normalized;
    assert s.calls[f.id := Inserted][f.id := Ended] == s.calls[f.id := Ended];
  }

  lemma EnqueueEffect(s: State, row: Job, f: CreateFaults)
    requires f.id in s.rows && s.rows[f.id] == row && row.id == f.id && row.status == Queued && row.taskId.None?
    requires f.id in s.calls && s.calls[f.id] == if f.readOk then Created(row) else Ended
    ensures var s' := DoApiCompensate(DoApiEnqueue(s, f.id, f.enqueueOk, f.now, f.text), f.id, f.update);
            && s'.jobs == (if f.readOk && f.enqueueOk then Pushed(s.jobs, f.id) else s.jobs)
            && MarkedFailed(row, f.now, f.text).Ok?
            && s'.rows == if f.readOk && !f.enqueueOk && f.update != NotWritten
                          then s.rows[f.id := MarkedFailed(row, f.now, f.text).value] else s.rows
  {
    hide Pushed;
  }

  lemma NoCallNoEffect(s: State, f: CreateFaults)
    requires f.id !in s.calls
    ensures DoApiCompensate(DoApiEnqueue(s, f.id, f.enqueueOk, f.now, f.text), f.id, f.update) == s
  {
  }

  /** The calls of `CreateJob`, once its insert succeeds, leave the rows and the queue that the object leaves. */
  lemma CreateRefines(s: State, params: JobParams, f: CreateFaults)
    requires f.user.Ok? && f.id !in s.rows && f.id !in s.calls
    ensures var s' := Exec(s, CreateActs(params, f));
            var created := NewJob(f.id, f.user.value, Normalized(params));
            if !Accepted(params) then s' == s
            else
              && s'.jobs == (if f.readOk && f.enqueueOk then Pushed(s.jobs, f.id) else s.jobs)
              && MarkedFailed(created, f.now, f.text).Ok?
              && s'.rows == s.rows[f.id := if f.readOk && !f.enqueueOk && f.update != NotWritten
                                           then MarkedFailed(created, f.now, f.text).value else created]
  {
    hide Exec, Accepted, Normalized, Pushed, MarkedFailed, DoApiCreate, DoApiReadBack, DoApiEnqueue, DoApiCompensate;
    CreateRuns(s, params, f);
    InsertEffect(s, params, f);
    if Accepted(params) {
      var row := NewJob(f.id, f.user.value, Normalized(params));
      EnqueueEffect(DoApiReadBack(DoApiCreate(s, f.id, f.user.value, params), f.id, f.readOk), row, f);
    } else {
      NoCallNoEffect(s, f);
    }
  }
}
