/** The invariant of the pipeline, and that every action keeps it. */
module PipelineInv {
  import opened Text
  import opened Errors
  import opened Jobs
  import opened JobStore
  import opened Callbacks
  import opened Tracks
  import opened QueueProtocol
  import opened Pipeline

  // Rows

  predicate RowsOK(rows: Rows) {
    forall id :: id in rows ==> rows[id].id == id && WellFormed(rows[id])
  }

  /** What no write after the start of processing changes. */
  predicate SameCore(a: Job, b: Job) {
    a.id == b.id && a.user == b.user && a.params == b.params
    && a.taskId == b.taskId && a.attempts == b.attempts && a.startedAt == b.startedAt
  }

  /** A copy made from row `base`, ready to be saved over it. */
  predicate Successor(base: Job, next: Job) {
    next.id == base.id && next.user == base.user && next.params == base.params && WellFormed(next)
  }

  // The API calls: exactly the calls that enqueued have a message, and only one.

  predicate CallOK(row: Job, c: Call, sent: nat) {
    match c
    case Inserted => sent == 0 && row.status == Queued
    case Created(copy) => sent == 0 && row.status == Queued && copy == row
    case EnqueueFailed(next) => sent == 0 && row.status == Queued && next.status == Failed && SameCore(row, next)
        && WellFormed(next)
    case Done => sent == 1
    case Ended => sent == 0
  }

  predicate CallsOK(rows: Rows, calls: map<JobId, Call>, sent: seq<JobId>) {
    && calls.Keys == rows.Keys
    && forall id :: id in rows ==> CallOK(rows[id], calls[id], Times(sent, id))
  }

  ghost predicate OnlyRowsSent(rows: Rows, sent: seq<JobId>) {
    forall id: JobId :: Times(sent, id) > 0 ==> id in rows
  }

  /** No message is acknowledged while its row is queued. */
  predicate AckedOK(rows: Rows, acked: seq<Cell<JobId>>) {
    forall i :: 0 <= i < |acked| ==> acked[i].msg.body in rows && rows[acked[i].msg.body].status != Queued
  }

  // The job consumer

  predicate Carries(hand: Hand<JobId>, id: JobId) {
    hand.Holding? && hand.msg.body == id
  }

  predicate Unchanged(rows: Rows, base: Job) {
    base.id in rows && rows[base.id] == base && base.status == Queued
  }

  ghost predicate JcOK(rows: Rows, hand: Hand<JobId>, jc: JobPc) {
    match jc
    case JQueue => hand.Recovering? || hand.Idle?
    case JGot(id) => Carries(hand, id)
    case JRead(base) => Carries(hand, base.id) && Unchanged(rows, base)
    case JMark(base, next, task) =>
      Carries(hand, base.id) && Unchanged(rows, base) && Successor(base, next) && next.status == Processing
          && !Blank(task)
    case JPublish(id, task) => Carries(hand, id) && id in rows && rows[id].status != Queued && !Blank(task)
    case JMarkFailed(base, next, err) =>
      Carries(hand, base.id) && Unchanged(rows, base) && Successor(base, next) && SameCore(base, next)
      && next.status == Failed && Foreign(err)
    case JPublishFailed(id, err) => Carries(hand, id) && id in rows && rows[id].status != Queued && Foreign(err)
    case JAck => hand.Holding? && hand.msg.body in rows && rows[hand.msg.body].status != Queued
    case JRetry => hand.Holding?
    case JGap => hand.InGap?
    case JExhaust(id) => hand.Idle? && id in rows
    case JExhaustSave(base, next) =>
      hand.Idle? && base.id in rows && SameCore(rows[base.id], base) && SameCore(base, next)
      && next.status == Failed && WellFormed(next)
  }

  /** A dead-lettered message was sent. */
  predicate ExhaustOK(sent: seq<JobId>, jc: JobPc) {
    && (jc.JExhaust? ==> Times(sent, jc.id) > 0)
    && (jc.JExhaustSave? ==> Times(sent, jc.base.id) > 0)
  }

  // The callback consumer

  predicate Concerns(rows: Rows, id: JobId, req: Request) {
    id in rows && rows[id].taskId == Some(req.TaskId())
  }

  predicate Serves(hand: Hand<Request>, req: Request) {
    hand.Holding? && hand.msg.body == req
  }

  /** `base` is what was read of the row, which has a task id and so has left the queued state. */
  predicate CopyOK(rows: Rows, base: Job, req: Request) {
    && Concerns(rows, base.id, req)
    && SameCore(rows[base.id], base)
    && WellFormed(base)
    && (Terminal(base.status) ==> Terminal(rows[base.id].status))
    && (rows[base.id].status == Ready ==> base.status == Ready)
  }

  /** The keys of the tracks that are stored or were until their owner deleted them. */
  function EverStored(s: State): set<TrackKey> {
    s.tracks.Keys + s.deleted
  }

  /** The tracks of the first n results are among the keys. */
  predicate StoredUpTo(keys: set<TrackKey>, id: JobId, req: Request, n: nat) {
    n <= |req.results| && forall k :: 0 <= k < n ==> (id, TrimSpace(req.results[k].audioId)) in keys
  }

  /** An acknowledged terminal callback has a finished job. */
  predicate AckJustified(rows: Rows, about: Option<JobId>, req: Request) {
    about.Some? && Concerns(rows, about.value, req)
    && (IsTerminal(req) ==> Terminal(rows[about.value].status))
  }

  predicate IsTerminal(req: Request) {
    req.kind == CompleteType || req.kind == ErrorType
  }

  /** Some job has the task of the request, and is finished if the request is terminal. */
  ghost predicate Answered(rows: Rows, req: Request) {
    exists id :: Concerns(rows, id, req) && (IsTerminal(req) ==> Terminal(rows[id].status))
  }

  ghost predicate CbAckedOK(rows: Rows, acked: seq<Cell<Request>>) {
    forall i :: 0 <= i < |acked| ==> Answered(rows, acked[i].msg.body)
  }

  ghost predicate CcOK(rows: Rows, keys: set<TrackKey>, hand: Hand<Request>, cc: CbPc) {
    match cc
    case CQueue => hand.Recovering? || hand.Idle?
    case CGot(req) => Serves(hand, req)
    case CBuild(base, req, i) =>
      Serves(hand, req) && CopyOK(rows, base, req) && base.status != Ready && req.kind == CompleteType
      && StoredUpTo(keys, base.id, req, i)
    case CStore(base, req, i, t) =>
      Serves(hand, req) && CopyOK(rows, base, req) && base.status != Ready && req.kind == CompleteType
      && i < |req.results| && StoredUpTo(keys, base.id, req, i)
      && KeyOf(t) == (base.id, TrimSpace(req.results[i].audioId)) && CanonicalRow(KeyOf(t), InsertRow(t))
    case CReady(base, next, req) =>
      Serves(hand, req) && CopyOK(rows, base, req) && base.status == Processing && req.kind == CompleteType
      && StoredUpTo(keys, base.id, req, |req.results|)
      && SameCore(base, next) && WellFormed(next) && next.status == Ready
    case CPublish(id, req) =>
      Serves(hand, req) && Concerns(rows, id, req) && Terminal(rows[id].status)
    case CFail(base, next, req) =>
      Serves(hand, req) && CopyOK(rows, base, req) && base.status == Processing && req.kind == ErrorType
      && SameCore(base, next) && WellFormed(next) && next.status == Failed
    case CAck(about) => hand.Holding? && AckJustified(rows, about, hand.msg.body)
    case CRetry => hand.Holding?
    case CGap => hand.InGap?
  }

  // Requests, pollers, tracks

  ghost predicate RequestsOK(sent: seq<Request>) {
    forall i :: 0 <= i < |sent| ==> ValidateRequest(sent[i]).None?
  }

  predicate PollerOK(p: Poller) {
    && !Blank(p.task)
    && p.sent <= (if p.pc.PStopped? then 1 else 0)
    && (p.pc.PSend? ==> ValidateRequest(p.pc.req).None?)
  }

  predicate PollersOK(ps: seq<Poller>) {
    forall i :: 0 <= i < |ps| ==> PollerOK(ps[i])
  }

  /** Some complete callback that was enqueued for the job has all its results stored. */
  predicate Backed(keys: set<TrackKey>, sent: seq<Request>, j: Job) {
    exists i :: 0 <= i < |sent| && sent[i].kind == CompleteType && j.taskId == Some(sent[i].TaskId())
                && StoredUpTo(keys, j.id, sent[i], |sent[i].results|)
  }

  predicate ReadyBacked(rows: Rows, keys: set<TrackKey>, sent: seq<Request>) {
    forall id :: id in rows && rows[id].status == Ready ==> Backed(keys, sent, rows[id])
  }

  ghost predicate Holds(s: State) {
    && RowsOK(s.rows)
    && TasksUnique(s.rows)
    && CallsOK(s.rows, s.calls, s.jobs.sent)
    && OnlyRowsSent(s.rows, s.jobs.sent)
    && AckedOK(s.rows, s.jobs.acked)
    && Sound(s.jobs)
    && Sound(s.cbs)
    && JcOK(s.rows, s.jobs.hand, s.jc)
    && ExhaustOK(s.jobs.sent, s.jc)
    && CcOK(s.rows, EverStored(s), s.cbs.hand, s.cc)
    && CbAckedOK(s.rows, s.cbs.acked)
    && RequestsOK(s.cbs.sent)
    && PollersOK(s.pollers)
    && Canonical(s.tracks)
    && s.tracks.Keys !! s.deleted
    && ReadyBacked(s.rows, EverStored(s), s.cbs.sent)
  }

  /** The states in which the invariant holds. */
  ghost const SAFE: iset<State> := iset s: State | Holds(s)

  lemma StartInv()
    ensures Start() in SAFE
  {
  }

  // Facts about what is in hand

  lemma CountAtLeast<T>(cells: seq<Cell<T>>, i: nat)
    requires i < |cells|
    ensures Count(cells, cells[i].msg.body) > 0
  {
    CountPositive(cells, cells[i].msg.body);
  }

  /** What the consumer carries was sent. */
  lemma CarriedWasSent<T(!new)>(q: Queue<T>)
    requires Sound(q) && (q.hand.Holding? || q.hand.InGap?)
    ensures Times(q.sent, q.hand.msg.body) > 0
  {
    assert Total(q, q.hand.msg.body) == Times(q.sent, q.hand.msg.body);
    if q.hand.Holding? {
      CountAtLeast(q.processing, Find(q.processing, q.hand.msg));
    }
  }

  lemma {:induction false} TimesIndex<T>(s: seq<T>, b: T) returns (i: nat)
    requires Times(s, b) > 0
    ensures i < |s| && s[i] == b
  {
    if s[0] == b {
      i := 0;
    } else {
      i := TimesIndex(s[1..], b);
      i := i + 1;
    }
  }

  // What row writes leave alone

  /** A write over row `id`: it keeps identity and never takes a row back. */
  predicate LegalWrite(rows: Rows, id: JobId, row: Job) {
    && id in rows && row.id == id && WellFormed(row)
    && row.user == rows[id].user && row.params == rows[id].params
    && (Terminal(rows[id].status) ==> Terminal(row.status))
    && (rows[id].status != Queued ==> row.status != Queued && SameCore(rows[id], row))
  }

  /** The row under a copy that a consumer is about to save, or the unchanged table. */
  lemma WrittenIs(rows: Rows, j: Job, how: WriteOutcome)
    requires RowsOK(rows) && j.id in rows && j.user == rows[j.id].user && j.params == rows[j.id].params
    ensures Written(rows, j, how) == rows || Written(rows, j, how) == rows[j.id := j]
    ensures WriteResult(rows, j, how).Ok? ==>
        Written(rows, j, how) == rows[j.id := j] && WriteResult(rows, j, how).value == j
    ensures WriteResult(rows, j, how).Fail? ==> WriteResult(rows, j, how).error == DB_ERROR
  {
  }

  lemma RowsFrame(rows: Rows, id: JobId, row: Job)
    requires RowsOK(rows) && LegalWrite(rows, id, row)
    ensures RowsOK(rows[id := row])
  {
  }

  lemma AckedFrame(rows: Rows, id: JobId, row: Job, acked: seq<Cell<JobId>>)
    requires AckedOK(rows, acked) && LegalWrite(rows, id, row)
    ensures AckedOK(rows[id := row], acked)
  {
  }

  lemma SentFrame(rows: Rows, id: JobId, row: Job, sent: seq<JobId>)
    requires OnlyRowsSent(rows, sent) && id in rows
    ensures OnlyRowsSent(rows[id := row], sent)
  {
  }

  lemma CallsFrame(rows: Rows, id: JobId, row: Job, calls: map<JobId, Call>, sent: seq<JobId>)
    requires CallsOK(rows, calls, sent) && LegalWrite(rows, id, row)
    requires calls[id].Done? || calls[id].Ended? || rows[id].status != Queued
    ensures CallsOK(rows[id := row], calls, sent)
  {
  }

  /** No write to a row with a task id, or to a row without a message, disturbs the job consumer. */
  lemma JcFrame(rows: Rows, id: JobId, row: Job, hand: Hand<JobId>, jc: JobPc)
    requires JcOK(rows, hand, jc) && LegalWrite(rows, id, row)
    requires rows[id].status != Queued || (!Carries(hand, id) && SameCore(rows[id], row)) || jc == JRetry
        || jc == JQueue
    ensures JcOK(rows[id := row], hand, jc)
  {
  }

  lemma CcFrame(rows: Rows, id: JobId, row: Job, keys: set<TrackKey>, hand: Hand<Request>, cc: CbPc)
    requires RowsOK(rows) && CcOK(rows, keys, hand, cc) && LegalWrite(rows, id, row)
    requires row.status == Ready ==> cc == CRetry
    ensures CcOK(rows[id := row], keys, hand, cc)
  {
  }

  lemma CbAckedFrame(rows: Rows, id: JobId, row: Job, acked: seq<Cell<Request>>)
    requires RowsOK(rows) && CbAckedOK(rows, acked) && LegalWrite(rows, id, row)
    ensures CbAckedOK(rows[id := row], acked)
  {
    var rows' := rows[id := row];
    forall i | 0 <= i < |acked|
      ensures Answered(rows', acked[i].msg.body)
    {
      var req := acked[i].msg.body;
      var k :| Concerns(rows, k, req) && (IsTerminal(req) ==> Terminal(rows[k].status));
      assert Concerns(rows', k, req);
    }
  }

  lemma BackedFrame(rows: Rows, id: JobId, row: Job, keys: set<TrackKey>, sent: seq<Request>)
    requires ReadyBacked(rows, keys, sent) && RowsOK(rows) && LegalWrite(rows, id, row)
    requires row.status == Ready ==> Backed(keys, sent, row)
    ensures ReadyBacked(rows[id := row], keys, sent)
  {
  }

  // Steps that only move one consumer

  lemma JobsKeep(s: State, q: Queue<JobId>, jc: JobPc)
    requires s in SAFE
    requires Sound(q) && q.sent == s.jobs.sent && AckedOK(s.rows, q.acked)
    requires JcOK(s.rows, q.hand, jc) && ExhaustOK(q.sent, jc)
    ensures s.(jobs := q, jc := jc) in SAFE
  {
  }

  lemma CbsKeep(s: State, q: Queue<Request>, cc: CbPc)
    requires s in SAFE
    requires Sound(q) && q.sent == s.cbs.sent
    requires CcOK(s.rows, EverStored(s), q.hand, cc) && CbAckedOK(s.rows, q.acked)
    ensures s.(cbs := q, cc := cc) in SAFE
  {
  }

  lemma CallsKeep(s: State, calls: map<JobId, Call>)
    requires s in SAFE && CallsOK(s.rows, calls, s.jobs.sent)
    ensures s.(calls := calls) in SAFE
  {
  }

  lemma AckedGrows(rows: Rows, q: Queue<JobId>, ok: bool)
    requires AckedOK(rows, q.acked) && HandAgrees(q)
    requires q.hand.Holding? ==> q.hand.msg.body in rows && rows[q.hand.msg.body].status != Queued
    ensures AckedOK(rows, AckSent(q, ok).acked)
  {
  }

  // The API

  lemma NewRowCalls(rows: Rows, calls: map<JobId, Call>, sent: seq<JobId>, id: JobId, row: Job)
    requires CallsOK(rows, calls, sent) && OnlyRowsSent(rows, sent)
    requires id !in rows && row.status == Queued
    ensures CallsOK(rows[id := row], calls[id := Inserted], sent)
    ensures OnlyRowsSent(rows[id := row], sent)
  {
  }

  lemma NewRowFrames(rows: Rows, id: JobId, row: Job, hand: Hand<JobId>, jc: JobPc, acked: seq<Cell<JobId>>)
    requires JcOK(rows, hand, jc) && AckedOK(rows, acked) && id !in rows
    ensures JcOK(rows[id := row], hand, jc)
    ensures AckedOK(rows[id := row], acked)
  {
  }

  lemma NewRowAcked(rows: Rows, id: JobId, row: Job, acked: seq<Cell<Request>>)
    requires CbAckedOK(rows, acked) && id !in rows
    ensures CbAckedOK(rows[id := row], acked)
  {
    var rows' := rows[id := row];
    forall i | 0 <= i < |acked|
      ensures Answered(rows', acked[i].msg.body)
    {
      var req := acked[i].msg.body;
      var k :| Concerns(rows, k, req) && (IsTerminal(req) ==> Terminal(rows[k].status));
      assert Concerns(rows', k, req);
    }
  }

  lemma NewRowFramesCallbacks(rows: Rows, id: JobId, row: Job, keys: set<TrackKey>, hand: Hand<Request>, cc: CbPc,
      sent: seq<Request>)
    requires CcOK(rows, keys, hand, cc) && ReadyBacked(rows, keys, sent) && TasksUnique(rows)
    requires id !in rows && row.status == Queued && row.taskId.None?
    ensures CcOK(rows[id := row], keys, hand, cc)
    ensures ReadyBacked(rows[id := row], keys, sent)
    ensures TasksUnique(rows[id := row])
  {
  }

  lemma ApiCreateKeeps(s: State, id: JobId, user: UserId, params: JobParams)
    requires s in SAFE
    ensures DoApiCreate(s, id, user, params) in SAFE
  {
    if id !in s.rows && Validate(Normalized(params)).None? {
      var row := NewJob(id, user, Normalized(params));
      NewRowCalls(s.rows, s.calls, s.jobs.sent, id, row);
      NewRowFrames(s.rows, id, row, s.jobs.hand, s.jc, s.jobs.acked);
      NewRowAcked(s.rows, id, row, s.cbs.acked);
      NewRowFramesCallbacks(s.rows, id, row, EverStored(s), s.cbs.hand, s.cc, s.cbs.sent);
    }
  }

  lemma ApiReadBackKeeps(s: State, id: JobId, ok: bool)
    requires s in SAFE
    ensures DoApiReadBack(s, id, ok) in SAFE
  {
    CallsKeep(s, DoApiReadBack(s, id, ok).calls);
  }

  lemma OneMoreSent(rows: Rows, calls: map<JobId, Call>, sent: seq<JobId>, id: JobId, jc: JobPc)
    requires CallsOK(rows, calls, sent) && OnlyRowsSent(rows, sent) && ExhaustOK(sent, jc)
    requires id in rows && calls[id].Created?
    ensures CallsOK(rows, calls[id := Done], sent + [id])
    ensures OnlyRowsSent(rows, sent + [id])
    ensures ExhaustOK(sent + [id], jc)
  {
    forall b: JobId
      ensures Times(sent + [id], b) == Times(sent, b) + (if id == b then 1 else 0)
    {
      TimesAppend(sent, id, b);
    }
  }

  lemma EnqueueFailedOK(rows: Rows, calls: map<JobId, Call>, sent: seq<JobId>, id: JobId, now: Time, text: string)
    requires RowsOK(rows) && CallsOK(rows, calls, sent) && id in calls && calls[id].Created?
    ensures MarkedFailed(calls[id].copy, now, text).Ok?
            && CallsOK(rows, calls[id := EnqueueFailed(MarkedFailed(calls[id].copy, now, text).value)], sent)
  {
    MarksKeepWellFormed(calls[id].copy, now, text);
  }

  lemma EnqueuedKeeps(s: State, id: JobId)
    requires s in SAFE && id in s.calls && s.calls[id].Created?
    ensures s.(jobs := Pushed(s.jobs, id), calls := s.calls[id := Done]) in SAFE
  {
    PushSound(s.jobs, id);
    OneMoreSent(s.rows, s.calls, s.jobs.sent, id, s.jc);
  }

  lemma ApiEnqueueKeeps(s: State, id: JobId, ok: bool, now: Time, text: string)
    requires s in SAFE
    ensures DoApiEnqueue(s, id, ok, now, text) in SAFE
  {
    if id in s.calls && s.calls[id].Created? {
      if ok {
        EnqueuedKeeps(s, id);
      } else {
        EnqueueFailedOK(s.rows, s.calls, s.jobs.sent, id, now, text);
        CallsKeep(s, DoApiEnqueue(s, id, ok, now, text).calls);
      }
    }
    hide Pushed, MarkedFailed;
  }

  /** A job that no call has enqueued is not in the consumer's hand. */
  lemma NotEnqueuedNotCarried(s: State, id: JobId)
    requires s in SAFE && id in s.calls && !s.calls[id].Done?
    ensures !Carries(s.jobs.hand, id)
  {
    if Carries(s.jobs.hand, id) {
      CarriedWasSent(s.jobs);
    }
  }

  lemma ApiCompensateKeeps(s: State, id: JobId, how: WriteOutcome)
    requires s in SAFE
    ensures DoApiCompensate(s, id, how) in SAFE
  {
    if id in s.calls && s.calls[id].EnqueueFailed? {
      var next := s.calls[id].next;
      WrittenIs(s.rows, next, how);
      NotEnqueuedNotCarried(s, id);
      assert LegalWrite(s.rows, id, next);
      var calls' := s.calls[id := Ended];
      assert CallsOK(s.rows, calls', s.jobs.sent);
      RowWriteKeeps(s.(calls := calls'), next, how);
    }
  }

  /** Everything but the writer's own position survives a legal write. */
  lemma RowWriteKeeps(s: State, next: Job, how: WriteOutcome)
    requires s in SAFE && LegalWrite(s.rows, next.id, next)
    requires s.calls[next.id].Done? || s.calls[next.id].Ended? || s.rows[next.id].status != Queued
    requires s.rows[next.id].status != Queued || s.jc == JRetry || s.jc == JQueue
             || (!Carries(s.jobs.hand, next.id) && SameCore(s.rows[next.id], next))
    requires next.status == Ready ==> Backed(EverStored(s), s.cbs.sent, next) && s.cc == CRetry
    ensures s.(rows := Written(s.rows, next, how)) in SAFE
  {
    var id := next.id;
    WrittenIs(s.rows, next, how);
    WriteKeepsTasksUnique(s.rows, next, how);
    RowsFrame(s.rows, id, next);
    AckedFrame(s.rows, id, next, s.jobs.acked);
    SentFrame(s.rows, id, next, s.jobs.sent);
    CallsFrame(s.rows, id, next, s.calls, s.jobs.sent);
    JcFrame(s.rows, id, next, s.jobs.hand, s.jc);
    CcFrame(s.rows, id, next, EverStored(s), s.cbs.hand, s.cc);
    BackedFrame(s.rows, id, next, EverStored(s), s.cbs.sent);
    CbAckedFrame(s.rows, id, next, s.cbs.acked);
  }

  lemma ApiCallbackKeeps(s: State, req: Request)
    requires s in SAFE
    ensures DoApiCallback(s, req) in SAFE
  {
    if ValidateRequest(req).None? {
      PushRequestKeeps(s, req);
    }
  }

  lemma SentGrows(rows: Rows, keys: set<TrackKey>, sent: seq<Request>, more: seq<Request>)
    requires ReadyBacked(rows, keys, sent)
    ensures ReadyBacked(rows, keys, sent + more)
  {
    forall id | id in rows && rows[id].status == Ready
      ensures Backed(keys, sent + more, rows[id])
    {
      var i :| 0 <= i < |sent| && sent[i].kind == CompleteType && rows[id].taskId == Some(sent[i].TaskId())
               && StoredUpTo(keys, rows[id].id, sent[i], |sent[i].results|);
      assert (sent + more)[i] == sent[i];
    }
  }

  lemma PushRequestKeeps(s: State, req: Request)
    requires s in SAFE && ValidateRequest(req).None?
    ensures s.(cbs := Pushed(s.cbs, req)) in SAFE
  {
    PushSound(s.cbs, req);
    SentGrows(s.rows, EverStored(s), s.cbs.sent, [req]);
  }

  lemma KeysGrow(rows: Rows, keys: set<TrackKey>, keys': set<TrackKey>, sent: seq<Request>)
    requires ReadyBacked(rows, keys, sent) && keys <= keys'
    ensures ReadyBacked(rows, keys', sent)
  {
  }

  lemma ApiFavouriteKeeps(s: State, key: TrackKey, user: UserId, favourite: bool)
    requires s in SAFE
    ensures DoApiFavourite(s, key, user, favourite) in SAFE
  {
    if Owns(s.rows, s.tracks, key, user) {
      var s' := DoApiFavourite(s, key, user, favourite);
      assert EverStored(s') == EverStored(s);
      assert CanonicalRow(key, s.tracks[key]);
      assert Canonical(s'.tracks);
    }
  }

  lemma ApiDeleteTrackKeeps(s: State, key: TrackKey, user: UserId)
    requires s in SAFE
    ensures DoApiDeleteTrack(s, key, user) in SAFE
  {
    if Owns(s.rows, s.tracks, key, user) {
      assert EverStored(DoApiDeleteTrack(s, key, user)) == EverStored(s);
    }
  }

  // The job consumer

  lemma JobRecoverKeeps(s: State, ok: bool)
    requires s in SAFE
    ensures DoJobRecover(s, ok) in SAFE
  {
    RecoverSound(s.jobs, ok);
    if s.jc == JQueue {
      JobsKeep(s, Recovered(s.jobs, ok), JQueue);
    }
  }

  lemma JobDequeueKeeps(s: State)
    requires s in SAFE
    ensures DoJobDequeue(s) in SAFE
  {
    ReserveSound(s.jobs);
    JobsKeep(s, DoJobDequeue(s).jobs, DoJobDequeue(s).jc);
  }

  /** The message in hand belongs to an existing row whose enqueue succeeded. */
  lemma CarriedRow(s: State)
    requires s in SAFE && (s.jobs.hand.Holding? || s.jobs.hand.InGap?)
    ensures s.jobs.hand.msg.body in s.rows && s.calls[s.jobs.hand.msg.body].Done?
  {
    CarriedWasSent(s.jobs);
  }

  lemma JobGetKeeps(s: State, ok: bool)
    requires s in SAFE
    ensures DoJobGet(s, ok) in SAFE
  {
    if s.jc.JGot? {
      CarriedRow(s);
      ForeignRequeued(DB_ERROR);
      JobsKeep(s, s.jobs, DoJobGet(s, ok).jc);
    }
  }

  lemma JobGenerateKeeps(s: State, gen: Generation, now: Time, text: string)
    requires s in SAFE
    ensures DoJobGenerate(s, gen, now, text) in SAFE
  {
    if s.jc.JRead? && Plausible(gen) {
      var base := s.jc.base;
      MarksKeepWellFormed(base, now, if gen.Generated? then gen.task else text);
      if gen.GenerationFailed? {
        ForeignRequeued(gen.err);
      }
      JobsKeep(s, s.jobs, AfterGeneration(base, gen, now, text));
    }
  }

  lemma JobSaveKeeps(s: State, how: WriteOutcome)
    requires s in SAFE
    ensures DoJobSave(s, how) in SAFE
  {
    if s.jc.JMark? {
      var next := s.jc.next;
      CarriedRow(s);
      WrittenIs(s.rows, next, how);
      ForeignRequeued(DB_ERROR);
      JobsKeep(s, s.jobs, JRetry);
      RowWriteKeeps(s.(jc := JRetry), next, how);
      JobsKeep(s.(jc := JRetry, rows := Written(s.rows, next, how)), s.jobs, DoJobSave(s, how).jc);
    }
  }

  lemma JobPublishKeeps(s: State, ok: bool, polling: bool)
    requires s in SAFE
    ensures DoJobPublish(s, ok, polling) in SAFE
  {
    if s.jc.JPublish? {
      ForeignRequeued(Plain);
      JobsKeep(s, s.jobs, DoJobPublish(s, ok, polling).jc);
      PollersKeep(s.(jc := DoJobPublish(s, ok, polling).jc), DoJobPublish(s, ok, polling).pollers);
    }
  }

  lemma JobSaveFailedKeeps(s: State, how: WriteOutcome)
    requires s in SAFE
    ensures DoJobSaveFailed(s, how) in SAFE
  {
    if s.jc.JMarkFailed? {
      CarriedRow(s);
      WrittenIs(s.rows, s.jc.next, how);
      ForeignRequeued(s.jc.err);
      JobsKeep(s, s.jobs, JRetry);
      RowWriteKeeps(s.(jc := JRetry), s.jc.next, how);
      JobsKeep(s.(jc := JRetry, rows := Written(s.rows, s.jc.next, how)), s.jobs, DoJobSaveFailed(s, how).jc);
    }
  }

  lemma JobPublishFailedKeeps(s: State, ok: bool)
    requires s in SAFE
    ensures DoJobPublishFailed(s, ok) in SAFE
  {
    if s.jc.JPublishFailed? {
      ForeignRequeued(s.jc.err);
      JobsKeep(s, s.jobs, DoJobPublishFailed(s, ok).jc);
    }
  }

  lemma JobAckKeeps(s: State, ok: bool)
    requires s in SAFE
    ensures DoJobAck(s, ok) in SAFE
  {
    if s.jc == JAck {
      AckSound(s.jobs, ok);
      AckedGrows(s.rows, s.jobs, ok);
      JobsKeep(s, AckSent(s.jobs, ok), JQueue);
    }
  }

  lemma JobRemoveKeeps(s: State, ok: bool)
    requires s in SAFE
    ensures DoJobRemove(s, ok) in SAFE
  {
    if s.jc == JRetry {
      RemoveSound(s.jobs, ok);
      JobsKeep(s, DoJobRemove(s, ok).jobs, DoJobRemove(s, ok).jc);
    }
  }

  lemma JobRepublishKeeps(s: State, ok: bool)
    requires s in SAFE
    ensures DoJobRepublish(s, ok) in SAFE
  {
    if s.jc == JGap {
      RepublishSound(s.jobs, ok);
      CarriedRow(s);
      CarriedWasSent(s.jobs);
      JobsKeep(s, DoJobRepublish(s, ok).jobs, DoJobRepublish(s, ok).jc);
    }
  }

  lemma ExhaustCopyOK(rows: Rows, hand: Hand<JobId>, id: JobId, now: Time, msg: string)
    requires RowsOK(rows) && id in rows && hand.Idle?
    ensures MarkedFailed(rows[id], now, msg).Ok? ==>
        JcOK(rows, hand, JExhaustSave(rows[id], MarkedFailed(rows[id], now, msg).value))
  {
  }

  lemma ExhaustGetKeeps(s: State, ok: bool, now: Time, text: string)
    requires s in SAFE
    ensures DoExhaustGet(s, ok, now, text) in SAFE
  {
    hide MarkedFailed, ExhaustedMessage;
    if s.jc.JExhaust? {
      ExhaustCopyOK(s.rows, s.jobs.hand, s.jc.id, now, ExhaustedMessage(text));
      JobsKeep(s, s.jobs, DoExhaustGet(s, ok, now, text).jc);
    }
  }

  lemma ExhaustIsLegal(rows: Rows, calls: map<JobId, Call>, sent: seq<JobId>, hand: Hand<JobId>, jc: JobPc)
    requires RowsOK(rows) && CallsOK(rows, calls, sent) && JcOK(rows, hand, jc) && ExhaustOK(sent, jc)
        && jc.JExhaustSave?
    ensures LegalWrite(rows, jc.next.id, jc.next) && calls[jc.next.id].Done?
  {
  }

  lemma ExhaustSaveKeeps(s: State, how: WriteOutcome)
    requires s in SAFE
    ensures DoExhaustSave(s, how) in SAFE
  {
    if s.jc.JExhaustSave? {
      ExhaustIsLegal(s.rows, s.calls, s.jobs.sent, s.jobs.hand, s.jc);
      JobsKeep(s, s.jobs, JQueue);
      RowWriteKeeps(s.(jc := JQueue), s.jc.next, how);
    }
  }

  lemma ApiCrashKeeps(s: State, id: JobId)
    requires s in SAFE
    ensures DoApiCrash(s, id) in SAFE
  {
  }

  // The callback consumer

  lemma CbRecoverKeeps(s: State, ok: bool)
    requires s in SAFE
    ensures DoCbRecover(s, ok) in SAFE
  {
    RecoverSound(s.cbs, ok);
    if s.cc == CQueue {
      CbsKeep(s, Recovered(s.cbs, ok), CQueue);
    }
  }

  lemma CbDequeueKeeps(s: State)
    requires s in SAFE
    ensures DoCbDequeue(s) in SAFE
  {
    ReserveSound(s.cbs);
    var s' := DoCbDequeue(s);
    CbsKeep(s, s'.cbs, s'.cc);
  }

  /** What the callback consumer carries passed validation. */
  lemma CarriedValid(s: State)
    requires s in SAFE && s.cbs.hand.Holding?
    ensures ValidateRequest(s.cbs.hand.msg.body).None?
  {
    CarriedWasSent(s.cbs);
    var i := TimesIndex(s.cbs.sent, s.cbs.hand.msg.body);
  }

  lemma LookupOK(rows: Rows, keys: set<TrackKey>, hand: Hand<Request>, j: Job, req: Request, now: Time)
    requires Serves(hand, req) && ValidateRequest(req).None?
    requires j.id in rows && rows[j.id] == j && WellFormed(j) && j.taskId == Some(req.TaskId())
    ensures CcOK(rows, keys, hand, AfterLookup(j, req, now))
  {
    MarksKeepWellFormed(j, now, req.ErrorMessage());
    hide TrimSpace;
  }

  lemma CbLookupKeeps(s: State, ok: bool, now: Time)
    requires s in SAFE
    ensures DoCbLookup(s, ok, now) in SAFE
  {
    if s.cc.CGot? {
      CarriedValid(s);
      ForeignRequeued(DB_ERROR);
      var req := s.cc.req;
      if GetJobByTask(s.rows, req.TaskId(), ok).Ok? {
        LookupOK(s.rows, EverStored(s), s.cbs.hand, GetJobByTask(s.rows, req.TaskId(), ok).value, req, now);
      }
      CbsKeep(s, s.cbs, DoCbLookup(s, ok, now).cc);
    }
  }

  lemma CbBuildKeeps(s: State, uploads: Uploads)
    requires s in SAFE
    ensures DoCbBuild(s, uploads) in SAFE
  {
    if s.cc.CBuild? && s.cc.i < |s.cc.req.results| {
      var r := s.cc.req.results[s.cc.i];
      if BuildTrack(s.cc.base, r, uploads).Ok? {
        BuiltIsCanonical(s.cc.base, r, uploads);
      } else {
        BuildErrorRetried(s.cc.base, r, uploads);
      }
      CbsKeep(s, s.cbs, DoCbBuild(s, uploads).cc);
    }
  }

  lemma TableKeeps(s: State, tracks: TrackTable)
    requires s in SAFE && s.tracks.Keys <= tracks.Keys && Canonical(tracks)
    ensures s.(tracks := tracks, deleted := s.deleted - tracks.Keys) in SAFE
  {
    KeysGrow(s.rows, EverStored(s), EverStored(s.(tracks := tracks, deleted := s.deleted - tracks.Keys)), s.cbs.sent);
  }

  lemma UpsertKeepsCanonical(t: TrackTable, track: Track, how: WriteOutcome)
    requires Canonical(t) && CanonicalRow(KeyOf(track), InsertRow(track))
    ensures Canonical(Stored(t, track, how)) && t.Keys <= Stored(t, track, how).Keys
    ensures how == WrittenRead && !Rejected(t, track) ==> KeyOf(track) in Stored(t, track, how)
  {
  }

  lemma StoreNext(rows: Rows, keys: set<TrackKey>, keys': set<TrackKey>, hand: Hand<Request>, cc: CbPc)
    requires CcOK(rows, keys, hand, cc) && cc.CStore? && keys <= keys' && KeyOf(cc.track) in keys'
    ensures CcOK(rows, keys', hand, CBuild(cc.base, cc.req, cc.i + 1))
  {
  }

  lemma CbStoreKeeps(s: State, how: WriteOutcome)
    requires s in SAFE
    ensures DoCbStore(s, how) in SAFE
  {
    if s.cc.CStore? {
      var tracks' := Stored(s.tracks, s.cc.track, how);
      var s' := s.(tracks := tracks', deleted := s.deleted - tracks'.Keys);
      ForeignRequeued(CREATE_TRACK_ERROR);
      UpsertKeepsCanonical(s.tracks, s.cc.track, how);
      if how == WrittenRead && !Rejected(s.tracks, s.cc.track) {
        StoreNext(s.rows, EverStored(s), EverStored(s'), s.cbs.hand, s.cc);
      }
      TableKeeps(s, s'.tracks);
      CbsKeep(s', s.cbs, DoCbStore(s, how).cc);
    }
  }

  lemma CbMarkReadyKeeps(s: State, now: Time)
    requires s in SAFE
    ensures DoCbMarkReady(s, now) in SAFE
  {
    if s.cc.CBuild? && s.cc.i >= |s.cc.req.results| {
      MarksKeepWellFormed(s.cc.base, now, "");
      CbsKeep(s, s.cbs, DoCbMarkReady(s, now).cc);
    }
  }

  /** The consumer's copy may go over the row: both have left the queued state with the same task id. */
  lemma CopyIsLegal(rows: Rows, base: Job, next: Job, req: Request)
    requires RowsOK(rows) && CopyOK(rows, base, req) && SameCore(base, next) && WellFormed(next)
        && Terminal(next.status)
    ensures LegalWrite(rows, next.id, next) && rows[next.id].status != Queued
  {
  }

  lemma AfterSaveOK(rows: Rows, keys: set<TrackKey>, hand: Hand<Request>, base: Job, next: Job, req: Request,
      how: WriteOutcome)
    requires RowsOK(rows) && CopyOK(rows, base, req) && SameCore(base, next) && WellFormed(next)
        && Terminal(next.status)
    requires Serves(hand, req)
    ensures var rows', r := Written(rows, next, how), WriteResult(rows, next, how);
            && CcOK(rows', keys, hand, AfterSaveReady(r, base.id, req))
            && CcOK(rows', keys, hand, AfterSaveFailed(r, base.id))
  {
  }

  /** The request in hand backs the ready row that it is about to write. */
  lemma CarriedBacks(s: State)
    requires s in SAFE && s.cc.CReady?
    ensures Backed(EverStored(s), s.cbs.sent, s.cc.next)
  {
    CarriedWasSent(s.cbs);
    var i := TimesIndex(s.cbs.sent, s.cc.req);
  }

  lemma CbSaveReadyKeeps(s: State, how: WriteOutcome)
    requires s in SAFE
    ensures DoCbSaveReady(s, how) in SAFE
  {
    if s.cc.CReady? {
      var base, next, req := s.cc.base, s.cc.next, s.cc.req;
      CopyIsLegal(s.rows, base, next, req);
      CarriedBacks(s);
      CbsKeep(s, s.cbs, CRetry);
      RowWriteKeeps(s.(cc := CRetry), next, how);
      AfterSaveOK(s.rows, EverStored(s), s.cbs.hand, base, next, req, how);
      CbsKeep(s.(cc := CRetry, rows := Written(s.rows, next, how)), s.cbs, DoCbSaveReady(s, how).cc);
    }
  }

  lemma CbPublishKeeps(s: State, ok: bool)
    requires s in SAFE
    ensures DoCbPublish(s, ok) in SAFE
  {
    if s.cc.CPublish? {
      ForeignRequeued(Plain);
      CbsKeep(s, s.cbs, DoCbPublish(s, ok).cc);
    }
  }

  lemma CbSaveFailedKeeps(s: State, how: WriteOutcome)
    requires s in SAFE
    ensures DoCbSaveFailed(s, how) in SAFE
  {
    if s.cc.CFail? {
      var base, next, req := s.cc.base, s.cc.next, s.cc.req;
      CopyIsLegal(s.rows, base, next, req);
      CbsKeep(s, s.cbs, CRetry);
      RowWriteKeeps(s.(cc := CRetry), next, how);
      AfterSaveOK(s.rows, EverStored(s), s.cbs.hand, base, next, req, how);
      CbsKeep(s.(cc := CRetry, rows := Written(s.rows, next, how)), s.cbs, DoCbSaveFailed(s, how).cc);
    }
  }

  lemma CbAckedGrows(rows: Rows, q: Queue<Request>, about: Option<JobId>, ok: bool)
    requires CbAckedOK(rows, q.acked) && HandAgrees(q) && q.hand.Holding? && AckJustified(rows, about, q.hand.msg.body)
    ensures CbAckedOK(rows, AckSent(q, ok).acked)
  {
  }

  lemma CbAckKeeps(s: State, ok: bool)
    requires s in SAFE
    ensures DoCbAck(s, ok) in SAFE
  {
    if s.cc.CAck? {
      AckSound(s.cbs, ok);
      CbAckedGrows(s.rows, s.cbs, s.cc.about, ok);
      CbsKeep(s, AckSent(s.cbs, ok), CQueue);
    }
  }

  lemma CbRemoveKeeps(s: State, ok: bool)
    requires s in SAFE
    ensures DoCbRemove(s, ok) in SAFE
  {
    if s.cc == CRetry {
      RemoveSound(s.cbs, ok);
      CbsKeep(s, DoCbRemove(s, ok).cbs, DoCbRemove(s, ok).cc);
    }
  }

  lemma CbRepublishKeeps(s: State, ok: bool)
    requires s in SAFE
    ensures DoCbRepublish(s, ok) in SAFE
  {
    if s.cc == CGap {
      RepublishSound(s.cbs, ok);
      CbsKeep(s, Republished(s.cbs, ok), CQueue);
    }
  }

  // The pollers and the crash

  lemma PollersKeep(s: State, ps: seq<Poller>)
    requires s in SAFE && PollersOK(ps)
    ensures s.(pollers := ps) in SAFE
  {
  }

  lemma PollCheckKeeps(s: State, p: nat, ok: bool)
    requires s in SAFE
    ensures DoPollCheck(s, p, ok) in SAFE
  {
  }

  lemma PollFetchKeeps(s: State, p: nat, details: Option<Details>)
    requires s in SAFE
    ensures DoPollFetch(s, p, details) in SAFE
  {
    if p < |s.pollers| && s.pollers[p].pc.PFetch? && details.Some?
        && FromDetails(s.pollers[p].task, details.value).Some? {
      PolledRequestValid(s.pollers[p].task, details.value);
    }
    PollersKeep(s, DoPollFetch(s, p, details).pollers);
  }

  lemma PollSendKeeps(s: State, p: nat, ok: bool)
    requires s in SAFE
    ensures DoPollSend(s, p, ok) in SAFE
  {
    if p < |s.pollers| && s.pollers[p].pc.PSend? {
      PushRequestKeeps(s, s.pollers[p].pc.req);
      PollersKeep(if ok then s.(cbs := Pushed(s.cbs, s.pollers[p].pc.req)) else s, DoPollSend(s, p, ok).pollers);
    }
  }

  lemma PollTimeoutKeeps(s: State, p: nat)
    requires s in SAFE
    ensures DoPollTimeout(s, p) in SAFE
  {
  }

  lemma WorkerCrashKeeps(s: State)
    requires s in SAFE
    ensures DoWorkerCrash(s) in SAFE
  {
    CrashSound(s.jobs);
    JobsKeep(s, Crashed(s.jobs), JQueue);
    var s1 := s.(jobs := Crashed(s.jobs), jc := JQueue);
    CrashSound(s.cbs);
    CbsKeep(s1, Crashed(s.cbs), CQueue);
    PollersKeep(s1.(cbs := Crashed(s.cbs), cc := CQueue), Stopped(s.pollers));
  }

  // All actions

  lemma ApiStepKeeps(s: State, a: Action)
    requires s in SAFE && By(a) == Server
    ensures ApiStep(s, a) in SAFE
  {
    hide SAFE;
    hide DoApiCreate, DoApiReadBack, DoApiEnqueue, DoApiCompensate, DoApiCrash, DoApiCallback;
    hide DoApiFavourite, DoApiDeleteTrack;
    match a
    case ApiCreate(id, user, params) => ApiCreateKeeps(s, id, user, params);
    case ApiReadBack(id, ok) => ApiReadBackKeeps(s, id, ok);
    case ApiEnqueue(id, ok, now, text) => ApiEnqueueKeeps(s, id, ok, now, text);
    case ApiCompensate(id, how) => ApiCompensateKeeps(s, id, how);
    case ApiCrash(id) => ApiCrashKeeps(s, id);
    case ApiCallback(req) => ApiCallbackKeeps(s, req);
    case ApiFavourite(key, user, favourite) => ApiFavouriteKeeps(s, key, user, favourite);
    case ApiDeleteTrack(key, user) => ApiDeleteTrackKeeps(s, key, user);
  }

  lemma ProcessorStepKeeps(s: State, a: Action)
    requires s in SAFE && By(a) == Processor
    ensures ProcessorStep(s, a) in SAFE
  {
    match a
    case JobGet(ok) => JobGetKeeps(s, ok);
    case JobGenerate(gen, now, text) => JobGenerateKeeps(s, gen, now, text);
    case JobSave(how) => JobSaveKeeps(s, how);
    case JobPublish(ok, polling) => JobPublishKeeps(s, ok, polling);
    case JobSaveFailed(how) => JobSaveFailedKeeps(s, how);
    case JobPublishFailed(ok) => JobPublishFailedKeeps(s, ok);
  }

  lemma ExhaustedStepKeeps(s: State, a: Action)
    requires s in SAFE && By(a) == Exhausted
    ensures ExhaustedStep(s, a) in SAFE
  {
    match a
    case ExhaustGet(ok, now, text) => ExhaustGetKeeps(s, ok, now, text);
    case ExhaustSave(how) => ExhaustSaveKeeps(s, how);
  }

  lemma JobQueueStepKeeps(s: State, a: Action)
    requires s in SAFE && By(a) == JobQueue
    ensures JobQueueStep(s, a) in SAFE
  {
    match a
    case JobRecover(ok) => JobRecoverKeeps(s, ok);
    case JobDequeue => JobDequeueKeeps(s);
    case JobAck(ok) => JobAckKeeps(s, ok);
    case JobRemove(ok) => JobRemoveKeeps(s, ok);
    case JobRepublish(ok) => JobRepublishKeeps(s, ok);
  }

  lemma HandlerStepKeeps(s: State, a: Action)
    requires s in SAFE && By(a) == Handler
    ensures HandlerStep(s, a) in SAFE
  {
    match a
    case CbLookup(ok, now) => CbLookupKeeps(s, ok, now);
    case CbBuild(uploads) => CbBuildKeeps(s, uploads);
    case CbStore(how) => CbStoreKeeps(s, how);
    case CbMarkReady(now) => CbMarkReadyKeeps(s, now);
    case CbSaveReady(how) => CbSaveReadyKeeps(s, how);
    case CbPublish(ok) => CbPublishKeeps(s, ok);
    case CbSaveFailed(how) => CbSaveFailedKeeps(s, how);
  }

  lemma CallbackQueueStepKeeps(s: State, a: Action)
    requires s in SAFE && By(a) == CallbackQueue
    ensures CallbackQueueStep(s, a) in SAFE
  {
    match a
    case CbRecover(ok) => CbRecoverKeeps(s, ok);
    case CbDequeue => CbDequeueKeeps(s);
    case CbAck(ok) => CbAckKeeps(s, ok);
    case CbRemove(ok) => CbRemoveKeeps(s, ok);
    case CbRepublish(ok) => CbRepublishKeeps(s, ok);
  }

  lemma PollStepKeeps(s: State, a: Action)
    requires s in SAFE
    ensures PollStep(s, a) in SAFE
  {
    hide SAFE, DoPollCheck, DoPollFetch, DoPollSend, DoPollTimeout;
    match a
    case PollCheck(p, ok) => PollCheckKeeps(s, p, ok);
    case PollFetch(p, details) => PollFetchKeeps(s, p, details);
    case PollSend(p, ok) => PollSendKeeps(s, p, ok);
    case PollTimeout(p) => PollTimeoutKeeps(s, p);
    case _ =>
  }

  /** Every action of every actor keeps the invariant. */
  lemma StepKeeps(s: State, a: Action)
    requires s in SAFE
    ensures Step(s, a) in SAFE
  {
    hide ApiStep, ProcessorStep, ExhaustedStep, JobQueueStep, HandlerStep, CallbackQueueStep, PollStep, DoWorkerCrash,
        By, SAFE;
    match By(a)
    case Server => ApiStepKeeps(s, a);
    case Processor => ProcessorStepKeeps(s, a);
    case Exhausted => ExhaustedStepKeeps(s, a);
    case JobQueue => JobQueueStepKeeps(s, a);
    case Handler => HandlerStepKeeps(s, a);
    case CallbackQueue => CallbackQueueStepKeeps(s, a);
    case Polling => PollStepKeeps(s, a);
    case Host => WorkerCrashKeeps(s);
  }

  lemma {:induction false} ExecKeeps(s: State, acts: seq<Action>)
    requires s in SAFE
    ensures Exec(s, acts) in SAFE
    decreases |acts|
  {
    hide Step, SAFE;
    if acts != [] {
      StepKeeps(s, acts[0]);
      ExecKeeps(Step(s, acts[0]), acts[1..]);
    }
  }

  lemma ReachableInv(s: State)
    requires Reachable(s)
    ensures s in SAFE
  {
    StartInv();
    var acts: seq<Action> :| Exec(Start(), acts) == s;
    ExecKeeps(Start(), acts);
  }
}
