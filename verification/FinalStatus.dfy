/**
  When a final status can still change: exactly while a stale copy of the other finisher can still be saved
  over it.
  */
module FinalStatus {
  import opened Text
  import opened Errors
  import opened Jobs
  import opened JobStore
  import opened Callbacks
  import opened Tracks
  import opened QueueProtocol
  import opened Pipeline
  import opened PipelineInv
  import opened PipelineTheorems
  import opened DeadLetters
  import opened Refinement

  /** Storage and the provider's data permitting, a track can be made of the result. */
  predicate Buildable(r: SunoResult) {
    && !Blank(r.audioId) && (Given(r.audioUrl) || Given(r.sourceAudioUrl))
    && r.duration.Some? && r.duration.value > 0.0
  }

  /** The index of the first result of which the callback consumer has still to build a track. */
  function Rest(cc: CbPc): nat
    requires Copying(cc)
  {
    match cc
    case CBuild(_, _, i) => i
    case CStore(_, _, i, _) => i + 1
    case CReady(_, _, req) => |req.results|
  }

  /** The rest of the results can be built. */
  predicate Finishable(cc: CbPc)
    requires Copying(cc)
  {
    forall k :: Rest(cc) <= k < |cc.req.results| ==> Buildable(cc.req.results[k])
  }

  /**
    A stale copy threatens the status: `Exhausted` is about to save failed over a ready row, or a complete
    callback that read the row before it failed can still get to its save.
    */
  predicate Threatened(s: State, id: JobId) {
    id in s.rows
    && ((s.rows[id].status == Ready && s.jc.JExhaustSave? && s.jc.base.id == id)
        || (s.rows[id].status == Failed && Copying(s.cc) && s.cc.base.id == id && s.cc.base.status == Processing
            && Finishable(s.cc)))
  }

  // Without a threat the status is fixed

  lemma OverwriteThreatens(s: State, a: Action, id: JobId)
    requires s in SAFE && StaleOverwrite(s, a, id)
    ensures Threatened(s, id)
  {
    hide WellFormed, StoredUpTo;
  }

  lemma ExhaustReadsUnfinished(s: State, a: Action)
    requires RowsOK(s.rows) && ExhaustedStep(s, a).jc.JExhaustSave?
    ensures var c := ExhaustedStep(s, a).jc;
            c == s.jc || (c.base.id in s.rows && s.rows[c.base.id].status != Ready)
  {
    hide Written, WellFormed, TrimSpace;
  }

  lemma QueueKeepsExhaustSave(s: State, a: Action)
    requires JobQueueStep(s, a).jc.JExhaustSave?
    ensures JobQueueStep(s, a).jc == s.jc
  {
    hide Recovered, Reserved, AckSent, Removed, Republished;
  }

  lemma ExhaustSaveComesFrom(s: State, a: Action)
    requires s in SAFE && Step(s, a).jc.JExhaustSave?
    ensures var c := Step(s, a).jc; c == s.jc || (c.base.id in s.rows && s.rows[c.base.id].status != Ready)
  {
    hide SAFE, ApiStep, ProcessorStep, ExhaustedStep, JobQueueStep, HandlerStep, CallbackQueueStep, PollStep, RowsOK;
    SafeQueue(s);
    ApiLeavesConsumers(s, a);
    PollLeavesConsumers(s, a);
    HandlerLeavesJobConsumer(s, a);
    CallbackQueueLeavesJobConsumer(s, a);
    ProcessorNeverExhausts(s, a);
    if By(a) == Exhausted {
      ExhaustReadsUnfinished(s, a);
    } else if By(a) == JobQueue {
      QueueKeepsExhaustSave(s, a);
    }
  }

  lemma BuiltIsBuildable(j: Job, r: SunoResult, u: Uploads)
    requires BuildTrack(j, r, u).Ok?
    ensures Buildable(r)
  {
    BuildsIff(j, r, u);
  }

  lemma BuildFinishes(s: State, a: Action)
    requires a.CbBuild? && Copying(s.cc) && Copying(DoCbBuild(s, a.uploads).cc)
    ensures Finishable(DoCbBuild(s, a.uploads).cc) ==> Finishable(s.cc)
  {
    hide BuildTrack, CallbackRequeue, Buildable;
    if s.cc.CBuild? && s.cc.i < |s.cc.req.results| {
      var r := s.cc.req.results[s.cc.i];
      if BuildTrack(s.cc.base, r, a.uploads).Ok? {
        BuiltIsBuildable(s.cc.base, r, a.uploads);
      }
    }
  }

  /** The handler moves on only over results that it could build. */
  lemma HandlerFinishes(s: State, a: Action)
    requires !a.CbLookup? && Copying(s.cc) && Copying(HandlerStep(s, a).cc)
    ensures Finishable(HandlerStep(s, a).cc) ==> Finishable(s.cc)
  {
    hide Written, WriteResult, CallbackRequeue, DoCbBuild, Stored, Rejected, MarkedReady, Buildable;
    if a.CbBuild? {
      BuildFinishes(s, a);
    }
  }

  lemma CopyFinishes(s: State, a: Action)
    requires s in SAFE && Copying(s.cc) && Copying(Step(s, a).cc)
    ensures Finishable(Step(s, a).cc) ==> Finishable(s.cc)
  {
    hide ApiStep, ProcessorStep, ExhaustedStep, JobQueueStep, HandlerStep, CallbackQueueStep, PollStep;
    hide SAFE, Finishable;
    QueueStepsMakeNoCopy(s, a);
    ApiLeavesConsumers(s, a);
    PollLeavesConsumers(s, a);
    ProcessorLeavesCallbackConsumer(s, a);
    JobQueueLeavesCallbackConsumer(s, a);
    if By(a) == Handler {
      if a.CbLookup? {
        LookupRests(s, a);
      } else {
        HandlerFinishes(s, a);
      }
    }
  }

  lemma LookupRests(s: State, a: Action)
    requires a.CbLookup? && !s.cc.CGot?
    ensures HandlerStep(s, a).cc == s.cc
  {
  }

  lemma NoThreatArises(s: State, a: Action, id: JobId)
    requires s in SAFE && id in s.rows && !Threatened(s, id)
    requires id in Step(s, a).rows && Step(s, a).rows[id].status == s.rows[id].status
    ensures !Threatened(Step(s, a), id)
  {
    hide SAFE, Step, Finishable, RowWrite;
    var s' := Step(s, a);
    if Threatened(s', id) {
      if s.rows[id].status == Ready {
        ExhaustSaveComesFrom(s, a);
      } else {
        CopyOrigin(s, a);
        if Copying(s.cc) {
          CopyFinishes(s, a);
        }
      }
    }
  }

  lemma UnthreatenedStep(s: State, a: Action, id: JobId)
    requires s in SAFE && id in s.rows && Terminal(s.rows[id].status) && !Threatened(s, id)
    ensures id in Step(s, a).rows && Step(s, a).rows[id].status == s.rows[id].status
    ensures !Threatened(Step(s, a), id)
  {
    hide *;
    StepRows(s, a);
    RowsAfterStatus(s, a, id);
    if StaleOverwrite(s, a, id) {
      OverwriteThreatens(s, a, id);
    }
    NoThreatArises(s, a, id);
  }

  lemma {:induction false} UnthreatenedFrom(s: State, acts: seq<Action>, id: JobId)
    requires s in SAFE && id in s.rows && Terminal(s.rows[id].status) && !Threatened(s, id)
    ensures id in Exec(s, acts).rows && Exec(s, acts).rows[id].status == s.rows[id].status
    decreases |acts|
  {
    hide SAFE, Step, Threatened;
    if acts != [] {
      UnthreatenedStep(s, acts[0], id);
      StepKeeps(s, acts[0]);
      UnthreatenedFrom(Step(s, acts[0]), acts[1..], id);
    }
  }

  // With a threat it can change

  ghost predicate HasStatus(s: State, acts: seq<Action>, id: JobId, status: Status) {
    id in Exec(s, acts).rows && Exec(s, acts).rows[id].status == status
  }

  ghost predicate CanChange(s: State, id: JobId, status: Status) {
    exists acts: seq<Action> :: !HasStatus(s, acts, id, status)
  }

  lemma ChangesNow(s: State, a: Action, id: JobId, status: Status)
    requires id !in Step(s, a).rows || Step(s, a).rows[id].status != status
    ensures CanChange(s, id, status)
  {
    hide Step;
    ExecCons(s, a, []);
    ExecNil(Step(s, a));
    assert !HasStatus(s, [a] + [], id, status);
  }

  lemma ChangesLater(s: State, a: Action, id: JobId, status: Status)
    requires CanChange(Step(s, a), id, status)
    ensures CanChange(s, id, status)
  {
    hide Step, Exec;
    var acts: seq<Action> :| !HasStatus(Step(s, a), acts, id, status);
    ExecCons(s, a, acts);
    assert !HasStatus(s, [a] + acts, id, status);
  }

  /** A row with the same task id can always be saved. */
  lemma SameTaskLands(rows: Rows, j: Job)
    requires RowsOK(rows) && TasksUnique(rows) && j.id in rows && SameCore(rows[j.id], j)
    ensures Written(rows, j, WrittenRead) == rows[j.id := j]
  {
    assert Patched(rows[j.id], j) == j;
  }

  lemma ReadyCanFail(s: State, id: JobId)
    requires s in SAFE && id in s.rows && s.rows[id].status == Ready && s.jc.JExhaustSave? && s.jc.base.id == id
    ensures CanChange(s, id, Ready)
  {
    hide SAFE, CanChange, Written, WellFormed, CcOK;
    var a := ExhaustSave(WrittenRead);
    SafeParts(s);
    SameTaskLands(s.rows, s.jc.next);
    StepIs(s, a);
    hide Step, RowsOK, TasksUnique;
    ChangesNow(s, a, id, Ready);
  }

  lemma ReadyCopyIs(s: State)
    requires s in SAFE && s.cc.CReady?
    ensures var j := s.cc.next;
            j.id == s.cc.base.id && j.id in s.rows && SameCore(s.rows[j.id], j) && j.status == Ready
  {
    hide StoredUpTo, WellFormed;
  }

  lemma ReadySaves(s: State)
    requires s.cc.CReady? && Written(s.rows, s.cc.next, WrittenRead) == s.rows[s.cc.next.id := s.cc.next]
    ensures Step(s, CbSaveReady(WrittenRead)).rows == s.rows[s.cc.next.id := s.cc.next]
  {
    StepIs(s, CbSaveReady(WrittenRead));
    hide Step, Written, WriteResult, CallbackRequeue;
  }

  lemma SavedReadyChanges(s: State, id: JobId)
    requires s in SAFE && s.cc.CReady? && s.cc.base.id == id
    ensures CanChange(s, id, Failed)
  {
    hide SAFE, CanChange, Written, WellFormed, JcOK, CcOK, Step;
    SafeParts(s);
    ReadyCopyIs(s);
    SameTaskLands(s.rows, s.cc.next);
    ReadySaves(s);
    ChangesNow(s, CbSaveReady(WrittenRead), id, Failed);
  }

  lemma MarksReady(s: State)
    requires s.cc.CBuild? && s.cc.i == |s.cc.req.results| && s.cc.base.status == Processing
    ensures var c := Step(s, CbMarkReady(0)).cc; c.CReady? && c.base == s.cc.base && c.req == s.cc.req
  {
    StepIs(s, CbMarkReady(0));
    hide Step, CallbackRequeue;
  }

  /** Storage that takes the audio under a bucket "audio". */
  function Taken(id: Uuid): Uploads {
    Uploads(Some("audio"), None, None, id)
  }

  lemma TakenBuilds(j: Job, r: SunoResult)
    requires Buildable(r)
    ensures BuildTrack(j, r, Taken(j.id)).Ok?
  {
    NonSpaceStartNotBlank("audio");
    BuildsIff(j, r, Taken(j.id));
    hide BuildTrack, TrimSpace;
  }

  lemma Builds(s: State)
    requires s.cc.CBuild? && s.cc.i < |s.cc.req.results| && Buildable(s.cc.req.results[s.cc.i])
    ensures var c := Step(s, CbBuild(Taken(s.cc.base.id))).cc;
            c.CStore? && c.base == s.cc.base && c.req == s.cc.req && c.i == s.cc.i
  {
    TakenBuilds(s.cc.base, s.cc.req.results[s.cc.i]);
    StepIs(s, CbBuild(Taken(s.cc.base.id)));
    hide Step, BuildTrack, Buildable, Taken, CallbackRequeue;
  }

  lemma Stores(s: State)
    requires s.cc.CStore? && !Rejected(s.tracks, s.cc.track)
    ensures Step(s, CbStore(WrittenRead)).cc == CBuild(s.cc.base, s.cc.req, s.cc.i + 1)
  {
    StepIs(s, CbStore(WrittenRead));
    hide Step, Rejected, Stored;
  }

  lemma BuildIndex(s: State)
    requires s in SAFE && (s.cc.CBuild? || s.cc.CStore?)
    ensures s.cc.i <= |s.cc.req.results| && (s.cc.CStore? ==> s.cc.i < |s.cc.req.results|)
  {
    hide WellFormed, CanonicalRow;
  }

  lemma {:induction false} BuildingChanges(s: State, id: JobId)
    requires s in SAFE && (s.cc.CBuild? || s.cc.CStore?) && s.cc.base.id == id && s.cc.base.status == Processing
    requires Finishable(s.cc)
    ensures CanChange(s, id, Failed)
    decreases |s.cc.req.results| - s.cc.i, s.cc.CBuild?
  {
    hide SAFE, CanChange, Step, Buildable, Rejected;
    BuildIndex(s);
    if s.cc.CStore? {
      var a := CbStore(WrittenRead);
      IndexesAdmit(s);
      Stores(s);
      StepKeeps(s, a);
      BuildIndex(Step(s, a));
      BuildingChanges(Step(s, a), id);
      ChangesLater(s, a, id, Failed);
    } else if s.cc.i == |s.cc.req.results| {
      var a := CbMarkReady(0);
      MarksReady(s);
      StepKeeps(s, a);
      SavedReadyChanges(Step(s, a), id);
      ChangesLater(s, a, id, Failed);
    } else {
      var a := CbBuild(Taken(s.cc.base.id));
      Builds(s);
      StepKeeps(s, a);
      BuildingChanges(Step(s, a), id);
      ChangesLater(s, a, id, Failed);
    }
  }

  lemma ThreatenedChanges(s: State, id: JobId)
    requires s in SAFE && Threatened(s, id)
    ensures CanChange(s, id, s.rows[id].status)
  {
    hide SAFE, CanChange, Finishable;
    if s.rows[id].status == Ready {
      ReadyCanFail(s, id);
    } else if s.cc.CReady? {
      SavedReadyChanges(s, id);
    } else {
      BuildingChanges(s, id);
    }
  }

  /**
    The exact final status of a job stays in every further run if and only if no stale copy threatens it,
    whether or not its message is in the dead-letter list.
    */
  lemma StatusFixedIff(s: State, id: JobId)
    requires Reachable(s) && id in s.rows && Terminal(s.rows[id].status)
    ensures (forall acts :: HasStatus(s, acts, id, s.rows[id].status)) <==> !Threatened(s, id)
  {
    hide SAFE, Exec, Threatened;
    ReachableInv(s);
    if Threatened(s, id) {
      ThreatenedChanges(s, id);
    } else {
      forall acts: seq<Action> ensures HasStatus(s, acts, id, s.rows[id].status) {
        UnthreatenedFrom(s, acts, id);
      }
    }
  }

  lemma ThreatNeedsDeadLetter(s: State, id: JobId)
    requires Reachable(s) && Threatened(s, id)
    ensures Count(s.jobs.dlq, id) > 0
  {
    hide SAFE, Count, Finishable;
    ReachableDead(s);
  }
}
