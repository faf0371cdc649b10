/** Repeated and interrupted runs over one complete callback leave the track rows of one clean run. */
module Convergence {
  import opened Text
  import opened Errors
  import opened Jobs
  import opened Callbacks
  import opened Tracks
  import opened Handlers

  function MergeOption(a: Option<TrackRow>, b: Option<TrackRow>): Option<TrackRow> {
    if a.None? then b else if b.None? then a else Some(Merge(a.value, b.value))
  }

  lemma MergeOptionAssociative(a: Option<TrackRow>, b: Option<TrackRow>, c: Option<TrackRow>)
    ensures MergeOption(MergeOption(a, b), c) == MergeOption(a, MergeOption(b, c))
  {
    hide Merge;
    if a.Some? && b.Some? && c.Some? {
      MergeAssociative(a.value, b.value, c.value);
    }
  }

  lemma LookupUpserted(t: TrackTable, x: Track, k: TrackKey)
    ensures Lookup(Upserted(t, x), k) == MergeOption(Lookup(t, k), Lookup(Upserted(map[], x), k))
  {
  }

  /** A sequence of upserts acts on a table as the one row it would leave in an empty table. */
  lemma {:induction false} UpsertAllMerges(t: TrackTable, xs: seq<Track>, k: TrackKey)
    ensures Lookup(UpsertAll(t, xs), k) == MergeOption(Lookup(t, k), Lookup(UpsertAll(map[], xs), k))
    decreases |xs|
  {
    if xs != [] {
      var single := Upserted(map[], xs[0]);
      UpsertAllMerges(Upserted(t, xs[0]), xs[1..], k);
      UpsertAllMerges(single, xs[1..], k);
      LookupUpserted(t, xs[0], k);
      MergeOptionAssociative(Lookup(t, k), Lookup(single, k), Lookup(UpsertAll(map[], xs[1..]), k));
    }
  }

  /** The tracks that a run of the results loop writes before it ends or stops. */
  function Effect(j: Job, rs: seq<SunoResult>, fs: seq<ResultFaults>): seq<Track>
    requires |rs| == |fs|
    decreases |rs|
  {
    if rs == [] || BuildTrack(j, rs[0], fs[0].uploads).Fail? || fs[0].store == NotWritten then []
    else
      var t := BuildTrack(j, rs[0], fs[0].uploads).value;
      if fs[0].store == WrittenUnread then [t] else [t] + Effect(j, rs[1..], fs[1..])
  }

  /** Whether the loop gets through all results. */
  predicate Clean(j: Job, rs: seq<SunoResult>, fs: seq<ResultFaults>)
    requires |rs| == |fs|
  {
    forall i :: 0 <= i < |rs| ==> BuildTrack(j, rs[i], fs[i].uploads).Ok? && fs[i].store == WrittenRead
  }

  lemma CleanCons(j: Job, rs: seq<SunoResult>, fs: seq<ResultFaults>)
    requires |rs| == |fs| && rs != []
    ensures Clean(j, rs, fs) <==>
            BuildTrack(j, rs[0], fs[0].uploads).Ok? && fs[0].store == WrittenRead && Clean(j, rs[1..], fs[1..])
  {
    hide BuildTrack;
    var ts, gs := rs[1..], fs[1..];
    assert forall i :: 0 < i < |rs| ==> rs[i] == ts[i - 1] && fs[i] == gs[i - 1];
    assert forall i :: 0 <= i < |ts| ==> ts[i] == rs[i + 1] && gs[i] == fs[i + 1];
  }

  lemma {:induction false} StoreResultsEffect(t: TrackTable, j: Job, rs: seq<SunoResult>, fs: seq<ResultFaults>)
    requires |rs| == |fs| && Canonical(t)
    ensures StoreResults(t, j, rs, fs).0 == UpsertAll(t, Effect(j, rs, fs))
    ensures StoreResults(t, j, rs, fs).1.None? <==> Clean(j, rs, fs)
    ensures Canonical(StoreResults(t, j, rs, fs).0)
    decreases |rs|
  {
    if rs != [] && BuildTrack(j, rs[0], fs[0].uploads).Ok? {
      var x := BuildTrack(j, rs[0], fs[0].uploads).value;
      BuiltNeverRejected(t, j, rs[0], fs[0].uploads);
      if fs[0].store == WrittenRead {
        StoreResultsEffect(Upserted(t, x), j, rs[1..], fs[1..]);
        assert Effect(j, rs, fs)[1..] == Effect(j, rs[1..], fs[1..]);
        CleanCons(j, rs, fs);
      }
    }
  }

  /** Some result is about this audio id. */
  predicate Mentions(rs: seq<SunoResult>, audio: string) {
    exists i :: 0 <= i < |rs| && TrimSpace(rs[i].audioId) == audio
  }

  /** Every upserted row is of this job and of an audio id that the results mention. */
  lemma {:induction false} EffectKeys(t: TrackTable, j: Job, rs: seq<SunoResult>, fs: seq<ResultFaults>, k: TrackKey)
    requires |rs| == |fs|
    ensures k in UpsertAll(t, Effect(j, rs, fs)) && k !in t ==> k.0 == j.id && Mentions(rs, k.1)
    ensures k in t ==> k in UpsertAll(t, Effect(j, rs, fs))
    ensures k.0 != j.id ==> Lookup(UpsertAll(t, Effect(j, rs, fs)), k) == Lookup(t, k)
    ensures Clean(j, rs, fs) && k.0 == j.id && Mentions(rs, k.1) ==> k in UpsertAll(t, Effect(j, rs, fs))
    decreases |rs|
  {
    if rs != [] && BuildTrack(j, rs[0], fs[0].uploads).Ok? && fs[0].store != NotWritten {
      var x := BuildTrack(j, rs[0], fs[0].uploads).value;
      assert KeyOf(x) == (j.id, TrimSpace(rs[0].audioId));
      if fs[0].store == WrittenRead {
        EffectKeys(Upserted(t, x), j, rs[1..], fs[1..], k);
        assert Effect(j, rs, fs)[1..] == Effect(j, rs[1..], fs[1..]);
        MentionsTail(rs, k.1);
        CleanCons(j, rs, fs);
      } else {
        assert Effect(j, rs, fs)[1..] == [];
        assert UpsertAll(t, Effect(j, rs, fs)) == Upserted(t, x);
      }
    }
  }

  lemma MentionsTail(rs: seq<SunoResult>, audio: string)
    requires rs != []
    ensures Mentions(rs, audio) <==> TrimSpace(rs[0].audioId) == audio || Mentions(rs[1..], audio)
  {
  }

  /** Runs that end anyhow. One that stops at a result, by an error or a crash, is one whose write there fails. */
  function AfterRuns(t: TrackTable, j: Job, rs: seq<SunoResult>, runs: seq<seq<ResultFaults>>): TrackTable
    requires forall i :: 0 <= i < |runs| ==> |runs[i]| == |rs|
    decreases |runs|
  {
    if runs == [] then t else AfterRuns(StoreResults(t, j, rs, runs[0]).0, j, rs, runs[1..])
  }

  predicate NoRowsOf(t: TrackTable, id: JobId) {
    forall k :: k in t ==> k.0 != id
  }

  lemma {:induction false} AfterRunsKeys(t: TrackTable, j: Job, rs: seq<SunoResult>, runs: seq<seq<ResultFaults>>,
      k: TrackKey)
    requires Canonical(t) && forall i :: 0 <= i < |runs| ==> |runs[i]| == |rs|
    ensures Canonical(AfterRuns(t, j, rs, runs))
    ensures k in AfterRuns(t, j, rs, runs) && k !in t ==> k.0 == j.id && Mentions(rs, k.1)
    ensures k.0 != j.id ==> Lookup(AfterRuns(t, j, rs, runs), k) == Lookup(t, k)
    decreases |runs|
  {
    if runs != [] {
      StoreResultsEffect(t, j, rs, runs[0]);
      EffectKeys(t, j, rs, runs[0], k);
      AfterRunsKeys(StoreResults(t, j, rs, runs[0]).0, j, rs, runs[1..], k);
    }
  }

  /**
    Any number of runs that stop anywhere, then one that gets through all results, and so succeeds: each
    row is the row that the last run alone would have left, merged into the row found before it. Rows of
    other jobs are untouched, and a job that had no rows has exactly one for each distinct trimmed audio id.
    */
  lemma RetriesConverge(t: TrackTable, j: Job, rs: seq<SunoResult>, runs: seq<seq<ResultFaults>>,
      last: seq<ResultFaults>, k: TrackKey)
    requires Canonical(t) && |last| == |rs| && forall i :: 0 <= i < |runs| ==> |runs[i]| == |rs|
    requires Clean(j, rs, last)
    ensures var before := AfterRuns(t, j, rs, runs);
            var (final, finalErr) := StoreResults(before, j, rs, last);
            var (clean, cleanErr) := StoreResults(map[], j, rs, last);
            && finalErr.None? && cleanErr.None?
            && Lookup(final, k) == MergeOption(Lookup(before, k), Lookup(clean, k))
            && (k.0 != j.id ==> Lookup(final, k) == Lookup(t, k))
            && (k in clean <==> k.0 == j.id && Mentions(rs, k.1))
            && (NoRowsOf(t, j.id) && k.0 == j.id ==> (k in final <==> k in clean))
  {
    var before := AfterRuns(t, j, rs, runs);
    AfterRunsKeys(t, j, rs, runs, k);
    StoreResultsEffect(before, j, rs, last);
    StoreResultsEffect(map[], j, rs, last);
    UpsertAllMerges(before, Effect(j, rs, last), k);
    EffectKeys(before, j, rs, last, k);
    EffectKeys(map[], j, rs, last, k);
  }

  lemma {:induction false} AfterRunsAppend(
    t: TrackTable, j: Job, rs: seq<SunoResult>, runs: seq<seq<ResultFaults>>, more: seq<seq<ResultFaults>>)
    requires forall i :: 0 <= i < |runs| ==> |runs[i]| == |rs|
    requires forall i :: 0 <= i < |more| ==> |more[i]| == |rs|
    ensures AfterRuns(t, j, rs, runs + more) == AfterRuns(AfterRuns(t, j, rs, runs), j, rs, more)
    decreases |runs|
  {
    if runs == [] {
      assert runs + more == more;
    } else {
      assert (runs + more)[1..] == runs[1..] + more;
      AfterRunsAppend(StoreResults(t, j, rs, runs[0]).0, j, rs, runs[1..], more);
    }
  }

  /** A later row is of the same insert, and still has a cover if there was one. */
  predicate Continues(a: TrackRow, b: TrackRow) {
    SameIdentity(a, b) && (a.imageKey.Some? ==> b.imageKey.Some?)
  }

  lemma RunContinues(t: TrackTable, j: Job, rs: seq<SunoResult>, fs: seq<ResultFaults>, k: TrackKey)
    requires Canonical(t) && |fs| == |rs| && k in t
    ensures var t' := StoreResults(t, j, rs, fs).0; Canonical(t') && k in t' && Continues(t[k], t'[k])
  {
    StoreResultsEffect(t, j, rs, fs);
    UpsertAllMerges(t, Effect(j, rs, fs), k);
    hide StoreResults, Effect, UpsertAll, BuildTrack, Canonical;
  }

  lemma {:induction false} RunsContinue(
    t: TrackTable, j: Job, rs: seq<SunoResult>, runs: seq<seq<ResultFaults>>, k: TrackKey)
    requires Canonical(t) && k in t && forall i :: 0 <= i < |runs| ==> |runs[i]| == |rs|
    ensures var t' := AfterRuns(t, j, rs, runs); Canonical(t') && k in t' && Continues(t[k], t'[k])
    decreases |runs|
  {
    if runs != [] {
      hide StoreResults, Canonical;
      RunContinues(t, j, rs, runs[0], k);
      RunsContinue(StoreResults(t, j, rs, runs[0]).0, j, rs, runs[1..], k);
    }
  }

  /**
    From the run that inserted a row on, be it before these runs or any of them, its id and favourite flag
    stay, and once it has a cover it keeps one.
    */
  lemma FirstInsertStays(
    t: TrackTable, j: Job, rs: seq<SunoResult>, runs: seq<seq<ResultFaults>>, n: nat, k: TrackKey)
    requires Canonical(t) && n <= |runs| && forall i :: 0 <= i < |runs| ==> |runs[i]| == |rs|
    requires k in AfterRuns(t, j, rs, runs[..n])
    ensures k in AfterRuns(t, j, rs, runs)
            && Continues(AfterRuns(t, j, rs, runs[..n])[k], AfterRuns(t, j, rs, runs)[k])
  {
    var mid := AfterRuns(t, j, rs, runs[..n]);
    AfterRunsKeys(t, j, rs, runs[..n], k);
    AfterRunsAppend(t, j, rs, runs[..n], runs[n..]);
    assert runs[..n] + runs[n..] == runs;
    RunsContinue(mid, j, rs, runs[n..], k);
  }

  /**
    Column by column, after the runs and a last one that gets through: the columns of a clean run, and the
    identity and cover that the row had after any number n of the runs, if it existed by then.
    */
  lemma ConvergedColumns(
    t: TrackTable, j: Job, rs: seq<SunoResult>, runs: seq<seq<ResultFaults>>, last: seq<ResultFaults>, n: nat,
        k: TrackKey)
    requires Canonical(t) && n <= |runs| && |last| == |rs| && forall i :: 0 <= i < |runs| ==> |runs[i]| == |rs|
    requires Clean(j, rs, last) && k.0 == j.id && Mentions(rs, k.1)
    ensures k in StoreResults(map[], j, rs, last).0
    ensures var before := AfterRuns(t, j, rs, runs);
            var final := StoreResults(before, j, rs, last).0;
            var clean := StoreResults(map[], j, rs, last).0[k];
            && k in final
            && final[k].title == clean.title && final[k].tags == clean.tags && final[k].duration == clean.duration
            && final[k].audioBucket == clean.audioBucket && final[k].audioKey == clean.audioKey
            && SameIdentity(final[k], if k in before then before[k] else clean)
            && SameCover(final[k], if clean.imageKey.Some? || k !in before then clean else before[k])
    ensures var early := AfterRuns(t, j, rs, runs[..n]);
            k in early ==> k in AfterRuns(t, j, rs, runs)
                           && Continues(early[k], StoreResults(AfterRuns(t, j, rs, runs), j, rs, last).0[k])
  {
    var before := AfterRuns(t, j, rs, runs);
    CleanColumns(t, j, rs, runs, last, k);
    AfterRunsKeys(t, j, rs, runs, k);
    hide StoreResults, AfterRuns, Canonical, Clean, Mentions;
    if k in AfterRuns(t, j, rs, runs[..n]) {
      FirstInsertStays(t, j, rs, runs, n, k);
      RunContinues(before, j, rs, last, k);
    }
  }

  lemma CleanColumns(
    t: TrackTable, j: Job, rs: seq<SunoResult>, runs: seq<seq<ResultFaults>>, last: seq<ResultFaults>, k: TrackKey)
    requires Canonical(t) && |last| == |rs| && forall i :: 0 <= i < |runs| ==> |runs[i]| == |rs|
    requires Clean(j, rs, last) && k.0 == j.id && Mentions(rs, k.1)
    ensures k in StoreResults(map[], j, rs, last).0
    ensures var before := AfterRuns(t, j, rs, runs);
            var final := StoreResults(before, j, rs, last).0;
            var clean := StoreResults(map[], j, rs, last).0[k];
            && k in final
            && final[k].title == clean.title && final[k].tags == clean.tags && final[k].duration == clean.duration
            && final[k].audioBucket == clean.audioBucket && final[k].audioKey == clean.audioKey
            && SameIdentity(final[k], if k in before then before[k] else clean)
            && SameCover(final[k], if clean.imageKey.Some? || k !in before then clean else before[k])
  {
    var before := AfterRuns(t, j, rs, runs);
    RetriesConverge(t, j, rs, runs, last, k);
    AfterRunsKeys(t, j, rs, runs, k);
    StoreResultsEffect(map[], j, rs, last);
    StoreResultsEffect(before, j, rs, last);
    var clean := StoreResults(map[], j, rs, last).0[k];
    assert CanonicalRow(k, clean);
    assert k in before ==> CanonicalRow(k, before[k]);
  }
}
