/** Tracks: object keys, building a track from a result, and the upsert that makes repeats converge. */
module Tracks {
  import opened Text
  import opened Errors
  import opened Jobs
  import opened JobStore
  import opened Callbacks

  // Object keys

  /** A file extension: a dot and no other dot. */
  type Ext = s: string | s != "" && s[0] == '.' && forall i :: 1 <= i < |s| ==> s[i] != '.' witness ".jpg"

  function AudioKey(job: JobId, audio: string): string {
    "jobs/" + job + ("/audio/" + (audio + ".mp3"))
  }

  function ImageKey(job: JobId, audio: string, ext: Ext): string {
    "jobs/" + job + ("/images/" + (audio + ext))
  }

  /** `path.Ext`: from the last dot of the last path element on. */
  function PathExt(p: string): (e: string)
    ensures e == "" || (e[0] == '.' && forall i :: 1 <= i < |e| ==> e[i] != '.')
  {
    if p == "" || p[|p| - 1] == '/' then ""
    else if p[|p| - 1] == '.' then "."
    else if PathExt(p[..|p| - 1]) == "" then ""
    else PathExt(p[..|p| - 1]) + [p[|p| - 1]]
  }

  /** The extension is the end of the path from the last dot of its last element; without such a dot it is empty. */
  lemma {:induction false} PathExtSplits(p: string) returns (n: nat)
    ensures n <= |p| && PathExt(p) == p[n..]
    ensures forall i :: n <= i < |p| ==> p[i] != '/'
    ensures PathExt(p) == "" ==> forall i :: 0 <= i < |p| && p[i] == '.' ==> exists k :: i < k < |p| && p[k] == '/'
  {
    if p == "" || p[|p| - 1] == '/' {
      n := |p|;
    } else if p[|p| - 1] == '.' {
      n := |p| - 1;
    } else {
      n := PathExtSplits(p[..|p| - 1]);
      if PathExt(p[..|p| - 1]) == "" {
        n := |p|;
        forall i | 0 <= i < |p| && p[i] == '.' ensures exists k :: i < k < |p| && p[k] == '/' {
          assert p[..|p| - 1][i] == '.';
          var k :| i < k < |p| - 1 && p[..|p| - 1][k] == '/';
          assert p[k] == '/';
        }
      }
    }
  }

  function MapChars(s: string, f: char -> char): (r: string)
    ensures |r| == |s| && forall i :: 0 <= i < |s| ==> r[i] == f(s[i])
  {
    seq(|s|, i requires 0 <= i < |s| => f(s[i]))
  }

  /**
    The extension of a cover key. `path` is the path of the parsed URL in lower case, None when the URL
    does not parse.
    */
  function ExtensionFromURL(path: Option<string>, fallback: Ext): Ext {
    if path.None? || PathExt(path.value) == "" then fallback else PathExt(path.value)
  }

  /**
    `strings.ToLower` maps rune by rune and neither makes nor removes dots and slashes, so it does not
    matter whether the path is put in lower case or its extension.
    */
  lemma {:induction false} LowerCaseCommutes(p: string, lower: char -> char)
    requires forall c :: (lower(c) == '.' <==> c == '.') && (lower(c) == '/' <==> c == '/')
    ensures MapChars(PathExt(p), lower) == PathExt(MapChars(p, lower))
  {
    if p != "" {
      var front := p[..|p| - 1];
      assert MapChars(p, lower)[..|p| - 1] == MapChars(front, lower);
      LowerCaseCommutes(front, lower);
    }
  }

  /** With a dot in the last path element the extension is the lower-cased end of the path, else the fallback. */
  lemma ExtensionFromPath(path: string, fallback: Ext, lower: char -> char) returns (n: nat)
    requires forall c :: (lower(c) == '.' <==> c == '.') && (lower(c) == '/' <==> c == '/')
    ensures n <= |path| && forall i :: n <= i < |path| ==> path[i] != '/'
    ensures var ext := ExtensionFromURL(Some(MapChars(path, lower)), fallback);
            if n < |path| then |ext| == |path| - n && forall i :: 0 <= i < |ext| ==> ext[i] == lower(path[n + i])
            else ext == fallback
                 && forall i :: 0 <= i < |path| && path[i] == '.' ==> exists k :: i < k < |path| && path[k] == '/'
  {
    n := PathExtSplits(path);
    LowerCaseCommutes(path, lower);
  }

  lemma SplitEqual(a: string, b: string, c: string, d: string)
    requires a + b == c + d && |a| == |c|
    ensures a == c && b == d
  {
    assert (a + b)[..|a|] == a && (c + d)[..|a|] == c;
    assert (a + b)[|a|..] == b && (c + d)[|a|..] == d;
  }

  lemma DotNotEarlier(a: string, e: Ext, b: string, f: Ext)
    requires a + e == b + f
    ensures |a| >= |b|
  {
    assert (b + f)[|b|] == f[0];
  }

  lemma LastDotSplits(a: string, e: Ext, b: string, f: Ext)
    requires a + e == b + f
    ensures a == b && e == f
  {
    DotNotEarlier(a, e, b, f);
    DotNotEarlier(b, f, a, e);
    SplitEqual(a, e, b, f);
  }

  lemma KeyParts(job: JobId, rest: string, job': JobId, rest': string)
    requires "jobs/" + job + rest == "jobs/" + job' + rest'
    ensures job == job' && rest == rest'
  {
    SplitEqual("jobs/" + job, rest, "jobs/" + job', rest');
    SplitEqual("jobs/", job, "jobs/", job');
  }

  lemma AudioKeyInjective(job: JobId, audio: string, job': JobId, audio': string)
    requires AudioKey(job, audio) == AudioKey(job', audio')
    ensures job == job' && audio == audio'
  {
    KeyParts(job, "/audio/" + (audio + ".mp3"), job', "/audio/" + (audio' + ".mp3"));
    SplitEqual("/audio/", audio + ".mp3", "/audio/", audio' + ".mp3");
    LastDotSplits(audio, ".mp3", audio', ".mp3");
  }

  /** Even when the two covers have different extensions. */
  lemma ImageKeyInjective(job: JobId, audio: string, ext: Ext, job': JobId, audio': string, ext': Ext)
    requires ImageKey(job, audio, ext) == ImageKey(job', audio', ext')
    ensures job == job' && audio == audio' && ext == ext'
  {
    KeyParts(job, "/images/" + (audio + ext), job', "/images/" + (audio' + ext'));
    SplitEqual("/images/", audio + ext, "/images/", audio' + ext');
    LastDotSplits(audio, ext, audio', ext');
  }

  lemma AudioAndImageKeysDiffer(job: JobId, audio: string, job': JobId, audio': string, ext: Ext)
    ensures AudioKey(job, audio) != ImageKey(job', audio', ext)
  {
    var audioPart, imagePart := "/audio/" + (audio + ".mp3"), "/images/" + (audio' + ext);
    assert audioPart[1] == 'a' && imagePart[1] == 'i';
    if AudioKey(job, audio) == ImageKey(job', audio', ext) {
      KeyParts(job, audioPart, job', imagePart);
    }
  }

  // Building a track

  datatype Track = Track(
    id: Uuid,
    job: JobId,
    audioId: string,
    title: string,
    tags: Option<string>,
    duration: real,
    audioBucket: string,
    audioKey: string,
    imageBucket: Option<string>,
    imageKey: Option<string>,
    favourite: bool)

  /**
    What the libraries answered for one result: the bucket of each upload, None for a failed one; the path
    of the chosen cover URL in lower case, None if it does not parse; and the fresh id.
    */
  datatype Uploads = Uploads(audio: Option<string>, cover: Option<string>, coverPath: Option<string>, id: Uuid)

  const DEFAULT_COVER_EXT: Ext := ".jpg"

  function ValidateTrack(t: Track): Option<Err> {
    if Blank(t.audioId) then Some(InvalidInput(TrackAudioIDRequired))
    else if Blank(t.title) then Some(InvalidInput(TrackTitleRequired))
    else if Blank(t.audioBucket) || Blank(t.audioKey) then Some(InvalidInput(TrackAudioStorageRequired))
    else None
  }

  function TrackTitle(j: Job, r: SunoResult): string {
    var title := TrimSpace(FirstNonEmpty([r.title, j.params.title]));
    if title == "" then TrimSpace(r.audioId) else title
  }

  function BuildTrack(j: Job, r: SunoResult, u: Uploads): Result<Track> {
    var audioId := TrimSpace(r.audioId);
    if audioId == "" then Fail(InvalidInput(TrackAudioIDRequired))
    else if FirstNonEmpty([r.audioUrl, r.sourceAudioUrl]) == "" then Fail(InvalidInput(TrackAudioURLRequired))
    else if r.duration.None? || r.duration.value <= 0.0 then Fail(InvalidInput(InvalidInputS))
    else if u.audio.None? then Fail(Wrap(Plain))
    else
      var covered := FirstNonEmpty([r.imageUrl, r.sourceImageUrl]) != "" && u.cover.Some?;
      var t := Track(u.id, j.id, audioId, TrackTitle(j, r), TrimOption(r.tags), r.duration.value,
                     u.audio.value, AudioKey(j.id, audioId),
                     if covered then u.cover else None,
                     if covered then Some(ImageKey(j.id, audioId, ExtensionFromURL(u.coverPath, DEFAULT_COVER_EXT)))
                         else None,
                     false);
      if ValidateTrack(t).Some? then Fail(ValidateTrack(t).value) else Ok(t)
  }

  /** Exactly when a result becomes a track; in particular a failed cover upload never stops it. */
  lemma BuildsIff(j: Job, r: SunoResult, u: Uploads)
    ensures BuildTrack(j, r, u).Ok? <==>
            && !Blank(r.audioId)
            && (Given(r.audioUrl) || Given(r.sourceAudioUrl))
            && r.duration.Some? && r.duration.value > 0.0
            && u.audio.Some? && !Blank(u.audio.value)
  {
    TrimSpaceFixed(r.audioId);
    TrimSpaceFixed(FirstNonEmpty([r.title, j.params.title]));
    FirstOfTwo(r.audioUrl, r.sourceAudioUrl);
    NonSpaceStartNotBlank(AudioKey(j.id, TrimSpace(r.audioId)));
    hide FirstNonEmpty, ImageKey, ExtensionFromURL, TrimSpace;
  }

  /** A result comes with a cover when it names an image and the image was stored. */
  predicate HasCover(r: SunoResult, u: Uploads) {
    (Given(r.imageUrl) || Given(r.sourceImageUrl)) && u.cover.Some?
  }

  /** The extension of a cover: that of the last element of its URL's path, ".jpg" when there is none. */
  predicate IsCoverExt(ext: string, path: Option<string>) {
    if path.Some? && PathExt(path.value) != "" then ext == PathExt(path.value) else ext == ".jpg"
  }

  /**
    The columns of a built track, from the result and the uploads: a cover, if there is one, is in the bucket
    of its upload, under a key of job, audio id and extension.
    */
  lemma BuiltColumns(j: Job, r: SunoResult, u: Uploads)
    requires BuildTrack(j, r, u).Ok?
    ensures var t := BuildTrack(j, r, u).value;
            var audioId := TrimSpace(r.audioId);
            && t.id == u.id && t.job == j.id && t.audioId == audioId && !t.favourite
            && t.tags == (if Given(r.tags) then Some(TrimSpace(r.tags.value)) else None)
            && Some(t.duration) == r.duration
            && Some(t.audioBucket) == u.audio
            && t.audioKey == "jobs/" + j.id + "/audio/" + audioId + ".mp3"
            && (t.imageKey.Some? <==> HasCover(r, u))
            && (t.imageBucket == if HasCover(r, u) then u.cover else None)
            && (HasCover(r, u) ==>
                  exists ext :: IsCoverExt(ext, u.coverPath)
                                && t.imageKey == Some("jobs/" + j.id + "/images/" + audioId + ext))
  {
    var t := BuildTrack(j, r, u).value;
    var audioId := TrimSpace(r.audioId);
    var ext: string := ExtensionFromURL(u.coverPath, DEFAULT_COVER_EXT);
    FirstOfTwo(r.imageUrl, r.sourceImageUrl);
    assert "jobs/" + j.id + ("/audio/" + (audioId + ".mp3")) == "jobs/" + j.id + "/audio/" + audioId + ".mp3";
    assert "jobs/" + j.id + ("/images/" + (audioId + ext)) == "jobs/" + j.id + "/images/" + audioId + ext;
    assert IsCoverExt(ext, u.coverPath);
    hide FirstNonEmpty, TrimSpace, TrackTitle, ValidateTrack, PathExt;
  }

  /** Whatever stops `buildTrack`, the callback is retried. */
  lemma BuildErrorRetried(j: Job, r: SunoResult, u: Uploads)
    requires BuildTrack(j, r, u).Fail?
    ensures CallbackRequeue(BuildTrack(j, r, u).error)
  {
    hide TrimSpace, FirstNonEmpty, TrackTitle, AudioKey, ImageKey, ExtensionFromURL, TrimOption;
  }

  /** The title of a track is the result's, else the job's, else the audio id. */
  lemma TitleFallsBack(j: Job, r: SunoResult, u: Uploads)
    requires BuildTrack(j, r, u).Ok?
    ensures BuildTrack(j, r, u).value.title
            == TrimSpace(if Given(r.title) then r.title.value
                         else if Given(j.params.title) then j.params.title.value
                         else r.audioId)
  {
    FirstOfTwo(r.title, j.params.title);
    if Given(r.title) {
      TrimSpaceFixed(r.title.value);
    } else if Given(j.params.title) {
      TrimSpaceFixed(j.params.title.value);
    }
    hide FirstNonEmpty, TrimSpace;
  }

  // The stored row

  datatype TrackRow = TrackRow(
    id: Uuid,
    job: JobId,
    audioId: string,
    title: string,
    tags: Option<string>,
    duration: real,
    audioBucket: string,
    audioKey: Option<string>,
    imageBucket: string,
    imageKey: Option<string>,
    favourite: bool)

  type TrackKey = (JobId, string)
  type TrackTable = map<TrackKey, TrackRow>

  const DEFAULT_IMAGE_BUCKET := "images"

  /** The arguments of the insert: image_bucket is never null, and stands for a cover only with a key. */
  function InsertRow(t: Track): TrackRow {
    TrackRow(t.id, t.job, t.audioId, t.title, t.tags, t.duration, t.audioBucket, Some(t.audioKey),
             if t.imageKey.Some? && t.imageBucket.Some? && t.imageBucket.value != "" then t.imageBucket.value
             else DEFAULT_IMAGE_BUCKET,
             t.imageKey, t.favourite)
  }

  /** `ON CONFLICT (job_id, suno_audio_id) DO UPDATE`. */
  function Merge(old_: TrackRow, new_: TrackRow): TrackRow {
    old_.(title := new_.title,
          tags := new_.tags,
          duration := new_.duration,
          audioBucket := if new_.audioKey.Some? then new_.audioBucket else old_.audioBucket,
          audioKey := if new_.audioKey.Some? then new_.audioKey else old_.audioKey,
          imageBucket := if new_.imageKey.None? then old_.imageBucket else new_.imageBucket,
          imageKey := if new_.imageKey.Some? then new_.imageKey else old_.imageKey)
  }

  function Merged(old_: Option<TrackRow>, new_: TrackRow): TrackRow {
    if old_.None? then new_ else Merge(old_.value, new_)
  }

  function Lookup(t: TrackTable, k: TrackKey): Option<TrackRow> {
    if k in t then Some(t[k]) else None
  }

  function KeyOf(t: Track): TrackKey {
    (t.job, t.audioId)
  }

  function Upserted(t: TrackTable, track: Track): TrackTable {
    t[KeyOf(track) := Merged(Lookup(t, KeyOf(track)), InsertRow(track))]
  }

  /**
    What an upsert leaves: a repeat overwrites title, tags, duration and audio, and a cover only with a cover;
    a first one inserts the track with the default bucket where it names none. No other row changes.
    */
  lemma UpsertedColumns(t: TrackTable, track: Track)
    ensures var k := (track.job, track.audioId);
            var t' := Upserted(t, track);
            && t'.Keys == t.Keys + {k}
            && (forall other :: other in t && other != k ==> t'[other] == t[other])
            && var row, again := t'[k], k in t;
            && row.id == (if again then t[k].id else track.id)
            && row.favourite == (if again then t[k].favourite else track.favourite)
            && (row.job, row.audioId) == (if again then (t[k].job, t[k].audioId) else k)
            && (row.title, row.tags, row.duration) == (track.title, track.tags, track.duration)
            && (row.audioBucket, row.audioKey) == (track.audioBucket, Some(track.audioKey))
            && row.imageKey == (if track.imageKey.None? && again then t[k].imageKey else track.imageKey)
            && row.imageBucket == (if track.imageKey.None? && again then t[k].imageBucket
                                   else if track.imageKey.Some? && track.imageBucket.Some?
                                        && track.imageBucket.value != "" then
                                     track.imageBucket.value
                                   else "images")
  {
    assert Upserted(t, track).Keys == t.Keys + {KeyOf(track)};
  }

  /** The row read back: a cover only when both columns are set. */
  function ReadBack(r: TrackRow): Track {
    Track(r.id, r.job, r.audioId, r.title, r.tags, r.duration, r.audioBucket,
          if r.audioKey.Some? then r.audioKey.value else "",
          if r.imageKey.Some? then Some(r.imageBucket) else None,
          r.imageKey,
          r.favourite)
  }

  /** Merging is associative: what matters of a sequence of upserts is first identity, last values, last cover. */
  lemma MergeAssociative(a: TrackRow, b: TrackRow, c: TrackRow)
    ensures Merge(Merge(a, b), c) == Merge(a, Merge(b, c))
  {
  }

  // Sequences of upserts

  function UpsertAll(t: TrackTable, xs: seq<Track>): TrackTable
    decreases |xs|
  {
    if xs == [] then t else UpsertAll(Upserted(t, xs[0]), xs[1..])
  }

  predicate SameIdentity(a: TrackRow, b: TrackRow) {
    a.id == b.id && a.job == b.job && a.audioId == b.audioId && a.favourite == b.favourite
  }

  predicate SameCover(a: TrackRow, b: TrackRow) {
    a.imageBucket == b.imageBucket && a.imageKey == b.imageKey
  }

  /** The write at index i is the first about key k. */
  predicate FirstAbout(xs: seq<Track>, k: TrackKey, i: nat) {
    i < |xs| && KeyOf(xs[i]) == k && forall m :: 0 <= m < i ==> KeyOf(xs[m]) != k
  }

  /** Of the writes about key k, none after index i has a cover, and i has one unless it inserted the row. */
  predicate LastCover(t: TrackTable, xs: seq<Track>, k: TrackKey, i: int) {
    && (forall m :: 0 <= m < |xs| && m > i && KeyOf(xs[m]) == k ==> xs[m].imageKey.None?)
    && if i < 0 then k in t
       else i < |xs| && KeyOf(xs[i]) == k && (xs[i].imageKey.Some? || (k !in t && FirstAbout(xs, k, i)))
  }

  lemma LastCoverTail(t: TrackTable, xs: seq<Track>, k: TrackKey, i: int) returns (j: int)
    requires xs != [] && LastCover(Upserted(t, xs[0]), xs[1..], k, i)
    ensures LastCover(t, xs, k, j)
    ensures i >= 0 ==> j == i + 1
    ensures i < 0 ==> j == if KeyOf(xs[0]) == k && (xs[0].imageKey.Some? || k !in t) then 0 else -1
  {
    var t', ys := Upserted(t, xs[0]), xs[1..];
    j := if i >= 0 then i + 1 else if KeyOf(xs[0]) == k && (xs[0].imageKey.Some? || k !in t) then 0 else -1;
    assert forall m :: 0 < m < |xs| ==> xs[m] == ys[m - 1];
    if i >= 0 && ys[i].imageKey.None? {
      assert FirstAbout(ys, k, i) && k !in t';
      assert forall m :: 0 <= m < i ==> ys[m] == xs[m + 1];
    }
    hide Merged, InsertRow;
  }

  /**
    After any sequence of upserts on a table, bucket and key of a row's cover both come from one and the same
    write, the last about it that had a cover, or the row before if none had.
    */
  lemma {:induction false} CoverFromOneWrite(t: TrackTable, xs: seq<Track>, k: TrackKey) returns (i: int)
    requires k in UpsertAll(t, xs)
    ensures LastCover(t, xs, k, i)
    ensures SameCover(UpsertAll(t, xs)[k], if i < 0 then t[k] else InsertRow(xs[i]))
    decreases |xs|
  {
    if xs == [] {
      i := -1;
    } else {
      var t' := Upserted(t, xs[0]);
      var m := CoverFromOneWrite(t', xs[1..], k);
      i := LastCoverTail(t, xs, k, m);
      if m < 0 {
        assert SameCover(t'[k], if i < 0 then t[k] else InsertRow(xs[0]));
      }
      hide LastCover, Merged;
    }
  }

  /** Id and favourite flag are those of the row before, or of the write that inserted it. */
  lemma {:induction false} IdentityFromInsert(t: TrackTable, xs: seq<Track>, k: TrackKey)
    ensures k in t ==> k in UpsertAll(t, xs) && SameIdentity(UpsertAll(t, xs)[k], t[k])
    ensures forall i: nat :: k !in t && FirstAbout(xs, k, i) ==>
              k in UpsertAll(t, xs) && SameIdentity(UpsertAll(t, xs)[k], InsertRow(xs[i]))
    decreases |xs|
  {
    if xs != [] {
      var t', ys := Upserted(t, xs[0]), xs[1..];
      IdentityFromInsert(t', ys, k);
      forall i: nat | k !in t && FirstAbout(xs, k, i)
        ensures k in UpsertAll(t, xs) && SameIdentity(UpsertAll(t, xs)[k], InsertRow(xs[i]))
      {
        if i > 0 {
          assert ys[i - 1] == xs[i] && forall m :: 0 <= m < i - 1 ==> ys[m] == xs[m + 1];
          assert FirstAbout(ys, k, i - 1);
        }
      }
    }
  }

  lemma {:induction false} UpsertAllAppend(t: TrackTable, xs: seq<Track>, ys: seq<Track>)
    ensures UpsertAll(t, xs + ys) == UpsertAll(UpsertAll(t, xs), ys)
    decreases |xs|
  {
    if xs == [] {
      assert xs + ys == ys;
    } else {
      assert (xs + ys)[1..] == xs[1..] + ys;
      UpsertAllAppend(Upserted(t, xs[0]), xs[1..], ys);
    }
  }

  lemma {:induction false} CoverStays(t: TrackTable, xs: seq<Track>, k: TrackKey)
    requires k in t && t[k].imageKey.Some?
    ensures k in UpsertAll(t, xs) && UpsertAll(t, xs)[k].imageKey.Some?
    decreases |xs|
  {
    if xs != [] {
      CoverStays(Upserted(t, xs[0]), xs[1..], k);
    }
  }

  /**
    A row that is there after the first n upserts is there after all of them, with a cover key if it had one
    then, and it reads back with both cover fields or neither.
    */
  lemma CoverNeverReverts(t: TrackTable, xs: seq<Track>, n: nat, k: TrackKey)
    requires n <= |xs| && k in UpsertAll(t, xs[..n])
    ensures k in UpsertAll(t, xs)
    ensures UpsertAll(t, xs[..n])[k].imageKey.Some? ==> UpsertAll(t, xs)[k].imageKey.Some?
    ensures var track := ReadBack(UpsertAll(t, xs)[k]); track.imageBucket.Some? <==> track.imageKey.Some?
  {
    var mid := UpsertAll(t, xs[..n]);
    UpsertAllAppend(t, xs[..n], xs[n..]);
    assert xs[..n] + xs[n..] == xs;
    IdentityFromInsert(mid, xs[n..], k);
    if mid[k].imageKey.Some? {
      CoverStays(mid, xs[n..], k);
    }
  }

  // Unique object indexes

  /** The index on (bucket, key) of audio or image objects refuses row r at key k. */
  predicate Collides(t: TrackTable, k: TrackKey, r: TrackRow) {
    exists k' :: k' in t && k' != k
                 && ((r.audioKey.Some? && t[k'].audioKey == r.audioKey && t[k'].audioBucket == r.audioBucket)
                     || (r.imageKey.Some? && t[k'].imageKey == r.imageKey && t[k'].imageBucket == r.imageBucket))
  }

  predicate Rejected(t: TrackTable, track: Track) {
    Collides(t, KeyOf(track), Upserted(t, track)[KeyOf(track)])
  }

  predicate SameObject(a: TrackRow, b: TrackRow) {
    || (a.audioKey.Some? && a.audioKey == b.audioKey && a.audioBucket == b.audioBucket)
    || (a.imageKey.Some? && a.imageKey == b.imageKey && a.imageBucket == b.imageBucket)
  }

  /** What the two unique indexes say of a table: no two rows name the same audio or image object. */
  ghost predicate ObjectsUnique(t: TrackTable) {
    forall k, k' :: k in t && k' in t && k != k' ==> !SameObject(t[k], t[k'])
  }

  /** An upsert is refused if and only if two rows would then name the same object. */
  lemma RejectedIff(t: TrackTable, track: Track)
    requires ObjectsUnique(t)
    ensures Rejected(t, track) <==> !ObjectsUnique(Upserted(t, track))
  {
    var k, t' := KeyOf(track), Upserted(t, track);
    assert forall k' :: k' in t && k' != k ==> k' in t' && t'[k'] == t[k'];
    if k' :| k' in t && k' != k && SameObject(t'[k], t[k']) {
      assert !ObjectsUnique(t');
    }
    hide Merged, InsertRow;
  }

  lemma StoredKeepsObjectsUnique(t: TrackTable, track: Track, how: WriteOutcome)
    requires ObjectsUnique(t)
    ensures ObjectsUnique(Stored(t, track, how))
  {
    RejectedIff(t, track);
    hide Rejected, Upserted, ObjectsUnique;
  }

  const CREATE_TRACK_ERROR: Err := Wrap(Wrap(Plain))

  /** The table after an insert with the given outcome. */
  function Stored(t: TrackTable, track: Track, how: WriteOutcome): TrackTable {
    if how == NotWritten || Rejected(t, track) then t else Upserted(t, track)
  }

  ghost predicate CanonicalRow(k: TrackKey, r: TrackRow) {
    && r.job == k.0 && r.audioId == k.1
    && r.audioKey == Some(AudioKey(k.0, k.1))
    && (r.imageKey.Some? ==> exists ext: Ext :: r.imageKey.value == ImageKey(k.0, k.1, ext))
  }

  ghost predicate Canonical(t: TrackTable) {
    forall k :: k in t ==> CanonicalRow(k, t[k])
  }

  lemma CanonicalApart(k: TrackKey, r: TrackRow, k': TrackKey, r': TrackRow)
    requires CanonicalRow(k, r) && CanonicalRow(k', r') && k != k'
    ensures r.audioKey != r'.audioKey
    ensures r.imageKey.Some? ==> r.imageKey != r'.imageKey
  {
    if r.audioKey == r'.audioKey {
      AudioKeyInjective(k.0, k.1, k'.0, k'.1);
    }
    if r.imageKey.Some? && r.imageKey == r'.imageKey {
      var e: Ext :| r.imageKey.value == ImageKey(k.0, k.1, e);
      var e': Ext :| r'.imageKey.value == ImageKey(k'.0, k'.1, e');
      ImageKeyInjective(k.0, k.1, e, k'.0, k'.1, e');
    }
  }

  lemma BuiltIsCanonical(j: Job, r: SunoResult, u: Uploads)
    requires BuildTrack(j, r, u).Ok?
    ensures var t := BuildTrack(j, r, u).value;
            KeyOf(t) == (j.id, TrimSpace(r.audioId)) && CanonicalRow(KeyOf(t), InsertRow(t))
  {
  }

  /** In a table of built tracks the unique indexes refuse no further built track. */
  lemma BuiltNeverRejected(t: TrackTable, j: Job, r: SunoResult, u: Uploads)
    requires Canonical(t) && BuildTrack(j, r, u).Ok?
    ensures var track := BuildTrack(j, r, u).value;
            !Rejected(t, track) && Canonical(Upserted(t, track))
  {
    var track := BuildTrack(j, r, u).value;
    var k := KeyOf(track);
    var t' := Upserted(t, track);
    BuiltIsCanonical(j, r, u);
    assert CanonicalRow(k, t'[k]);
    forall k' | k' in t && k' != k
      ensures t[k'].audioKey != t'[k].audioKey && (t'[k].imageKey.Some? ==> t[k'].imageKey != t'[k].imageKey)
    {
      CanonicalApart(k, t'[k], k', t[k']);
    }
  }

  /**
    Storing a built track for the first time and reading it back gives the track that was built, unless
    storage named the empty string as the bucket of its cover.
    */
  lemma FirstStoreReadsBack(t: TrackTable, j: Job, r: SunoResult, u: Uploads)
    requires Canonical(t) && BuildTrack(j, r, u).Ok? && KeyOf(BuildTrack(j, r, u).value) !in t
    ensures var track := BuildTrack(j, r, u).value;
            var t' := Stored(t, track, WrittenRead);
            && KeyOf(track) in t' && t' - {KeyOf(track)} == t
            && (ReadBack(t'[KeyOf(track)]) == track <==> track.imageBucket != Some(""))
            && (track.imageBucket.Some? <==> track.imageKey.Some?) && !Blank(track.title)
  {
    BuiltNeverRejected(t, j, r, u);
    hide Rejected, Canonical;
  }

  /** The track exists and its job belongs to the user, as the join in the owner's statements asks. */
  predicate Owns(rows: Rows, t: TrackTable, key: TrackKey, user: UserId) {
    key in t && key.0 in rows && rows[key.0].user == user
  }

  /** The tracks table and the statements on it. */
  class TrackRepo {
    var rows: TrackTable

    constructor ()
      ensures rows == map[]
    {
      rows := map[];
    }

    /** `how` is the outcome of the statement, unless an index refuses the row. */
    method CreateTrack(track: Track, how: WriteOutcome) returns (r: Result<Track>)
      modifies this
      ensures rows == Stored(old(rows), track, how)
      ensures rows == if how == NotWritten || Rejected(old(rows), track) then old(rows) else Upserted(old(rows), track)
      ensures r == if how == WrittenRead && !Rejected(old(rows), track) then Ok(ReadBack(rows[KeyOf(track)]))
                   else Fail(CREATE_TRACK_ERROR)
    {
      var imageBucket := DEFAULT_IMAGE_BUCKET;
      var imageKey: Option<string> := None;
      if track.imageKey.Some? {
        imageKey := track.imageKey;
        if track.imageBucket.Some? && track.imageBucket.value != "" {
          imageBucket := track.imageBucket.value;
        }
      }
      var key := (track.job, track.audioId);
      var row := TrackRow(track.id, track.job, track.audioId, track.title, track.tags, track.duration,
                          track.audioBucket, Some(track.audioKey), imageBucket, imageKey, track.favourite);
      if key in rows {
        row := Merge(rows[key], row);
      }
      if how == NotWritten || Collides(rows, key, row) {
        return Fail(CREATE_TRACK_ERROR);
      }
      rows := rows[key := row];
      if how == WrittenUnread {
        return Fail(CREATE_TRACK_ERROR);
      }
      return Ok(ReadBack(row));
    }

    /** `ok` is false when the statement fails. */
    method SetFavourite(jobs: Rows, key: TrackKey, user: UserId, favourite: bool, ok: bool) returns (err: Option<Err>)
      modifies this
      ensures err.None? <==> ok && key in old(rows) && key.0 in jobs && jobs[key.0].user == user
      ensures ok && err.Some? ==> err == Some(Wrap(Sentinel(TrackNotFound)))
      ensures !ok ==> err == Some(Wrap(Plain))
      ensures rows.Keys == old(rows).Keys
      ensures forall k :: k in rows && k != key ==> rows[k] == old(rows)[k]
      ensures key in rows ==> rows[key] == if err.None? then old(rows)[key].(favourite := favourite) else old(rows)[key]
    {
      if !ok {
        return Some(Wrap(Plain));
      }
      if !Owns(jobs, rows, key, user) {
        return Some(Wrap(Sentinel(TrackNotFound)));
      }
      rows := rows[key := rows[key].(favourite := favourite)];
      return None;
    }

    method DeleteTrack(jobs: Rows, key: TrackKey, user: UserId, ok: bool) returns (err: Option<Err>)
      modifies this
      ensures err.None? <==> ok && key in old(rows) && key.0 in jobs && jobs[key.0].user == user
      ensures ok && err.Some? ==> err == Some(Wrap(Sentinel(TrackNotFound)))
      ensures !ok ==> err == Some(Wrap(Plain))
      ensures rows == if err.None? then old(rows) - {key} else old(rows)
    {
      if !ok {
        return Some(Wrap(Plain));
      }
      if !Owns(jobs, rows, key, user) {
        return Some(Wrap(Sentinel(TrackNotFound)));
      }
      rows := rows - {key};
      return None;
    }
  }
}
