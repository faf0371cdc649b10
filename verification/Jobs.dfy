/** The job entity: request parameters with their normalisation and validation, and the status rules. */
module Jobs {
  import opened Text
  import opened Errors

  datatype SunoModel = V4 | V45 | V45Plus | V45All | V5 | NoModel | OtherModel(name: string)
  datatype VocalGender = Male | Female | OtherGender(name: string)

  datatype JobParams = JobParams(
    prompt: string,
    customMode: bool,
    style: Option<string>,
    title: Option<string>,
    instrumental: bool,
    model: SunoModel,
    vocalGender: Option<VocalGender>,
    negativeTags: Option<string>)

  predicate ValidModel(m: SunoModel) {
    m == V4 || m == V45 || m == V45Plus || m == V45All || m == V5
  }

  predicate ValidGender(g: VocalGender) {
    g == Male || g == Female
  }

  function Normalized(p: JobParams): JobParams {
    p.(prompt := TrimSpace(p.prompt),
       style := TrimOption(p.style),
       title := TrimOption(p.title),
       negativeTags := TrimOption(p.negativeTags),
       model := if p.model == NoModel then V45All else p.model)
  }

  /** None when the parameters pass, else the first rule they break. */
  function Validate(p: JobParams): Option<Err> {
    if p.model != NoModel && !ValidModel(p.model) then Some(InvalidInput(ModelInvalid))
    else if p.vocalGender.Some? && !ValidGender(p.vocalGender.value) then Some(InvalidInput(VocalGenderInvalid))
    else if p.model == NoModel then Some(InvalidInput(ModelRequired))
    else
      var modeError := if p.customMode then CustomModeError(p) else PlainModeError(p);
      if modeError.Some? then modeError
      else if p.vocalGender.Some? && p.instrumental then Some(InvalidInput(VocalGenderNotAllowedInstrumental))
      else if p.negativeTags.Some? && ByteLen(p.negativeTags.value) > 200 then Some(InvalidInput(NegativeTagsTooLong))
      else None
  }

  function CustomModeError(p: JobParams): Option<Err> {
    if p.style.None? then Some(InvalidInput(StyleRequiredCustom))
    else if p.title.None? then Some(InvalidInput(TitleRequiredCustom))
    else if !p.instrumental && p.prompt == "" then Some(InvalidInput(PromptRequired))
    else if ByteLen(p.prompt) > (if p.model == V4 then 3000 else 5000) then Some(InvalidInput(PromptTooLong))
    else if ByteLen(p.style.value) > (if p.model == V4 then 200 else 1000) then Some(InvalidInput(StyleTooLong))
    else
      match p.model
      case V4 | V45All => if ByteLen(p.title.value) > 80 then Some(InvalidInput(TitleTooLong)) else None
      case V45 | V45Plus | V5 => if ByteLen(p.title.value) > 100 then Some(InvalidInput(TitleTooLong)) else None
      case _ => Some(InvalidInput(ModelInvalid))
  }

  function PlainModeError(p: JobParams): Option<Err> {
    if p.prompt == "" then Some(InvalidInput(PromptRequired))
    else if ByteLen(p.prompt) > 500 then Some(InvalidInput(PromptTooLong))
    else if p.style.Some? then Some(InvalidInput(StyleMustBeEmptyNonCustom))
    else if p.title.Some? then Some(InvalidInput(TitleMustBeEmptyNonCustom))
    else if p.negativeTags.Some? then Some(InvalidInput(NegativeTagsMustBeEmptyNonCustom))
    else if p.vocalGender.Some? then Some(InvalidInput(VocalGenderMustBeEmptyNonCustom))
    else None
  }

  // The request contract, written as a table over the raw request.

  datatype Limits = Limits(prompt: nat, style: nat, title: nat)

  const LIMITS: map<SunoModel, Limits> := map[
    NoModel := Limits(5000, 1000, 80),
    V4 := Limits(3000, 200, 80),
    V45 := Limits(5000, 1000, 100),
    V45Plus := Limits(5000, 1000, 100),
    V45All := Limits(5000, 1000, 80),
    V5 := Limits(5000, 1000, 100)
  ]

  const PLAIN_PROMPT_LIMIT: nat := 500
  const NEGATIVE_TAGS_LIMIT: nat := 200

  /** Trimmed byte length of an optional field, 0 when absent or blank. */
  function Size(o: Option<string>): nat {
    if o.None? then 0 else ByteLen(TrimSpace(o.value))
  }

  predicate Accepted(p: JobParams) {
    var prompt := ByteLen(TrimSpace(p.prompt));
    && p.model in LIMITS
    && Size(p.negativeTags) <= (if p.customMode then NEGATIVE_TAGS_LIMIT else 0)
    && (p.vocalGender.Some? ==>
          p.customMode && !p.instrumental && p.vocalGender.value in {Male, Female})
    && if p.customMode then
         var limits := LIMITS[p.model];
         && (if p.instrumental then 0 else 1) <= prompt <= limits.prompt
         && 1 <= Size(p.style) <= limits.style
         && 1 <= Size(p.title) <= limits.title
       else
         && 1 <= prompt <= PLAIN_PROMPT_LIMIT
         && Size(p.style) == 0
         && Size(p.title) == 0
  }

  lemma EmptyIffNoBytes(s: string)
    ensures ByteLen(s) == 0 <==> s == ""
  {
  }

  lemma TrimOptionFixed(o: Option<string>)
    ensures TrimOption(TrimOption(o)) == TrimOption(o)
    ensures TrimOption(o).Some? <==> Size(o) > 0
    ensures TrimOption(o).Some? ==> ByteLen(TrimOption(o).value) == Size(o)
  {
    if o.Some? {
      TrimSpaceFixed(o.value);
      EmptyIffNoBytes(TrimSpace(o.value));
    }
  }

  lemma NormalizedIdempotent(p: JobParams)
    ensures Normalized(Normalized(p)) == Normalized(p)
  {
    TrimSpaceFixed(p.prompt);
    TrimOptionFixed(p.style);
    TrimOptionFixed(p.title);
    TrimOptionFixed(p.negativeTags);
  }

  /** Normalising and then validating accepts exactly the requests of the table. */
  lemma ValidateMeetsTable(p: JobParams)
    ensures Validate(Normalized(p)).None? <==> Accepted(p)
  {
  }

  /** What the handler let through, the service's own second pass neither changes nor rejects. */
  lemma SecondPassAgrees(p: JobParams)
    requires Validate(Normalized(p)).None?
    ensures Normalized(Normalized(p)) == Normalized(p)
    ensures Validate(Normalized(Normalized(p))).None?
    ensures Accepted(Normalized(p))
  {
    NormalizedIdempotent(p);
    ValidateMeetsTable(Normalized(p));
  }

  // The rules one by one

  function PromptLimit(p: JobParams): nat {
    if !p.customMode then PLAIN_PROMPT_LIMIT else if p.model == V4 then 3000 else 5000
  }

  /** The rule behind an error, as a condition on the request. */
  predicate Breaks(p: JobParams, rule: Sentinel) {
    var custom := p.customMode && ValidModel(p.model);
    match rule
    case ModelRequired => p.model == NoModel
    case ModelInvalid => p.model.OtherModel?
    case VocalGenderInvalid => p.vocalGender.Some? && p.vocalGender.value.OtherGender?
    case PromptRequired => p.prompt == "" && !(p.customMode && p.instrumental)
    case PromptTooLong => ByteLen(p.prompt) > PromptLimit(p)
    case StyleRequiredCustom => p.customMode && p.style.None?
    case StyleTooLong => custom && p.style.Some? && ByteLen(p.style.value) > LIMITS[p.model].style
    case TitleRequiredCustom => p.customMode && p.title.None?
    case TitleTooLong => custom && p.title.Some? && ByteLen(p.title.value) > LIMITS[p.model].title
    case StyleMustBeEmptyNonCustom => !p.customMode && p.style.Some?
    case TitleMustBeEmptyNonCustom => !p.customMode && p.title.Some?
    case NegativeTagsMustBeEmptyNonCustom => !p.customMode && p.negativeTags.Some?
    case VocalGenderMustBeEmptyNonCustom => !p.customMode && p.vocalGender.Some?
    case VocalGenderNotAllowedInstrumental => p.vocalGender.Some? && p.instrumental
    case NegativeTagsTooLong => p.negativeTags.Some? && ByteLen(p.negativeTags.value) > NEGATIVE_TAGS_LIMIT
    case _ => false
  }

  /** A rejection names a rule that the request breaks, and a request that breaks no rule is accepted. */
  lemma RejectionNamesBrokenRule(p: JobParams) returns (rule: Sentinel)
    ensures Validate(p).Some? <==> Breaks(p, rule)
    ensures Validate(p).Some? ==> Validate(p) == Some(InvalidInput(rule))
    ensures Validate(p).None? ==> forall r :: !Breaks(p, r)
  {
    rule := if Validate(p).Some? then Validate(p).value.second.s else ModelInvalid;
  }

  /** Where a rule comes in the order of the checks. */
  function Rank(rule: Sentinel): nat {
    match rule
    case ModelInvalid => 0
    case VocalGenderInvalid => 1
    case ModelRequired => 2
    case StyleRequiredCustom => 3
    case TitleRequiredCustom => 4
    case PromptRequired => 5
    case PromptTooLong => 6
    case StyleTooLong => 7
    case TitleTooLong => 8
    case StyleMustBeEmptyNonCustom => 9
    case TitleMustBeEmptyNonCustom => 10
    case NegativeTagsMustBeEmptyNonCustom => 11
    case VocalGenderMustBeEmptyNonCustom => 12
    case VocalGenderNotAllowedInstrumental => 13
    case NegativeTagsTooLong => 14
    case _ => 15
  }

  /** Of several broken rules a rejection names the first. */
  lemma RejectionNamesFirstRule(p: JobParams, rule: Sentinel, other: Sentinel)
    requires Validate(p) == Some(InvalidInput(rule)) && Breaks(p, other)
    ensures Rank(rule) <= Rank(other)
  {
    hide ByteLen;
  }

  /** The parameters as the decoder fills them and `Normalize` rewrites them in place. */
  class ParamsDraft {
    var prompt: string
    var customMode: bool
    var style: Option<string>
    var title: Option<string>
    var instrumental: bool
    var model: SunoModel
    var vocalGender: Option<VocalGender>
    var negativeTags: Option<string>

    function Value(): JobParams
      reads this
    {
      JobParams(prompt, customMode, style, title, instrumental, model, vocalGender, negativeTags)
    }

    constructor (p: JobParams)
      ensures Value() == p
    {
      prompt, customMode, style, title := p.prompt, p.customMode, p.style, p.title;
      instrumental, model, vocalGender, negativeTags := p.instrumental, p.model, p.vocalGender, p.negativeTags;
    }

    method Normalize()
      modifies this
      ensures Value() == Normalized(old(Value()))
      ensures prompt == TrimSpace(old(prompt)) && model == (if old(model) == NoModel then V45All else old(model))
      ensures style == if Given(old(style)) then Some(TrimSpace(old(style.value))) else None
      ensures title == if Given(old(title)) then Some(TrimSpace(old(title.value))) else None
      ensures negativeTags == if Given(old(negativeTags)) then Some(TrimSpace(old(negativeTags.value))) else None
      ensures (customMode, instrumental, vocalGender) == old((customMode, instrumental, vocalGender))
    {
      hide TrimSpace;
      prompt := TrimSpace(prompt);
      if style.Some? {
        var v := TrimSpace(style.value);
        style := if v == "" then None else Some(v);
      }
      if title.Some? {
        var v := TrimSpace(title.value);
        title := if v == "" then None else Some(v);
      }
      if negativeTags.Some? {
        var v := TrimSpace(negativeTags.value);
        negativeTags := if v == "" then None else Some(v);
      }
      if model == NoModel {
        model := V45All;
      }
    }
  }

  // Jobs

  type JobId = Uuid
  type UserId = Uuid
  type Time = int

  datatype Status = Queued | Processing | Ready | Failed

  /** A job row: the columns the pipeline reads or writes. */
  datatype Job = Job(
    id: JobId,
    user: UserId,
    params: JobParams,
    status: Status,
    taskId: Option<string>,
    error: Option<string>,
    attempts: nat,
    startedAt: Option<Time>,
    finishedAt: Option<Time>)

  function NewJob(id: JobId, user: UserId, params: JobParams): Job {
    Job(id, user, params, Queued, None, None, 0, None, None)
  }

  predicate Terminal(s: Status) {
    s == Ready || s == Failed
  }

  function MarkedProcessing(j: Job, now: Time, task: string): Result<Job> {
    if j.status == Processing then Ok(j)
    else if j.status != Queued then Fail(InvalidInput(InvalidStatusTransition))
    else Ok(j.(status := Processing,
               startedAt := if j.startedAt.None? then Some(now) else j.startedAt,
               attempts := j.attempts + 1,
               taskId := if j.taskId.None? then TrimOption(Some(task)) else j.taskId))
  }

  function MarkedReady(j: Job, now: Time): Result<Job> {
    if j.status == Ready then Ok(j)
    else if j.status != Processing then Fail(InvalidInput(InvalidStatusTransition))
    else Ok(j.(status := Ready, error := None, finishedAt := Some(now)))
  }

  function MarkedFailed(j: Job, now: Time, msg: string): Result<Job> {
    if j.status == Failed then Ok(j)
    else if j.status == Ready then Fail(InvalidInput(InvalidStatusTransition))
    else Ok(j.(status := Failed, error := Some(TrimSpace(msg)), finishedAt := Some(now)))
  }

  /** Which columns are set in which status. */
  predicate WellFormed(j: Job) {
    && (j.taskId.Some? ==> !Blank(j.taskId.value) && TrimSpace(j.taskId.value) == j.taskId.value)
    && (j.attempts == 1 <==> j.startedAt.Some?)
    && (j.attempts == 1 <==> j.taskId.Some?)
    && j.attempts <= 1
    && match j.status
       case Queued => j.attempts == 0 && j.error.None? && j.finishedAt.None?
       case Processing => j.attempts == 1 && j.error.None? && j.finishedAt.None?
       case Ready => j.attempts == 1 && j.error.None? && j.finishedAt.Some?
       case Failed => j.error.Some? && j.finishedAt.Some?
  }

  /** Every legal mark keeps a row well formed, and never touches identity or an already stored task id. */
  lemma MarksKeepWellFormed(j: Job, now: Time, text: string)
    requires WellFormed(j)
    ensures !Blank(text) && MarkedProcessing(j, now, text).Ok? ==> WellFormed(MarkedProcessing(j, now, text).value)
    ensures MarkedReady(j, now).Ok? ==> WellFormed(MarkedReady(j, now).value)
    ensures MarkedFailed(j, now, text).Ok? ==> WellFormed(MarkedFailed(j, now, text).value)
    ensures forall r :: r in [MarkedProcessing(j, now, text), MarkedReady(j, now), MarkedFailed(j, now, text)]
                        && r.Ok? ==>
              && r.value.id == j.id && r.value.user == j.user && r.value.params == j.params
              && (j.taskId.Some? ==> r.value.taskId == j.taskId)
  {
    TrimSpaceFixed(text);
  }

  /**
    The status diagram: which marks a status allows, that a refused mark is an error both consumers
    acknowledge rather than retry, and that marking again what is already marked changes nothing.
    */
  lemma MarksFollowDiagram(j: Job, now: Time, text: string, later: Time, other: string)
    ensures MarkedProcessing(j, now, text).Ok? <==> j.status == Queued || j.status == Processing
    ensures MarkedReady(j, now).Ok? <==> j.status == Processing || j.status == Ready
    ensures MarkedFailed(j, now, text).Ok? <==> j.status != Ready
    ensures forall r :: r in [MarkedProcessing(j, now, text), MarkedReady(j, now), MarkedFailed(j, now, text)]
                        && r.Fail? ==>
              !JobRequeue(Wrap(r.error)) && !CallbackRequeue(r.error)
    ensures MarkedProcessing(j, now, text).Ok? ==>
              MarkedProcessing(MarkedProcessing(j, now, text).value, later, other) == MarkedProcessing(j, now, text)
    ensures MarkedReady(j, now).Ok? ==> MarkedReady(MarkedReady(j, now).value, later) == MarkedReady(j, now)
    ensures MarkedFailed(j, now, text).Ok? ==>
              MarkedFailed(MarkedFailed(j, now, text).value, later, other) == MarkedFailed(j, now, text)
  {
    hide Is;
    InvalidMatchesCategoryAndCause(InvalidStatusTransition, InvalidStatusTransition);
    WrappedMatches(InvalidInput(InvalidStatusTransition), InvalidStatusTransition);
  }

  /** The entity whose pointer methods the handlers call on their local copy. */
  class JobRecord {
    const id: JobId
    const user: UserId
    const params: JobParams
    var status: Status
    var taskId: Option<string>
    var error: Option<string>
    var attempts: nat
    var startedAt: Option<Time>
    var finishedAt: Option<Time>

    function Value(): Job
      reads this
    {
      Job(id, user, params, status, taskId, error, attempts, startedAt, finishedAt)
    }

    constructor (j: Job)
      ensures Value() == j
    {
      id, user, params := j.id, j.user, j.params;
      status, taskId, error, attempts := j.status, j.taskId, j.error, j.attempts;
      startedAt, finishedAt := j.startedAt, j.finishedAt;
    }

    method MarkProcessing(now: Time, task: string) returns (err: Option<Err>)
      modifies this
      ensures MarkedProcessing(old(Value()), now, task) == (if err.None? then Ok(Value()) else Fail(err.value))
      ensures err.None? <==> old(status) in {Queued, Processing}
      ensures old(status) == Queued ==>
                && status == Processing && attempts == old(attempts) + 1
                && startedAt == (if old(startedAt).Some? then old(startedAt) else Some(now))
                && taskId == (if old(taskId).Some? || Blank(task) then old(taskId) else Some(TrimSpace(task)))
                && (error, finishedAt) == old((error, finishedAt))
      ensures old(status) != Queued ==> Value() == old(Value())
    {
      if status != Queued {
        if status == Processing {
          return None;
        }
        return Some(InvalidInput(InvalidStatusTransition));
      }
      status := Processing;
      if startedAt.None? {
        startedAt := Some(now);
      }
      attempts := attempts + 1;
      if taskId.None? && TrimSpace(task) != "" {
        taskId := Some(TrimSpace(task));
      }
      return None;
    }

    method MarkReady(now: Time) returns (err: Option<Err>)
      modifies this
      ensures MarkedReady(old(Value()), now) == (if err.None? then Ok(Value()) else Fail(err.value))
      ensures err.None? <==> old(status) in {Processing, Ready}
      ensures Value() == if old(status) == Processing then
                           old(Value()).(status := Ready, error := None, finishedAt := Some(now))
                         else old(Value())
    {
      if status != Processing {
        if status == Ready {
          return None;
        }
        return Some(InvalidInput(InvalidStatusTransition));
      }
      status := Ready;
      error := None;
      finishedAt := Some(now);
      return None;
    }

    method MarkFailed(now: Time, msg: string) returns (err: Option<Err>)
      modifies this
      ensures MarkedFailed(old(Value()), now, msg) == (if err.None? then Ok(Value()) else Fail(err.value))
      ensures err.None? <==> old(status) != Ready
      ensures Value() == if old(status) in {Queued, Processing} then
                           old(Value()).(status := Failed, error := Some(TrimSpace(msg)), finishedAt := Some(now))
                         else old(Value())
    {
      if status != Processing && status != Queued {
        if status == Failed {
          return None;
        }
        return Some(InvalidInput(InvalidStatusTransition));
      }
      status := Failed;
      error := Some(TrimSpace(msg));
      finishedAt := Some(now);
      return None;
    }
  }
}
