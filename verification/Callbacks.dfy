/** Provider callbacks: the request contract and the requests that polling makes up. */
module Callbacks {
  import opened Text
  import opened Errors

  datatype CallbackType = TextType | FirstType | CompleteType | ErrorType | OtherType(name: string)

  /** One generated song as the provider reports it. */
  datatype SunoResult = SunoResult(
    audioId: string,
    audioUrl: Option<string>,
    sourceAudioUrl: Option<string>,
    imageUrl: Option<string>,
    sourceImageUrl: Option<string>,
    title: Option<string>,
    tags: Option<string>,
    duration: Option<real>)

  datatype Request = Request(code: int, message: string, kind: CallbackType, taskField: string,
      results: seq<SunoResult>) {
    function TaskId(): string {
      TrimSpace(taskField)
    }

    function ErrorMessage(): string {
      TrimSpace(message)
    }
  }

  function ValidateRequest(r: Request): Option<Err> {
    if Blank(r.message) then Some(InvalidCallback(MessageRequired))
    else if Blank(r.taskField) then Some(InvalidCallback(TaskIDRequired))
    else if r.kind.OtherType? then Some(InvalidCallback(CallbackTypeInvalid))
    else if r.kind == CompleteType && r.results == [] then Some(InvalidCallback(ResultsRequiredForComplete))
    else None
  }

  predicate Lacks(r: Request, rule: Sentinel) {
    match rule
    case MessageRequired => Blank(r.message)
    case TaskIDRequired => Blank(r.taskField)
    case CallbackTypeInvalid => r.kind !in {TextType, FirstType, CompleteType, ErrorType}
    case ResultsRequiredForComplete => r.kind == CompleteType && |r.results| == 0
    case _ => false
  }

  /** What a callback must have, in the order in which it is checked. */
  const RULES: seq<Sentinel> := [MessageRequired, TaskIDRequired, CallbackTypeInvalid, ResultsRequiredForComplete]

  /** A callback is accepted when it has a message, a task, a known type, and results if it is complete. */
  lemma RequestAcceptedIff(r: Request)
    ensures ValidateRequest(r).None? <==>
            && !Blank(r.message) && !Blank(r.taskField)
            && r.kind in {TextType, FirstType, CompleteType, ErrorType}
            && (r.kind == CompleteType ==> |r.results| > 0)
    ensures ValidateRequest(r).Some? ==> !CallbackRequeue(ValidateRequest(r).value)
  {
    assert Is(Sentinel(InvalidCallbackS), InvalidCallbackS);
  }

  /** A refusal names the first thing that is missing. */
  lemma RefusalNamesFirstRule(r: Request, n: nat)
    requires n <= |RULES| && forall m :: 0 <= m < n ==> !Lacks(r, RULES[m])
    requires n < |RULES| ==> Lacks(r, RULES[n])
    ensures ValidateRequest(r) == if n < |RULES| then Some(InvalidCallback(RULES[n])) else None
  {
    assert n > 0 ==> !Lacks(r, RULES[0]);
    assert n > 1 ==> !Lacks(r, RULES[1]);
    assert n > 2 ==> !Lacks(r, RULES[2]);
    assert n > 3 ==> !Lacks(r, RULES[3]);
  }

  /** The provider's record status after trimming and upper-casing. */
  datatype ProviderStatus =
    | SuccessStatus | CallbackException | CreateTaskFailed | GenerateAudioFailed
    | SensitiveWordError | FailedStatus | ErrorStatus | OtherStatus(name: string)

  datatype Details = Details(status: ProviderStatus, errorMessage: string, results: seq<SunoResult>)

  function LowerName(s: ProviderStatus): string {
    match s
    case CreateTaskFailed => "create_task_failed"
    case GenerateAudioFailed => "generate_audio_failed"
    case SensitiveWordError => "sensitive_word_error"
    case FailedStatus => "failed"
    case ErrorStatus => "error"
    case _ => ""
  }

  /** The terminal callback a polled record stands for, or None while polling goes on. */
  function FromDetails(task: string, d: Details): Option<Request> {
    match d.status
    case SuccessStatus =>
      if d.results == [] then None
      else Some(Request(200, "polled success", CompleteType, task, d.results))
    case CallbackException =>
      if d.results != [] then
        Some(Request(200, "callback exception resolved via polling", CompleteType, task, d.results))
      else
        Some(Request(200, FirstNonEmpty([Some(d.errorMessage), Some("callback exception")]), ErrorType, task, []))
    case OtherStatus(_) => None
    case _ =>
      Some(Request(200, FirstNonEmpty([Some(d.errorMessage), Some(LowerName(d.status))]), ErrorType, task, []))
  }

  /** The records that end polling; a success without results yet is not one. */
  predicate Conclusive(d: Details) {
    !d.status.OtherStatus? && (d.status == SuccessStatus ==> d.results != [])
  }

  /** The records that bring songs. */
  predicate BringsSongs(d: Details) {
    d.results != [] && (d.status == SuccessStatus || d.status == CallbackException)
  }

  /** The text of a failure that the provider gives no message for, by its status. */
  const FAILURE_TEXTS: map<ProviderStatus, string> := map[
    CallbackException := "callback exception",
    CreateTaskFailed := "create_task_failed",
    GenerateAudioFailed := "generate_audio_failed",
    SensitiveWordError := "sensitive_word_error",
    FailedStatus := "failed",
    ErrorStatus := "error"
  ]

  lemma TextsNotBlank(d: Details)
    ensures !Blank("polled success") && !Blank("callback exception resolved via polling")
    ensures Conclusive(d) && !BringsSongs(d) ==>
              d.status in FAILURE_TEXTS && !Blank(FAILURE_TEXTS[d.status])
              && TrimSpace(FAILURE_TEXTS[d.status]) == FAILURE_TEXTS[d.status]
  {
    NonSpaceStartNotBlank("polled success");
    NonSpaceStartNotBlank("callback exception resolved via polling");
    if d.status in FAILURE_TEXTS {
      NonSpaceStartNotBlank(FAILURE_TEXTS[d.status]);
      TrimSpaceOfTight(FAILURE_TEXTS[d.status]);
    }
  }

  lemma FallbackText(d: Details)
    requires Conclusive(d) && !BringsSongs(d)
    ensures d.status in FAILURE_TEXTS
    ensures FAILURE_TEXTS[d.status]
            == if d.status == CallbackException then "callback exception" else LowerName(d.status)
  {
  }

  /**
    A polled record stands for a callback if and only if it is conclusive: a complete callback with its
    songs if it brings any, else an error one with the provider's message, or the text of its status when
    that is blank.
    */
  lemma FromDetailsTable(task: string, d: Details)
    ensures FromDetails(task, d).Some? <==> Conclusive(d)
    ensures BringsSongs(d) && d.status == SuccessStatus ==>
              FromDetails(task, d) == Some(Request(200, "polled success", CompleteType, task, d.results))
    ensures BringsSongs(d) && d.status == CallbackException ==>
              FromDetails(task, d)
              == Some(Request(200, "callback exception resolved via polling", CompleteType, task, d.results))
    ensures Conclusive(d) && !BringsSongs(d) ==>
              && d.status in FAILURE_TEXTS
              && FromDetails(task, d)
                 == Some(Request(200,
                                 if Blank(d.errorMessage) then FAILURE_TEXTS[d.status] else TrimSpace(d.errorMessage),
                                 ErrorType, task, []))
  {
    if Conclusive(d) && !BringsSongs(d) {
      TextsNotBlank(d);
      FallbackText(d);
      FirstOfTwo(Some(d.errorMessage), Some(FAILURE_TEXTS[d.status]));
    }
    hide FirstNonEmpty, TrimSpace, LowerName, FAILURE_TEXTS;
  }

  lemma ValidFrom(r: Request)
    requires !Blank(r.message) && !Blank(r.taskField)
    requires r.kind == ErrorType || (r.kind == CompleteType && r.results != [])
    ensures ValidateRequest(r).None?
  {
  }

  /** A polled request meets the same contract as one that came over HTTP, is terminal, and names the polled task. */
  lemma PolledRequestValid(task: string, d: Details)
    requires !Blank(task) && Conclusive(d)
    ensures FromDetails(task, d).Some?
    ensures var r := FromDetails(task, d).value;
            && ValidateRequest(r).None?
            && r.taskField == task
            && (r.kind == CompleteType || r.kind == ErrorType)
            && (r.kind == CompleteType <==> BringsSongs(d))
            && (r.kind == CompleteType ==> r.results == d.results)
            && (r.kind == ErrorType && !Blank(d.errorMessage) ==> r.message == TrimSpace(d.errorMessage))
  {
    FromDetailsTable(task, d);
    TextsNotBlank(d);
    TrimSpaceFixed(d.errorMessage);
    ValidFrom(FromDetails(task, d).value);
    hide FromDetails, ValidateRequest, TrimSpace;
  }
}
