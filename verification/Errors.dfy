/** Go error values as wrap trees: `%w` keeps a subtree, `%v` drops it. */
module Errors {
  import opened Text

  datatype Sentinel =
    | InvalidInputS | JobNotFound | TrackNotFound | InvalidStatusTransition
    | NonRetryable | InvalidCallbackS | MovedToDLQ | AckFailed
    | ModelRequired | ModelInvalid | VocalGenderInvalid
    | PromptRequired | PromptTooLong | StyleRequiredCustom | StyleTooLong | TitleRequiredCustom | TitleTooLong
    | StyleMustBeEmptyNonCustom | TitleMustBeEmptyNonCustom | NegativeTagsMustBeEmptyNonCustom
    | VocalGenderMustBeEmptyNonCustom | VocalGenderNotAllowedInstrumental | NegativeTagsTooLong
    | TrackTitleRequired | TrackAudioIDRequired | TrackAudioURLRequired | TrackAudioStorageRequired
    | MessageRequired | TaskIDRequired | CallbackTypeInvalid | ResultsRequiredForComplete

  /**
    A sentinel; a foreign error of a driver, the network or a library; a provider error that answers
    `Retryable()`; and errors built by `fmt.Errorf` with one `%w` or two.
    */
  datatype Err =
    | Sentinel(s: Sentinel)
    | Plain
    | Api(retryable: bool)
    | Wrap(inner: Err)
    | Join(first: Err, second: Err)

  datatype Result<+T> = Ok(value: T) | Fail(error: Err)

  /** How a write with read-back went: not applied, applied but its result not read, or applied and read. */
  datatype WriteOutcome = NotWritten | WrittenUnread | WrittenRead

  /** `errors.Is` against a sentinel. */
  predicate Is(e: Err, s: Sentinel) {
    match e
    case Sentinel(x) => x == s
    case Plain => false
    case Api(_) => false
    case Wrap(i) => Is(i, s)
    case Join(a, b) => Is(a, s) || Is(b, s)
  }

  /** `errors.As` against the `Retryable() bool` interface: the first match in pre-order. */
  function AsRetryable(e: Err): Option<bool> {
    match e
    case Sentinel(_) => None
    case Plain => None
    case Api(r) => Some(r)
    case Wrap(i) => AsRetryable(i)
    case Join(a, b) => if AsRetryable(a).Some? then AsRetryable(a) else AsRetryable(b)
  }

  /** An error made outside the service carries none of its sentinels. */
  predicate Foreign(e: Err) {
    match e
    case Sentinel(_) => false
    case Plain => true
    case Api(_) => true
    case Wrap(i) => Foreign(i)
    case Join(a, b) => Foreign(a) && Foreign(b)
  }

  // What a wrap tree answers, by its leaves

  /** The leaves of a wrap tree in pre-order, the order in which `errors.Is` and `errors.As` meet them. */
  function Leaves(e: Err): seq<Err> {
    match e
    case Wrap(i) => Leaves(i)
    case Join(a, b) => Leaves(a) + Leaves(b)
    case _ => [e]
  }

  /** A definite refusal: the first provider error in the tree answers that it cannot be retried. */
  predicate Refuses(e: Err) {
    var leaves := Leaves(e);
    exists n :: 0 <= n < |leaves| && leaves[n] == Api(false) && forall k :: 0 <= k < n ==> !leaves[k].Api?
  }

  /** `errors.Is` finds a sentinel if and only if it is a leaf, however deep. */
  lemma {:induction false} IsFindsLeaf(e: Err, s: Sentinel)
    ensures Is(e, s) <==> Sentinel(s) in Leaves(e)
  {
    match e
    case Wrap(i) => IsFindsLeaf(i, s);
    case Join(a, b) => IsFindsLeaf(a, s); IsFindsLeaf(b, s);
    case _ =>
  }

  /** `errors.As` answers with the first provider error among the leaves, leaf n; without one it answers None. */
  lemma {:induction false} AsRetryableFindsFirst(e: Err) returns (n: nat)
    ensures n <= |Leaves(e)| && forall k :: 0 <= k < n ==> !Leaves(e)[k].Api?
    ensures n < |Leaves(e)| ==> Leaves(e)[n].Api? && AsRetryable(e) == Some(Leaves(e)[n].retryable)
    ensures n == |Leaves(e)| ==> AsRetryable(e).None?
  {
    match e
    case Wrap(i) => n := AsRetryableFindsFirst(i);
    case Join(a, b) =>
      n := AsRetryableFindsFirst(a);
      if n == |Leaves(a)| {
        var m := AsRetryableFindsFirst(b);
        n := n + m;
      }
    case Api(_) => n := 0;
    case Sentinel(_) => n := 1;
    case Plain => n := 1;
  }

  lemma RefusesIff(e: Err)
    ensures AsRetryable(e) == Some(false) <==> Refuses(e)
  {
    var n := AsRetryableFindsFirst(e);
    hide AsRetryable;
  }

  /** `Retryable` of a provider error with a code of its own, 0 if none, and an HTTP status. */
  function Retryable(code: int, status: int): bool {
    if code in {400, 401, 404, 413, 429} then false
    else if code in {405, 430, 455, 500} then true
    else if status >= 500 then true
    else if 400 <= status < 500 then false
    else true
  }

  /** `fmt.Errorf` with one `%w`, n times over. */
  function WrapTimes(e: Err, n: nat): Err {
    if n == 0 then e else Wrap(WrapTimes(e, n - 1))
  }

  /**
    However deep it is wrapped, a provider error is a refusal if its code says so, or if it has no code that
    can be retried and an HTTP status of a client error.
    */
  lemma {:induction false} RefusedCodes(code: int, status: int, n: nat)
    ensures Refuses(WrapTimes(Api(Retryable(code, status)), n)) <==>
            code in {400, 401, 404, 413, 429} || (code !in {405, 430, 455, 500} && 400 <= status <= 499)
  {
    if n == 0 {
      RefusesIff(Api(Retryable(code, status)));
    } else {
      RefusedCodes(code, status, n - 1);
      assert Leaves(WrapTimes(Api(Retryable(code, status)), n))
          == Leaves(WrapTimes(Api(Retryable(code, status)), n - 1));
    }
  }

  /** The job consumer retries exactly the errors without any of three sentinels among their leaves. */
  lemma JobRequeueIff(e: Err)
    ensures JobRequeue(e) <==>
            forall leaf :: leaf in Leaves(e) ==>
              leaf !in {Sentinel(JobNotFound), Sentinel(InvalidStatusTransition), Sentinel(NonRetryable)}
  {
    IsFindsLeaf(e, JobNotFound);
    IsFindsLeaf(e, InvalidStatusTransition);
    IsFindsLeaf(e, NonRetryable);
  }

  /** The callback consumer retries exactly the errors without any of three others. */
  lemma CallbackRequeueIff(e: Err)
    ensures CallbackRequeue(e) <==>
            forall leaf :: leaf in Leaves(e) ==>
              leaf !in {Sentinel(InvalidStatusTransition), Sentinel(InvalidCallbackS), Sentinel(TrackNotFound)}
  {
    IsFindsLeaf(e, InvalidStatusTransition);
    IsFindsLeaf(e, InvalidCallbackS);
    IsFindsLeaf(e, TrackNotFound);
  }

  function InvalidInput(cause: Sentinel): Err {
    Join(Sentinel(InvalidInputS), Sentinel(cause))
  }

  function InvalidCallback(cause: Sentinel): Err {
    Join(Sentinel(InvalidCallbackS), Sentinel(cause))
  }

  /** An invalid-input error matches its category and its cause, and nothing else. */
  lemma InvalidMatchesCategoryAndCause(cause: Sentinel, s: Sentinel)
    ensures Is(InvalidInput(cause), s) <==> s == InvalidInputS || s == cause
    ensures Is(InvalidCallback(cause), s) <==> s == InvalidCallbackS || s == cause
  {
  }

  lemma WrappedMatches(e: Err, s: Sentinel)
    ensures Is(Wrap(e), s) <==> Is(e, s)
  {
  }

  /** The job consumer's requeue switch. */
  predicate JobRequeue(e: Err) {
    !Is(e, JobNotFound) && !Is(e, InvalidStatusTransition) && !Is(e, NonRetryable)
  }

  /** The callback consumer's requeue switch. */
  predicate CallbackRequeue(e: Err) {
    !Is(e, InvalidStatusTransition) && !Is(e, InvalidCallbackS) && !Is(e, TrackNotFound)
  }

  /** However a foreign error is wrapped, it matches no sentinel of the service. */
  lemma {:induction false} ForeignMatchesNothing(e: Err, s: Sentinel)
    requires Foreign(e)
    ensures !Is(e, s)
  {
    match e
    case Wrap(i) => ForeignMatchesNothing(i, s);
    case Join(a, b) => ForeignMatchesNothing(a, s); ForeignMatchesNothing(b, s);
    case _ =>
  }

  /** An error is foreign if and only if no leaf of it is a sentinel. */
  lemma {:induction false} ForeignIff(e: Err)
    ensures Foreign(e) <==> forall leaf :: leaf in Leaves(e) ==> !leaf.Sentinel?
  {
    match e
    case Wrap(i) => ForeignIff(i);
    case Join(a, b) => ForeignIff(a); ForeignIff(b);
    case _ => assert e in Leaves(e);
  }

  lemma ForeignRequeued(e: Err)
    requires Foreign(e)
    ensures JobRequeue(e) && JobRequeue(Wrap(e)) && CallbackRequeue(e) && CallbackRequeue(Wrap(e))
  {
  }
}
