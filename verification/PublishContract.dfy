/** What a publishing provider may answer, and how an answer is turned into one outcome. */
module PublishContract {
  import opened Options

  datatype ErrorClass =
    | Transient | RateLimited | AuthExpired | ReauthRequired | HumanChallenge
    | UnsupportedCapability | Validation | PolicyDenied | UnknownOutcome | Internal

  datatype Decision = Retry | NeedsUser | GiveUp

  function DecisionFor(c: ErrorClass): Decision {
    match c
    case Transient | RateLimited | Internal => Retry
    case AuthExpired | ReauthRequired | HumanChallenge | UnsupportedCapability | UnknownOutcome => NeedsUser
    case Validation | PolicyDenied => GiveUp
  }

  /** A classified exception. */
  datatype Thrown = Thrown(errorClass: ErrorClass, terminal: bool, retryAfterMs: Option<int>)

  /** The value a provider returned, before it is validated; columns hold what the value's fields hold. */
  datatype RawOutcome =
    | NoOutcome
    | Unrecognised
    | RawPublished(externalRef: Option<string>, externalUrl: Option<string>)
    | RawAccepted(operationRef: Option<string>, pollAfterMs: Option<int>)
    | RawPartial(externalRef: Option<string>, externalUrl: Option<string>)
    | RawFailed(errorClass: Option<ErrorClass>, retryAfterMs: Option<int>, final: bool)
    | RawUnknown(operationRef: Option<string>)

  /** Either a value or an exception. */
  datatype Answer = Returned(raw: RawOutcome) | Threw(error: Thrown)

  datatype Outcome =
    | Published(externalRef: Option<string>, externalUrl: Option<string>)
    | Accepted(operationRef: string, pollAfterMs: Option<int>)
    | Partial(externalRef: Option<string>, externalUrl: Option<string>)
    | Failed(errorClass: ErrorClass, retryAfterMs: Option<int>, final: bool)
    | Unknown(maybeRef: Option<string>)

  const REF_MAX := 300
  const URL_MAX := 2000
  const MAX_RETRY_AFTER_MS := 6 * 3_600_000

  function Bounded(x: Option<string>, max: nat): Option<string> {
    if x.Some? && 0 < |x.value| <= max then x else None
  }

  function HttpsOrNull(u: Option<string>): Option<string> {
    if u.Some? && "https://" <= u.value && |u.value| <= URL_MAX then u else None
  }

  /** An exception becomes unknown when the request may have arrived and resubmitting is not known to be safe. */
  function OutcomeFromError(e: Thrown, idempotentSubmit: bool): Outcome {
    if (e.errorClass == Transient || e.errorClass == Internal) && !idempotentSubmit then Unknown(None)
    else if e.errorClass == UnknownOutcome then Unknown(None)
    else Failed(e.errorClass, if e.retryAfterMs == Some(0) then None else e.retryAfterMs, e.terminal)
  }

  const UNREADABLE := Thrown(UnknownOutcome, false, None)

  /** The structural check of a returned value; an unusable value is treated as a thrown unknown outcome. */
  function Validate(raw: RawOutcome, idempotentSubmit: bool): Outcome {
    match raw
    case NoOutcome => OutcomeFromError(UNREADABLE, idempotentSubmit)
    case Unrecognised => OutcomeFromError(UNREADABLE, idempotentSubmit)
    case RawPublished(ref, url) => Published(Bounded(ref, REF_MAX), HttpsOrNull(url))
    case RawAccepted(ref, poll) =>
      var bounded := Bounded(ref, REF_MAX);
      if bounded.Some? then Accepted(bounded.value, poll) else OutcomeFromError(UNREADABLE, idempotentSubmit)
    case RawPartial(ref, url) => Partial(Bounded(ref, REF_MAX), HttpsOrNull(url))
    case RawFailed(cls, wait, final) =>
      var known := cls.Or(Internal);
      if known == UnknownOutcome then Unknown(None)
      else Failed(known, if wait.Some? && wait.value > 0 then Some(Min(wait.value, MAX_RETRY_AFTER_MS)) else None, final)
    case RawUnknown(ref) => Unknown(Bounded(ref, REF_MAX))
  }

  function Interpret(a: Answer, idempotentSubmit: bool): Outcome {
    match a
    case Returned(raw) => Validate(raw, idempotentSubmit)
    case Threw(e) => OutcomeFromError(e, idempotentSubmit)
  }

  /** A class that is only raised before a provider accepts anything. */
  predicate PreAcceptance(c: ErrorClass) {
    c !in {Transient, Internal, UnknownOutcome}
  }

  /** The provider says outright that nothing was or will be posted. */
  predicate Denies(a: Answer) {
    match a
    case Returned(RawFailed(cls, _, _)) => cls != Some(UnknownOutcome)
    case Returned(_) => false
    case Threw(e) => PreAcceptance(e.errorClass)
  }

  /** The provider says that all or part of the post is live. */
  predicate Confirms(a: Answer) {
    a.Returned? && (a.raw.RawPublished? || a.raw.RawPartial?)
  }

  /**
   * Without a promise of idempotent submits, only an outright denial is recorded as a failure and
   * only a confirmation as (partly) published; an accepted outcome always carries a usable reference.
   */
  lemma AmbiguousAnswersStayUnknown(a: Answer)
    ensures Interpret(a, false).Failed? <==> Denies(a)
    ensures Interpret(a, false).Published? || Interpret(a, false).Partial? <==> Confirms(a)
    ensures Interpret(a, false).Accepted? <==>
              a.Returned? && a.raw.RawAccepted? && Bounded(a.raw.operationRef, REF_MAX).Some?
    ensures Interpret(a, false).Accepted? ==> 0 < |Interpret(a, false).operationRef| <= REF_MAX
  {
  }

  /** A confirmation keeps the reference and the link it was given, as far as they fit; only secure links are kept. */
  lemma ConfirmationsKeepReferences(ref: Option<string>, url: Option<string>, idempotent: bool)
    ensures var o := Interpret(Returned(RawPublished(ref, url)), idempotent);
      && o.Published?
      && (o.externalRef.Some? <==> ref.Some? && 0 < |ref.value| <= REF_MAX) && (o.externalRef.Some? ==> o.externalRef == ref)
      && (o.externalUrl.Some? <==> url.Some? && "https://" <= url.value && |url.value| <= URL_MAX)
      && (o.externalUrl.Some? ==> o.externalUrl == url)
  {
  }

  /** A failure keeps the class and the finality it was reported with, and a wait is kept within six hours. */
  lemma FailuresSayWhatWasReported(a: Answer, idempotent: bool)
    ensures var o := Interpret(a, idempotent);
      o.Failed? ==>
        match a
        case Returned(RawFailed(cls, wait, final)) =>
          && o.errorClass == cls.Or(Internal) && o.final == final
          && (wait.Some? && 0 < wait.value ==> o.retryAfterMs == Some(Min(wait.value, MAX_RETRY_AFTER_MS)))
        case Returned(_) => false
        case Threw(e) => o.errorClass == e.errorClass && o.final == e.terminal
    ensures Interpret(a, true).Failed? <==>
              (a.Returned? && a.raw.RawFailed? && a.raw.errorClass != Some(UnknownOutcome)) ||
              (a.Threw? && a.error.errorClass != UnknownOutcome)
  {
  }
}
