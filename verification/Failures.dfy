/** How a failed attempt is classified, and what the retry planner decides. */
module Failures {
  datatype Class = RetryableTransport | AuthRefreshable | QuotaCooldown | DurableDisabled | RequestShape | EmptyStream | ProviderFatal

  datatype Decision = Decision(class_: Class, cooldown: int, retryAllowed: bool, ban: bool, status: int)

  /** What the text of a failure message gives away. */
  datatype Signals = Signals(blocked: bool, refreshable: bool, quotaWords: bool, shapeWords: bool)

  const HOUR := 3600

  const AUTH: set<int> := {401, 403}
  const SERVER: set<int> := {500, 502, 503, 504}

  /** A reply that says the request itself is wrong, and nothing else. */
  predicate Malformed(status: int, s: Signals) {
    !s.blocked && !s.quotaWords && status !in {401, 403, 429} && (status in {400, 422} || s.shapeWords)
  }

  predicate Exhausted(status: int, s: Signals) {
    !s.blocked && (status == 429 || s.quotaWords) && !(status in AUTH && s.refreshable)
  }

  predicate Unauthorized(status: int, s: Signals) {
    !s.blocked && status in AUTH && (s.refreshable || !s.quotaWords)
  }

  predicate ServerFailed(status: int, s: Signals) {
    !s.blocked && !s.quotaWords && !s.shapeWords && status in SERVER
  }

  /** ClassifyHTTPFailure; the order of the branches matters. */
  function ClassifyHttp(status: int, s: Signals): Decision {
    if s.blocked then Decision(DurableDisabled, 0, false, true, 401)
    else if s.refreshable && (status == 401 || status == 403) then Decision(AuthRefreshable, 0, true, false, 401)
    else if status == 429 || s.quotaWords then Decision(QuotaCooldown, HOUR, false, false, 429)
    else if status == 401 || status == 403 then Decision(AuthRefreshable, 30, false, false, 401)
    else if status == 400 || status == 422 || s.shapeWords then Decision(RequestShape, 0, false, false, 502)
    else if status in {500, 502, 503, 504} then Decision(RetryableTransport, 15, true, false, 502)
    else Decision(ProviderFatal, 30, false, false, 502)
  }

  /** What each class means, whatever the order. */
  lemma ClassMeans(status: int, s: Signals)
    ensures var d := ClassifyHttp(status, s);
            && (d.class_ == DurableDisabled <==> s.blocked)
            && (d.class_ == AuthRefreshable <==> Unauthorized(status, s))
            && (d.class_ == QuotaCooldown <==> Exhausted(status, s))
            && (d.class_ == RequestShape <==> Malformed(status, s))
            && (d.class_ == RetryableTransport <==> ServerFailed(status, s))
            && d.class_ != EmptyStream && (d.ban <==> s.blocked)
            && (d.retryAllowed <==> ServerFailed(status, s) || (Unauthorized(status, s) && s.refreshable))
            && d.status == if s.blocked || Unauthorized(status, s) then 401 else if Exhausted(status, s) then 429 else 502
  {
  }

  /** ClassifyTransportFailure. */
  const TRANSPORT := Decision(RetryableTransport, 15, true, false, 502)

  /** The decision Complete builds for a completion without visible output. */
  const EMPTY := Decision(EmptyStream, 0, true, false, 502)

  datatype AttemptResult = AttemptResult(status: int, failure: Decision, recoveredAuth: bool, clientBytesSent: bool)

  datatype RetryDecision = RetryDecision(retry: bool, refreshAuth: bool, exclude: bool, finalStatus: int)

  datatype Phase = RefreshOnce | CooldownThenRetry

  /** DefaultStatusPolicies; the codex service adds none. */
  function Policy(status: int): (p: seq<(Phase, Class)>)
    ensures |p| <= 1
  {
    if status == 401 || status == 403 then [(RefreshOnce, AuthRefreshable)]
    else if status == 429 then [(CooldownThenRetry, QuotaCooldown)]
    else []
  }

  /** RetryPlanner.Decide. */
  function Decide(r: AttemptResult): RetryDecision {
    var policy := Policy(r.status);
    var class_ := if policy != [] && r.failure.class_ != EmptyStream then policy[0].1 else r.failure.class_;
    var status := r.failure.status;
    if class_ == EmptyStream then
      (if !r.clientBytesSent then RetryDecision(true, false, true, status) else RetryDecision(false, false, false, status))
    else if policy != [] && policy[0].0 == RefreshOnce && !r.recoveredAuth && class_ == AuthRefreshable then
      RetryDecision(true, true, false, status)
    else if policy != [] && policy[0].0 == CooldownThenRetry && !r.clientBytesSent then
      RetryDecision(true, false, true, status)
    else if class_ == AuthRefreshable && !r.recoveredAuth then RetryDecision(true, true, false, status)
    else if r.failure.retryAllowed && !r.clientBytesSent then RetryDecision(true, false, true, status)
    else RetryDecision(false, false, false, status)
  }

  /** A refresh is asked for exactly when none has succeeded yet, the stream was
      not merely empty, and either the status or, unless the status is 429, the
      failure itself points at authentication. */
  lemma RefreshAsked(r: AttemptResult)
    ensures Decide(r).refreshAuth <==>
            !r.recoveredAuth && r.failure.class_ != EmptyStream &&
            (r.status in {401, 403} || (r.failure.class_ == AuthRefreshable && r.status != 429))
  {
  }

  /** A retry either refreshes the same account or excludes it, never both, and
      nothing is retried with another account once the client has seen bytes. */
  lemma RetryMeans(r: AttemptResult)
    ensures Decide(r).retry <==> Decide(r).refreshAuth != Decide(r).exclude
    ensures !(Decide(r).refreshAuth && Decide(r).exclude)
    ensures r.clientBytesSent ==> !Decide(r).exclude
  {
  }

  /** Once no refresh is asked for, the account is excluded exactly on an empty
      stream, a 429 or a failure that allows a retry; any other failure leaves
      the account to the cooldown it gets. */
  lemma ExcludedWhen(r: AttemptResult)
    requires !r.clientBytesSent && !Decide(r).refreshAuth
    ensures Decide(r).exclude <==> r.failure.class_ == EmptyStream || r.status == 429 || r.failure.retryAllowed
  {
  }
}
