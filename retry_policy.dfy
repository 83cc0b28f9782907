/** The decisions the client's two interceptors take, as functions of values:
    how a request's headers are decorated, how one failed attempt is classified
    (reject, or re-dispatch after a delay with an incremented retry counter),
    and what a whole chain of attempts yields against a transport whose replies
    are given in advance. */
module RetryPolicy {
  import opened Js

  const SessionKey := "session_id"
  const AuthorizationHeader := "Authorization"
  const BearerPrefix := "Bearer "

  const Unauthorized := 401
  const ServerError := 500
  const TooManyRequests := 429

  /** Attempts allowed to end in 429 before the error is surfaced, and likewise
      for attempts that got no response at all. */
  const RateLimitRetries := 3
  const NetworkRetries := 2
  const RateLimitBaseDelayMs := 1000
  const NetworkDelayMs := 2000

  /** `Math.pow(2, n)` for a natural exponent. */
  function Pow2(n: nat): nat
  {
    if n == 0 then 1 else 2 * Pow2(n - 1)
  }

  /** The request interceptor's header update: a truthy stored token becomes a
      bearer credential; every other header is left as it was. */
  function AuthHeaders(headers: map<string, string>, token: Option<string>): (h: map<string, string>)
    ensures Truthy(token) ==> AuthorizationHeader in h && h[AuthorizationHeader] == BearerPrefix + token.value
    ensures !Truthy(token) ==> h == headers
    ensures h.Keys == headers.Keys + (if Truthy(token) then {AuthorizationHeader} else {})
    ensures forall k :: k in headers && k != AuthorizationHeader ==> h[k] == headers[k]
  {
    if Truthy(token) then headers[AuthorizationHeader := BearerPrefix + token.value] else headers
  }

  /** What the error handler does with the request. Rejecting always surfaces
      the original error; re-dispatching always sends the same configuration. */
  datatype Action = Reject | Redispatch(delayMs: nat)

  /** The handler's decision and the retry counter it leaves on the request. */
  datatype Verdict = Verdict(action: Action, retryCount: Option<nat>)

  /** The response interceptor's error branch. `status` is the HTTP status of
      the error's response (`None`: no response was received); `hasConfig`
      says whether the error carries its request configuration, and
      `retryCount` is that configuration's metadata counter, if any. */
  function Classify(status: Option<int>, hasConfig: bool, retryCount: Option<nat>): Verdict
  {
    if status == Some(TooManyRequests) && hasConfig && retryCount.Some? && retryCount.value < RateLimitRetries then
      var c := retryCount.value + 1;
      Verdict(Redispatch(Pow2(c - 1) * RateLimitBaseDelayMs), Some(c))
    else if status.None? && hasConfig && retryCount.Some? && retryCount.value < NetworkRetries then
      Verdict(Redispatch(NetworkDelayMs), Some(retryCount.value + 1))
    else
      Verdict(Reject, retryCount)
  }

  /** Only a 401 clears the stored session. */
  predicate ClearsSession(status: Option<int>)
  {
    status == Some(Unauthorized)
  }

  /** A 429 with counter c below the cap is re-dispatched after 2^c seconds,
      i.e. 1000, 2000 and 4000 ms for c = 0, 1, 2, with the counter raised to c + 1. */
  lemma RateLimitedIsRetried(c: nat)
    requires c < RateLimitRetries
    ensures Classify(Some(TooManyRequests), true, Some(c)) == Verdict(Redispatch(Pow2(c) * 1000), Some(c + 1))
    ensures c == 0 ==> Classify(Some(TooManyRequests), true, Some(c)).action == Redispatch(1000)
    ensures c == 1 ==> Classify(Some(TooManyRequests), true, Some(c)).action == Redispatch(2000)
    ensures c == 2 ==> Classify(Some(TooManyRequests), true, Some(c)).action == Redispatch(4000)
  {
  }

  /** A 429 whose counter reached the cap, or that carries no counter or no
      configuration, is surfaced and the counter is left alone. */
  lemma RateLimitedExhausted(hasConfig: bool, retryCount: Option<nat>)
    requires !hasConfig || retryCount.None? || retryCount.value >= RateLimitRetries
    ensures Classify(Some(TooManyRequests), hasConfig, retryCount) == Verdict(Reject, retryCount)
  {
  }

  /** A failure with no response and counter c < 2 is re-dispatched after
      exactly 2000 ms with the counter raised to c + 1; otherwise it is surfaced. */
  lemma NetworkFailureDecision(hasConfig: bool, retryCount: Option<nat>)
    ensures hasConfig && retryCount.Some? && retryCount.value < NetworkRetries ==>
      Classify(None, hasConfig, retryCount) == Verdict(Redispatch(2000), Some(retryCount.value + 1))
    ensures !(hasConfig && retryCount.Some? && retryCount.value < NetworkRetries) ==>
      Classify(None, hasConfig, retryCount) == Verdict(Reject, retryCount)
  {
  }

  /** Every status other than 429 (401 and 500 included) is surfaced unchanged,
      with the counter untouched. */
  lemma OtherStatusRejected(status: int, hasConfig: bool, retryCount: Option<nat>)
    requires status != TooManyRequests
    ensures Classify(Some(status), hasConfig, retryCount) == Verdict(Reject, retryCount)
  {
  }

  /** The bounds one handler invocation guarantees: a re-dispatch needs a
      configuration with a counter, raises that counter by exactly one, never
      beyond 3, and waits 1000, 2000 or 4000 ms. */
  lemma RedispatchStepBounds(status: Option<int>, hasConfig: bool, retryCount: Option<nat>)
    requires Classify(status, hasConfig, retryCount).action.Redispatch?
    ensures hasConfig && retryCount.Some?
    ensures Classify(status, hasConfig, retryCount).retryCount == Some(retryCount.value + 1)
    ensures retryCount.value + 1 <= RateLimitRetries
    ensures Classify(status, hasConfig, retryCount).action.delayMs in {1000, 2000, 4000}
  {
    if status == Some(TooManyRequests) && retryCount.value < RateLimitRetries {
      RateLimitedIsRetried(retryCount.value);
    }
  }

  // ---------------------------------------------------------------------------
  // A whole request, attempt after attempt.
  //
  // Every retry goes back through the client instance, and the client runs its
  // request interceptor again on every dispatch. How that interceptor treats an
  // existing counter is the only thing the two policies below differ in.

  datatype CounterPolicy =
    | ResetOnEveryDispatch  // as written: `config.metadata = { retryCount: 0 }` on every pass
    | InitialiseOnce        // intended: set the counter only when the request has none

  /** The counter the request interceptor leaves on a request that carried `retryCount`. */
  function DispatchCount(policy: CounterPolicy, retryCount: Option<nat>): nat
  {
    match policy
    case ResetOnEveryDispatch => 0
    case InitialiseOnce => if retryCount.Some? then retryCount.value else 0
  }

  /** A reply of the transport to one dispatch: a response that passes the
      client's status check, or an error with or without a response. */
  datatype Reply = Answered(response: Response) | Failed(status: Option<int>)
  datatype Response = Response(status: int, body: string)

  /** How a request ends: a response, the original error, or still retrying when
      the transport's scripted replies run out. */
  datatype Outcome = Delivered(response: Response) | Rejected(status: Option<int>) | Unresolved

  /** The outcome, the delays slept before each re-dispatch, and the counter left
      on the request's configuration. */
  datatype Trace = Trace(outcome: Outcome, delays: seq<nat>, retryCount: Option<nat>)

  /** The request chain: decorate (counter per `policy`), dispatch, and on an
      error classify; a re-dispatch consumes the next reply. */
  function Run(replies: seq<Reply>, retryCount: Option<nat>, policy: CounterPolicy): Trace
    decreases |replies|
  {
    if replies == [] then Trace(Unresolved, [], retryCount)
    else
      var count := DispatchCount(policy, retryCount);
      match replies[0]
      case Answered(response) => Trace(Delivered(response), [], Some(count))
      case Failed(status) =>
        var v := Classify(status, true, Some(count));
        match v.action
        case Reject => Trace(Rejected(status), [], v.retryCount)
        case Redispatch(d) =>
          var rest := Run(replies[1..], v.retryCount, policy);
          rest.(delays := [d] + rest.delays)
  }

  /** A successful reply ends the request at once: it is delivered as it came,
      with no retry and no delay. */
  lemma SuccessPassesThrough(response: Response, rest: seq<Reply>, retryCount: Option<nat>, policy: CounterPolicy)
    ensures Run([Answered(response)] + rest, retryCount, policy)
      == Trace(Delivered(response), [], Some(DispatchCount(policy, retryCount)))
  {
  }

  /** Errors are never turned into successes: the outcome is the reply to the
      last attempt, every earlier attempt failed, and one delay precedes each
      re-dispatch. */
  lemma {:induction false} OutcomeIsLastReply(replies: seq<Reply>, retryCount: Option<nat>, policy: CounterPolicy)
    ensures var t := Run(replies, retryCount, policy);
      && |t.delays| <= |replies|
      && (forall i :: 0 <= i < |t.delays| ==> replies[i].Failed?)
      && (t.outcome.Unresolved? <==> |t.delays| == |replies|)
      && (t.outcome.Delivered? ==> replies[|t.delays|] == Answered(t.outcome.response))
      && (t.outcome.Rejected? ==> replies[|t.delays|] == Failed(t.outcome.status))
    decreases |replies|
  {
    if replies != [] && replies[0].Failed? {
      var count := DispatchCount(policy, retryCount);
      var v := Classify(replies[0].status, true, Some(count));
      if v.action.Redispatch? {
        OutcomeIsLastReply(replies[1..], v.retryCount, policy);
        var t := Run(replies, retryCount, policy);
        forall i | 0 <= i < |t.delays| ensures replies[i].Failed? {
          if i > 0 {
            assert replies[i] == replies[1..][i - 1];
          }
        }
      }
    }
  }

  /** `n` copies of `x`. */
  function Repeat<T>(x: T, n: nat): (s: seq<T>)
    ensures |s| == n && forall i :: 0 <= i < n ==> s[i] == x
  {
    if n == 0 then [] else [x] + Repeat(x, n - 1)
  }

  /** As written, the counter the handler sees is always 0: any number of
      consecutive 429 replies is re-dispatched every time, each after 1000 ms,
      and the error never reaches the caller. */
  lemma {:induction false} RateLimitNeverSurfaces(n: nat, retryCount: Option<nat>)
    ensures Run(Repeat(Failed(Some(TooManyRequests)), n), retryCount, ResetOnEveryDispatch).outcome == Unresolved
    ensures Run(Repeat(Failed(Some(TooManyRequests)), n), retryCount, ResetOnEveryDispatch).delays == Repeat(1000, n)
  {
    if n > 0 {
      var replies := Repeat(Failed(Some(TooManyRequests)), n);
      assert replies[1..] == Repeat(Failed(Some(TooManyRequests)), n - 1);
      RateLimitNeverSurfaces(n - 1, Some(1));
    }
  }

  /** As written, the same holds for failures without a response: each is
      re-dispatched after 2000 ms, without end. */
  lemma {:induction false} NetworkFailureNeverSurfaces(n: nat, retryCount: Option<nat>)
    ensures Run(Repeat(Failed(None), n), retryCount, ResetOnEveryDispatch).outcome == Unresolved
    ensures Run(Repeat(Failed(None), n), retryCount, ResetOnEveryDispatch).delays == Repeat(2000, n)
  {
    if n > 0 {
      var replies := Repeat(Failed(None), n);
      assert replies[1..] == Repeat(Failed(None), n - 1);
      NetworkFailureNeverSurfaces(n - 1, Some(1));
    }
  }

  /** The concrete counterexample to the "1 s, 2 s, 4 s, then stop" schedule: as
      written, a fourth consecutive 429 is re-dispatched, and every wait is 1000 ms. */
  lemma FourthRateLimitIsRetried(r: Response)
    ensures var replies := Repeat(Failed(Some(TooManyRequests)), 4) + [Answered(r)];
      Run(replies, None, ResetOnEveryDispatch) == Trace(Delivered(r), [1000, 1000, 1000, 1000], Some(0))
  {
    var e := Failed(Some(TooManyRequests));
    var replies := Repeat(e, 4) + [Answered(r)];
    assert replies == [e, e, e, e, Answered(r)];
    assert replies[4..] == [Answered(r)];
    assert Run(replies[4..], Some(1), ResetOnEveryDispatch) == Trace(Delivered(r), [], Some(0));
    assert replies[3..][1..] == replies[4..];
    assert Run(replies[3..], Some(1), ResetOnEveryDispatch) == Trace(Delivered(r), [1000], Some(0));
    assert replies[2..][1..] == replies[3..];
    assert Run(replies[2..], Some(1), ResetOnEveryDispatch) == Trace(Delivered(r), [1000, 1000], Some(0));
    assert replies[1..][1..] == replies[2..];
    assert Run(replies[1..], Some(1), ResetOnEveryDispatch) == Trace(Delivered(r), [1000, 1000, 1000], Some(0));
  }

  /** As written, the exponential part of the schedule is never reached: every
      delay of a request is 1000 or 2000 ms. */
  lemma {:induction false} AsWrittenDelaysAreFlat(replies: seq<Reply>, retryCount: Option<nat>)
    ensures forall d :: d in Run(replies, retryCount, ResetOnEveryDispatch).delays ==> d == 1000 || d == 2000
    decreases |replies|
  {
    if replies != [] && replies[0].Failed? {
      var v := Classify(replies[0].status, true, Some(0));
      if v.action.Redispatch? {
        AsWrittenDelaysAreFlat(replies[1..], v.retryCount);
      }
    }
  }

  /** Retries still available to a request whose counter is `c`. */
  function Budget(c: nat): nat
  {
    if c >= RateLimitRetries then 0 else RateLimitRetries - c
  }

  /** With the counter kept across dispatches, a request is re-dispatched at most
      three times in all (429s and network failures share the counter), so any
      four replies settle it. */
  lemma {:induction false} CorrectedRetriesBounded(replies: seq<Reply>, c: nat)
    ensures |Run(replies, Some(c), InitialiseOnce).delays| <= Budget(c)
    ensures |replies| > Budget(c) ==> !Run(replies, Some(c), InitialiseOnce).outcome.Unresolved?
    decreases |replies|
  {
    if replies != [] && replies[0].Failed? {
      var v := Classify(replies[0].status, true, Some(c));
      if v.action.Redispatch? {
        RedispatchStepBounds(replies[0].status, true, Some(c));
        CorrectedRetriesBounded(replies[1..], c + 1);
      }
    }
  }

  /** For a fresh request (no counter yet) with the counter kept across
      dispatches: at most three re-dispatches, and four replies always settle it. */
  lemma FreshRequestRetriesBounded(replies: seq<Reply>)
    ensures |Run(replies, None, InitialiseOnce).delays| <= 3
    ensures |replies| > 3 ==> !Run(replies, None, InitialiseOnce).outcome.Unresolved?
  {
    CorrectedRetriesBounded(replies, 0);
  }

  /** With the counter kept across dispatches, consecutive 429s wait 1000, 2000
      and 4000 ms, and the fourth is surfaced to the caller. */
  lemma CorrectedRateLimitSchedule(rest: seq<Reply>)
    ensures var replies := Repeat(Failed(Some(TooManyRequests)), 4) + rest;
      Run(replies, None, InitialiseOnce) == Trace(Rejected(Some(TooManyRequests)), [1000, 2000, 4000], Some(3))
  {
    var e := Failed(Some(TooManyRequests));
    var replies := Repeat(e, 4) + rest;
    assert replies[..4] == [e, e, e, e];
    assert replies[3] == e;
    assert Run(replies[3..], Some(3), InitialiseOnce) == Trace(Rejected(Some(TooManyRequests)), [], Some(3));
    assert replies[2..][1..] == replies[3..] && replies[2] == e;
    RateLimitedIsRetried(2);
    assert Run(replies[2..], Some(2), InitialiseOnce) == Trace(Rejected(Some(TooManyRequests)), [4000], Some(3));
    assert replies[1..][1..] == replies[2..] && replies[1] == e;
    RateLimitedIsRetried(1);
    assert Run(replies[1..], Some(1), InitialiseOnce) == Trace(Rejected(Some(TooManyRequests)), [2000, 4000], Some(3));
  }

  /** With the counter kept across dispatches, failures without a response are
      re-dispatched twice, 2000 ms apart, and the third is surfaced. */
  lemma CorrectedNetworkSchedule(rest: seq<Reply>)
    ensures var replies := Repeat(Failed(None), 3) + rest;
      Run(replies, None, InitialiseOnce) == Trace(Rejected(None), [2000, 2000], Some(2))
  {
    var replies := Repeat(Failed(None), 3) + rest;
    assert replies[..3] == [Failed(None), Failed(None), Failed(None)];
    assert replies[2] == Failed(None);
    assert Run(replies[2..], Some(2), InitialiseOnce) == Trace(Rejected(None), [], Some(2));
    assert replies[1..][1..] == replies[2..] && replies[1] == Failed(None);
    assert Run(replies[1..], Some(1), InitialiseOnce) == Trace(Rejected(None), [2000], Some(2));
  }
}
