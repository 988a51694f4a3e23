/**
 * The retry layer (src/reqwest_ext.rs): which outcomes of a request the
 * middleware retries, and the policy `get_retry_strategy` configures. The
 * retry loop and the backoff delays belong to the retry library and are
 * not modelled; the library's classifier for transport errors is a
 * parameter.
 */
module RetryExt {
  import opened Wrappers
  import opened Json
  import opened Http

  /** `reqwest_retry::Retryable`. */
  datatype Retryable = Transient | Fatal

  /**
   * `Retry::handle` (src/reqwest_ext.rs:47-61): a completed response is
   * retried unless its status is exactly 200; an error is classified by
   * `onFailure`, the library's `default_on_request_failure`.
   */
  function Handle<E>(res: Result<HttpResponse, E>, onFailure: E -> Option<Retryable>): (r: Option<Retryable>)
    ensures res.Ok? ==> (r.None? <==> res.value.status == 200)
    ensures res.Ok? ==> r != Some(Fatal)
  {
    match res
    case Ok(resp) => if resp.status != 200 then Some(Transient) else None
    case Err(e) => onFailure(e)
  }

  /** A `std::time::Duration`: whole seconds and the nanoseconds below one second. */
  datatype Duration = Duration(secs: U64, nanos: nat)
  {
    ghost predicate Valid() { nanos < 1_000_000_000 }
  }

  /** `Duration::from_millis`. */
  function FromMillis(ms: U64): (d: Duration)
    ensures d.Valid()
  {
    Duration(ms / 1000, (ms % 1000) * 1_000_000)
  }

  /** `Duration::from_secs`. */
  function FromSecs(s: U64): (d: Duration)
    ensures d.Valid() && d.nanos == 0
  {
    Duration(s, 0)
  }

  /** `Duration::as_millis`: the whole milliseconds. */
  function AsMillis(d: Duration): nat
  {
    d.secs * 1000 + d.nanos / 1_000_000
  }

  /** A number of milliseconds survives the conversion to a `Duration`. */
  lemma MillisRoundTrip(ms: U64)
    ensures AsMillis(FromMillis(ms)) == ms
  {
    var d := FromMillis(ms);
    assert d.nanos / 1_000_000 == ms % 1000;
  }

  /** `ExponentialBackoff` as far as this crate sets it: the interval bounds and the retry count. */
  datatype BackoffPolicy = BackoffPolicy(minRetryInterval: Duration, maxRetryInterval: Duration, maxRetries: U32)

  /** `RetryTransientMiddleware<ExponentialBackoff, Retry>`: the policy, with `Retry` as the strategy. */
  datatype RetryMiddleware = RetryMiddleware(policy: BackoffPolicy)

  /**
   * `get_retry_strategy` (src/reqwest_ext.rs:19-32). The policy holds the
   * bounds in milliseconds and the retry count unchanged: nothing is
   * clamped, and nothing orders the two bounds.
   */
  function GetRetryStrategy(minRetryInterval: U64, maxRetryInterval: U64, maxRetries: U32): (r: RetryMiddleware)
    ensures AsMillis(r.policy.minRetryInterval) == minRetryInterval
    ensures AsMillis(r.policy.maxRetryInterval) == maxRetryInterval
    ensures r.policy.maxRetries == maxRetries
  {
    MillisRoundTrip(minRetryInterval);
    MillisRoundTrip(maxRetryInterval);
    RetryMiddleware(BackoffPolicy(FromMillis(minRetryInterval), FromMillis(maxRetryInterval), maxRetries))
  }

  // ---------------------------------------------------------------------
  // Properties

  /** Different settings give different policies. */
  lemma StrategyInjective(a: U64, b: U64, n: U32, a': U64, b': U64, n': U32)
    requires GetRetryStrategy(a, b, n) == GetRetryStrategy(a', b', n')
    ensures a == a' && b == b' && n == n'
  {
  }

  /**
   * For a completed response only the status counts: neither the body nor
   * the error classifier changes the verdict.
   */
  lemma OnlyStatusCounts<E>(r: HttpResponse, r': HttpResponse, f: E -> Option<Retryable>, g: E -> Option<Retryable>)
    requires r.status == r'.status
    ensures Handle(Ok(r), f) == Handle(Ok(r'), g)
  {
  }

  /** Every status but 200 is retried as transient, 4xx, 3xx and the other 2xx codes included. */
  lemma AllButOkRetried<E>(r: HttpResponse, f: E -> Option<Retryable>)
    requires r.status != 200
    ensures Handle(Ok(r), f) == Some(Transient)
  {
  }

  /** Errors are left to the library's classifier, which alone can answer `Fatal`. */
  lemma ErrorsToClassifier<E>(e: E, f: E -> Option<Retryable>)
    ensures Handle(Err(e), f) == f(e)
    ensures Handle(Err(e), f) == Some(Fatal) <==> f(e) == Some(Fatal)
  {
  }
}
