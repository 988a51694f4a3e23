/**
 * `CieloApi::new` (src/api/mod.rs:58-86): the API key becomes a sensitive
 * default header, the timeout is ten seconds, and each retry setting that
 * is not given takes its default (src/constants.rs:7-11) before the retry
 * middleware is built.
 */
module Client {
  import opened Wrappers
  import opened Json
  import opened Errors
  import opened RetryExt

  /** `MIN_RETRY_INTERVAL`, in milliseconds. */
  const MIN_RETRY_INTERVAL: U64 := 500
  /** `MAX_RETRY_INTERVAL`, in milliseconds. */
  const MAX_RETRY_INTERVAL: U64 := 1000
  /** `MAX_RETRIES`. */
  const MAX_RETRIES: U32 := 3

  const API_KEY_HEADER: string := "X-API-KEY"
  const TIMEOUT_SECS: U64 := 10

  /**
   * A character `HeaderValue::from_str` accepts: a tab, or anything from
   * the space up except DEL (the bytes of a non-ASCII character are all
   * accepted).
   */
  predicate HeaderChar(c: char)
  {
    c == '\t' || (' ' <= c && c as int != 127)
  }

  predicate ValidHeaderValue(s: string)
  {
    forall i | 0 <= i < |s| :: HeaderChar(s[i])
  }

  /** A header value as the client keeps it once inserted. */
  datatype Header = Header(value: string, sensitive: bool)

  /** `header::HeaderValue`: its text and whether it is marked sensitive. */
  class HeaderValue {
    var text: string
    var sensitive: bool

    /** `HeaderValue::from_str` on a valid value; a new value is not sensitive. */
    constructor FromStr(s: string)
      requires ValidHeaderValue(s)
      ensures text == s && !sensitive
    {
      text := s;
      sensitive := false;
    }

    /** `set_sensitive`: only the flag changes. */
    method SetSensitive(b: bool)
      modifies this
      ensures sensitive == b && text == old(text)
    {
      sensitive := b;
    }

    function Snapshot(): (h: Header)
      reads this
      ensures h.value == text && h.sensitive == sensitive
    {
      Header(text, sensitive)
    }
  }

  /** `header::HeaderMap`: names to values. */
  class HeaderMap {
    var entries: map<string, Header>

    constructor()
      ensures entries == map[]
    {
      entries := map[];
    }

    /** `insert`: the value is moved in under `name`, replacing any earlier one. */
    method Insert(name: string, v: HeaderValue)
      modifies this
      ensures entries == old(entries)[name := old(v.Snapshot())]
    {
      entries := entries[name := v.Snapshot()];
    }
  }

  /** The client as built: its default headers, timeout and retry middleware. */
  datatype CieloApi = CieloApi(defaultHeaders: map<string, Header>, timeout: Duration, retry: RetryMiddleware)

  /** What `new` comes to: a client, an error, or a panic from `unwrap`. */
  datatype NewOutcome = Built(api: CieloApi) | Failed(err: Error) | Panicked

  /** `Option::unwrap_or`. */
  function UnwrapOr<T>(o: Option<T>, default: T): (r: T)
    ensures o.Some? ==> r == o.value
    ensures o.None? ==> r == default
  {
    match o
    case Some(v) => v
    case None => default
  }

  /**
   * The retry middleware `new` installs for the settings given. Each setting
   * falls back to its own default and to nothing else: the policy's bounds
   * and count are the given values where given, and 500 ms, 1000 ms and 3
   * where not.
   */
  function RetryFor(minRetryInterval: Option<U64>, maxRetryInterval: Option<U64>, maxRetries: Option<U32>): (r: RetryMiddleware)
    ensures AsMillis(r.policy.minRetryInterval) == (if minRetryInterval.Some? then minRetryInterval.value else 500)
    ensures AsMillis(r.policy.maxRetryInterval) == (if maxRetryInterval.Some? then maxRetryInterval.value else 1000)
    ensures r.policy.maxRetries == (if maxRetries.Some? then maxRetries.value else 3)
  {
    GetRetryStrategy(
      UnwrapOr(minRetryInterval, MIN_RETRY_INTERVAL),
      UnwrapOr(maxRetryInterval, MAX_RETRY_INTERVAL),
      UnwrapOr(maxRetries, MAX_RETRIES))
  }

  /**
   * `CieloApi::new`. `buildSucceeds` stands for the outcome of
   * `reqwest::Client::builder().build()`, which this model cannot see.
   * An invalid key panics at `unwrap` before anything is built; the only
   * error returned is the build's.
   */
  method New(apiKey: string, minRetryInterval: Option<U64>, maxRetryInterval: Option<U64>,
             maxRetries: Option<U32>, buildSucceeds: bool) returns (o: NewOutcome)
    ensures o.Panicked? <==> !ValidHeaderValue(apiKey)
    ensures o.Failed? <==> ValidHeaderValue(apiKey) && !buildSucceeds
    ensures o.Failed? ==> o.err == Reqwest
    ensures o.Built? ==>
      o.api.defaultHeaders == map[API_KEY_HEADER := Header(apiKey, true)] &&
      o.api.timeout == FromSecs(TIMEOUT_SECS) &&
      o.api.retry == RetryFor(minRetryInterval, maxRetryInterval, maxRetries)
  {
    var headers := new HeaderMap();
    if !ValidHeaderValue(apiKey) {
      return Panicked;
    }
    var authValue := new HeaderValue.FromStr(apiKey);
    authValue.SetSensitive(true);
    headers.Insert(API_KEY_HEADER, authValue);
    if !buildSucceeds {
      return Failed(Reqwest);
    }
    var timeout := FromSecs(TIMEOUT_SECS);
    var retry := GetRetryStrategy(
      UnwrapOr(minRetryInterval, MIN_RETRY_INTERVAL),
      UnwrapOr(maxRetryInterval, MAX_RETRY_INTERVAL),
      UnwrapOr(maxRetries, MAX_RETRIES));
    o := Built(CieloApi(headers.entries, timeout, retry));
  }

  // ---------------------------------------------------------------------
  // Properties of the settings

  /** No setting is checked against another: a minimum above the maximum is kept as given. */
  lemma NoOrderCheck(minRetryInterval: U64, maxRetryInterval: U64)
    requires minRetryInterval > maxRetryInterval
    ensures var p := RetryFor(Some(minRetryInterval), Some(maxRetryInterval), None).policy;
      AsMillis(p.minRetryInterval) > AsMillis(p.maxRetryInterval)
  {
  }

  /** The timeout is ten seconds, whatever the settings. */
  lemma TimeoutIsTenSeconds()
    ensures AsMillis(FromSecs(TIMEOUT_SECS)) == 10_000
  {
  }
}
