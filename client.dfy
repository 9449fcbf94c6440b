/**
 * The Harvest API client: error-message extraction, the retry loop around one
 * logical request, the pagination envelope and the page loop, and the choice
 * of URL and account header.
 *
 * The transport is replaced by inputs: each attempt of a request is an
 * `Attempt` (a response with a status, a network failure or another transport
 * failure), and each page of a paginated listing is the outcome of one
 * logical request.  Sleeps are reported in milliseconds instead of taken.
 */
module Client {
  import opened Wrappers
  import opened Strings
  import opened Json
  import opened Exceptions
  import RateLimit

  const BaseUrl: string := "https://api.harvestapp.com"
  const AccountsUrl: string := "https://id.getharvest.com/api/v2/accounts"
  const AccountHeader: string := "Harvest-Account-Id"
  const DefaultRetryDelayMs: int := 1000
  const DefaultMaxRetries: int := 3
  const MaxPerPage: int := 2000
  const ErrorMessageMaxLength: nat := 200

  /** The `Retry-After` header: missing or empty (both falsy), a number of
      milliseconds, or text `float()` rejects. */
  datatype RetryAfter = NoRetryAfter | RetryAfterMs(ms: int) | RetryAfterInvalid

  /** An HTTP response: status, body text, the body decoded as JSON (None when
      it is not JSON), the reason phrase, and the `Retry-After` header. */
  datatype Response = Response(status: int, text: string, body: Option<Json>, reason: string, retryAfter: RetryAfter)

  /** What one attempt of a request produced. */
  datatype Attempt =
    | Received(response: Response)
      /** `httpx.NetworkError` or `httpx.TimeoutException` */
    | NetworkFailure
      /** any other transport exception, which is not caught */
    | OtherTransportFailure

  /** The exceptions a request or a listing can end with. */
  datatype ClientError =
    | AuthFailed(auth: AuthenticationError)
      /** `httpx.HTTPStatusError` for a response with this status */
    | StatusError(status: int)
    | NetworkError
    | TransportError
      /** `float()` of a malformed `Retry-After` header */
    | InvalidRetryAfter
      /** `httpx.HTTPError("Request failed after retries")`: no attempt was allowed */
    | RetriesExhausted
      /** `response.json()` of a body that is not JSON */
    | InvalidJson
      /** a dict method called on a decoded body that is not an object */
    | NotAnObject
      /** the limiter's `min()` of an empty window, raised before any attempt */
    | EmptyWindow

  // ---------------------------------------------------------------------
  // Error messages

  const TopLevelErrorKeys: seq<string> := ["message", "error", "error_description", "detail"]
  const NestedErrorKeys: seq<string> := ["message", "error", "detail"]

  /** What one value found under an error key contributes: a string itself, the
      first element of a non-empty list as text, or the non-empty result of
      searching a nested object. */
  function ResolveValue(v: Json): Option<string>
    decreases v, 1
  {
    match v
    case JStr(s) => Some(s)
    case JArr(xs) => if xs == [] then None else Some(PyStr(xs[0]))
    case JObj(_) =>
      var nested := FromDict(v, NestedErrorKeys);
      if nested.Some? && nested.value != "" then nested else None
    case _ => None
  }

  function FromDict(j: Json, keys: seq<string>): Option<string>
    requires j.JObj?
    decreases j, 0, |keys|
  {
    if keys == [] then None
    else
      var found := Lookup(j.fields, keys[0]);
      if found.None? then FromDict(j, keys[1..])
      else
        assert (keys[0], found.value) in j.fields;
        var r := ResolveValue(found.value);
        if r.Some? then r else FromDict(j, keys[1..])
  }

  /** A key is present in the object and its value resolves to a message. */
  predicate Resolves(fields: seq<(string, Json)>, key: string)
  {
    var v := Lookup(fields, key); v.Some? && ResolveValue(v.value).Some?
  }

  /** `_extract_error_from_dict` on the fields of an object. */
  function ExtractErrorFromDict(fields: seq<(string, Json)>, keys: seq<string>): Option<string>
  {
    FromDict(JObj(fields), keys)
  }

  /** `keys[i]` resolves and no earlier key does. */
  predicate FirstResolving(fields: seq<(string, Json)>, keys: seq<string>, i: nat)
  {
    && i < |keys| && Resolves(fields, keys[i])
    && forall k :: 0 <= k < i ==> !Resolves(fields, keys[k])
  }

  /** The search finds a message exactly when some key resolves, and then it
      is the message of the first key, in the given order, that resolves. */
  lemma {:induction false} ExtractFindsFirstResolving(fields: seq<(string, Json)>, keys: seq<string>)
    ensures var r := ExtractErrorFromDict(fields, keys);
      && (r.Some? <==> exists i :: 0 <= i < |keys| && Resolves(fields, keys[i]))
      && (r.Some? ==> exists i: nat :: (FirstResolving(fields, keys, i)
            && r == ResolveValue(Lookup(fields, keys[i]).value)))
    decreases |keys|
  {
    if keys != [] {
      ExtractFindsFirstResolving(fields, keys[1..]);
      var r := FromDict(JObj(fields), keys);
      if Resolves(fields, keys[0]) {
        assert FirstResolving(fields, keys, 0);
      } else {
        assert r == FromDict(JObj(fields), keys[1..]);
        if r.Some? {
          var i: nat :| FirstResolving(fields, keys[1..], i)
            && r == ResolveValue(Lookup(fields, keys[1..][i]).value);
          assert FirstResolving(fields, keys, i + 1);
        }
        forall i | 0 <= i < |keys| && Resolves(fields, keys[i]) ensures r.Some? {
          assert keys[1..][i - 1] == keys[i];
        }
      }
    }
  }

  /** A key holding the empty string ends the search with that empty string,
      so a later key is never consulted (and the caller falls back). */
  lemma EmptyStringStopsSearch(fields: seq<(string, Json)>, keys: seq<string>, later: string)
    requires |keys| >= 2 && Lookup(fields, keys[0]) == Some(JStr(""))
    ensures ExtractErrorFromDict(fields, keys) == Some("")
  {
    assert FirstResolving(fields, keys, 0);
  }

  function Min(a: nat, b: nat): nat { if a <= b then a else b }

  /** The message found in a decoded error body, if it is an object with a
      non-empty message under one of the top-level error keys. */
  function BodyMessage(resp: Response): Option<string>
  {
    if resp.body.Some? && resp.body.value.JObj? then
      var m := ExtractErrorFromDict(resp.body.value.fields, TopLevelErrorKeys);
      if m.Some? && m.value != "" then m else None
    else None
  }

  /** `_extract_error_message`: the body's message, else the first 200
      characters of the text, else the reason phrase, else "HTTP <status>". */
  function ExtractErrorMessage(resp: Response): (r: string)
    ensures r != ""
    ensures BodyMessage(resp).Some? ==> r == BodyMessage(resp).value
    ensures BodyMessage(resp).None? && resp.text != "" ==>
      |r| == Min(ErrorMessageMaxLength, |resp.text|) && r == resp.text[..|r|]
    ensures BodyMessage(resp).None? && resp.text == "" && resp.reason != "" ==> r == resp.reason
    ensures BodyMessage(resp).None? && resp.text == "" && resp.reason == "" ==>
      r == "HTTP " + IntToString(resp.status)
  {
    var m := BodyMessage(resp);
    if m.Some? then m.value
    else if resp.text != "" then resp.text[..Min(ErrorMessageMaxLength, |resp.text|)]
    else if resp.reason != "" then resp.reason
    else "HTTP " + IntToString(resp.status)
  }

  /** `_format_page_info`: a log suffix naming the page, and the page size
      when it is not the maximum. */
  function FormatPageInfo(params: Option<seq<(string, Json)>>): (r: string)
    ensures r == "" <==> params.None? || "page" !in Keys(params.value)
    ensures r != "" ==> |r| >= 6 && r[..6] == " page="
  {
    if params.None? || "page" !in Keys(params.value) then ""
    else
      var page := Lookup(params.value, "page").value;
      var perPage := Lookup(params.value, "per_page");
      var size := if perPage.Some? then perPage.value else JNum(MaxPerPage);
      " page=" + PyStr(page) + (if size != JNum(MaxPerPage) then " per_page=" + PyStr(size) else "")
  }

  /** With a page given, the suffix is " page=" and the page's `str()`, then
      " per_page=" and the size's `str()` exactly when a size other than the
      maximum is given. */
  lemma FormatPageInfoShape(params: seq<(string, Json)>)
    requires "page" in Keys(params)
    ensures var r := FormatPageInfo(Some(params));
      var page := PyStr(Lookup(params, "page").value);
      var size := Lookup(params, "per_page");
      && |r| >= 6 + |page| && r[..6] == " page=" && r[6..6 + |page|] == page
      && (r[6 + |page|..] == "" <==> size.None? || size.value == JNum(MaxPerPage))
      && (r[6 + |page|..] != "" ==> r[6 + |page|..] == " per_page=" + PyStr(size.value))
  {
    var r := FormatPageInfo(Some(params));
    var page := PyStr(Lookup(params, "page").value);
    var size := Lookup(params, "per_page");
    var tail := if size.Some? && size.value != JNum(MaxPerPage) then " per_page=" + PyStr(size.value) else "";
    assert r == " page=" + page + tail;
    assert r[6 + |page|..] == tail;
  }

  // ---------------------------------------------------------------------
  // The retry loop of one request

  /** What the loop does after one attempt. */
  datatype Decision =
    | Return(response: Response)
    | Retry(sleepMs: int, nextDelay: int, error: ClientError)
    | Raise(error: ClientError)

  predicate IsSuccess(status: int) { 200 <= status < 300 }

  /** `_handle_http_error` for a response `raise_for_status` rejected. */
  function HandleHttpError(resp: Response, attempt: int, delay: int, maxRetries: int): Decision
  {
    var s := resp.status;
    if s == 429 then
      match resp.retryAfter
      case NoRetryAfter => Retry(delay, delay * 2, StatusError(s))
      case RetryAfterMs(ms) => Retry(ms, delay * 2, StatusError(s))
      case RetryAfterInvalid => Raise(InvalidRetryAfter)
    else if s == 401 || s == 403 then
      Raise(AuthFailed(NewAuthenticationError(s, ExtractErrorMessage(resp), Some(resp.text))))
    else if s >= 500 then
      if attempt < maxRetries then Retry(delay, delay * 2, StatusError(s)) else Raise(StatusError(s))
    else Raise(StatusError(s))
  }

  /** `_handle_network_error`. */
  function HandleNetworkError(attempt: int, delay: int, maxRetries: int): Decision
  {
    if attempt < maxRetries then Retry(delay, delay * 2, NetworkError) else Raise(NetworkError)
  }

  /** One pass of the body of the loop in `_request`. */
  function Decide(a: Attempt, attempt: int, delay: int, maxRetries: int): Decision
  {
    match a
    case Received(resp) =>
      if IsSuccess(resp.status) then Return(resp) else HandleHttpError(resp, attempt, delay, maxRetries)
    case NetworkFailure => HandleNetworkError(attempt, delay, maxRetries)
    case OtherTransportFailure => Raise(TransportError)
  }

  /** The result of one logical request, how many attempts it made, and the
      sleeps between them. */
  datatype Outcome = Outcome(result: Result<Response, ClientError>, made: nat, sleeps: seq<int>)

  /** The loop from attempt `i` on, with the current delay and the last
      exception seen. */
  function Run(attempts: seq<Attempt>, i: nat, delay: int, maxRetries: int, last: Option<ClientError>): Outcome
    requires |attempts| > maxRetries
    decreases maxRetries + 1 - i
  {
    if i > maxRetries then
      Outcome(if last.Some? then Err(last.value) else Err(RetriesExhausted), i, [])
    else
      match Decide(attempts[i], i, delay, maxRetries)
      case Return(resp) => Outcome(Ok(resp), i + 1, [])
      case Raise(e) => Outcome(Err(e), i + 1, [])
      case Retry(ms, next, e) =>
        var rest := Run(attempts, i + 1, next, maxRetries, Some(e));
        Outcome(rest.result, rest.made, [ms] + rest.sleeps)
  }

  /** `_request`'s attempt loop, from the first attempt. */
  function RequestOutcome(attempts: seq<Attempt>, maxRetries: int, retryDelay: int): Outcome
    requires |attempts| > maxRetries
  {
    Run(attempts, 0, retryDelay, maxRetries, None)
  }

  /** The loop of `_request` as written: up to `maxRetries + 1` attempts,
      doubling the delay after each retry. */
  method RequestWithRetries(attempts: seq<Attempt>, maxRetries: int, retryDelay: int)
    returns (result: Result<Response, ClientError>, made: nat, sleeps: seq<int>)
    requires |attempts| > maxRetries
    ensures Outcome(result, made, sleeps) == RequestOutcome(attempts, maxRetries, retryDelay)
  {
    var delay := retryDelay;
    var last: Option<ClientError> := None;
    var attempt: nat := 0;
    sleeps := [];
    while attempt <= maxRetries
      invariant attempt <= maxRetries + 1 || attempt == 0
      invariant var rest := Run(attempts, attempt, delay, maxRetries, last);
        RequestOutcome(attempts, maxRetries, retryDelay) == Outcome(rest.result, rest.made, sleeps + rest.sleeps)
      decreases maxRetries + 1 - attempt
    {
      var d := Decide(attempts[attempt], attempt, delay, maxRetries);
      match d {
        case Return(resp) =>
          return Ok(resp), attempt + 1, sleeps;
        case Raise(e) =>
          return Err(e), attempt + 1, sleeps;
        case Retry(ms, next, e) =>
          sleeps := sleeps + [ms];
          delay := next;
          last := Some(e);
      }
      attempt := attempt + 1;
    }
    result := if last.Some? then Err(last.value) else Err(RetriesExhausted);
    made := attempt;
  }

  function Pow2(n: nat): (r: nat)
    ensures r >= 1
  {
    if n == 0 then 1 else 2 * Pow2(n - 1)
  }

  /** Whether the loop retries after this attempt (at index `attempt`). */
  predicate Retried(a: Attempt, attempt: int, maxRetries: int)
  {
    match a
    case Received(resp) =>
      || (resp.status == 429 && !resp.retryAfter.RetryAfterInvalid?)
      || (resp.status >= 500 && attempt < maxRetries)
    case NetworkFailure => attempt < maxRetries
    case OtherTransportFailure => false
  }

  /** How long the loop sleeps after a retried attempt, given the current delay. */
  function SleepFor(a: Attempt, delay: int): int
  {
    if a.Received? && a.response.status == 429 && a.response.retryAfter.RetryAfterMs? then
      a.response.retryAfter.ms
    else delay
  }

  /** The loop retries after an attempt exactly when `Retried` says so, sleeping
      `SleepFor` and doubling the delay. */
  lemma DecideRetries(a: Attempt, attempt: int, delay: int, maxRetries: int)
    ensures var d := Decide(a, attempt, delay, maxRetries);
      && (d.Retry? <==> Retried(a, attempt, maxRetries))
      && (d.Retry? ==> d.sleepMs == SleepFor(a, delay) && d.nextDelay == delay * 2)
  {
  }

  lemma DoubledDelay(delay: int, j: nat)
    requires j > 0
    ensures (delay * 2) * Pow2(j - 1) == delay * Pow2(j)
  {
  }

  lemma {:induction false} RunShape(attempts: seq<Attempt>, i: nat, delay: int, maxRetries: int, last: Option<ClientError>)
    requires |attempts| > maxRetries
    ensures var o := Run(attempts, i, delay, maxRetries, last);
      && i <= o.made
      && (i <= maxRetries ==> o.made <= maxRetries + 1)
      && (i > maxRetries ==> o.made == i)
      && i + |o.sleeps| <= o.made
      && (forall k :: i <= k < i + |o.sleeps| ==>
            Retried(attempts[k], k, maxRetries) && o.sleeps[k - i] == SleepFor(attempts[k], delay * Pow2(k - i)))
      && (i + |o.sleeps| < o.made ==> !Retried(attempts[o.made - 1], o.made - 1, maxRetries))
    decreases maxRetries + 1 - i
  {
    if i <= maxRetries {
      var d := Decide(attempts[i], i, delay, maxRetries);
      DecideRetries(attempts[i], i, delay, maxRetries);
      if d.Retry? {
        var o := Run(attempts, i, delay, maxRetries, last);
        var rest := Run(attempts, i + 1, d.nextDelay, maxRetries, Some(d.error));
        assert o == Outcome(rest.result, rest.made, [d.sleepMs] + rest.sleeps);
        RunShape(attempts, i + 1, d.nextDelay, maxRetries, Some(d.error));
        forall k | i <= k < i + |o.sleeps|
          ensures Retried(attempts[k], k, maxRetries) && o.sleeps[k - i] == SleepFor(attempts[k], delay * Pow2(k - i))
        {
          if k > i {
            assert o.sleeps[k - i] == rest.sleeps[k - (i + 1)];
            DoubledDelay(delay, k - i);
          } else {
            assert o.sleeps[0] == d.sleepMs && Pow2(0) == 1;
          }
        }
      }
    }
  }

  /**
   * Every request makes at most `maxRetries + 1` attempts; it sleeps only after
   * retried attempts (429 with a usable header, or 5xx and network failures
   * while attempts remain), the j-th sleep being that attempt's Retry-After or
   * `retryDelay * 2^j`; and the last attempt, unless it too was retried, is one
   * the loop does not retry.
   */
  lemma RequestShape(attempts: seq<Attempt>, maxRetries: int, retryDelay: int)
    requires |attempts| > maxRetries
    ensures var o := RequestOutcome(attempts, maxRetries, retryDelay);
      && (maxRetries >= 0 ==> 1 <= o.made <= maxRetries + 1)
      && (maxRetries < 0 ==> o.made == 0 && o.result == Err(RetriesExhausted))
      && |o.sleeps| <= o.made
      && (forall j :: 0 <= j < |o.sleeps| ==>
            Retried(attempts[j], j, maxRetries) && o.sleeps[j] == SleepFor(attempts[j], retryDelay * Pow2(j)))
      && (|o.sleeps| < o.made ==> !Retried(attempts[o.made - 1], o.made - 1, maxRetries))
  {
    RunShape(attempts, 0, retryDelay, maxRetries, None);
    var o := RequestOutcome(attempts, maxRetries, retryDelay);
    forall j | 0 <= j < |o.sleeps|
      ensures Retried(attempts[j], j, maxRetries) && o.sleeps[j] == SleepFor(attempts[j], retryDelay * Pow2(j))
    {
      assert o.sleeps[j - 0] == o.sleeps[j];
    }
  }

  /** A 2xx response on the first attempt is returned after one attempt. */
  lemma FirstSuccessReturned(attempts: seq<Attempt>, maxRetries: int, retryDelay: int)
    requires |attempts| > maxRetries >= 0
    requires attempts[0].Received? && IsSuccess(attempts[0].response.status)
    ensures RequestOutcome(attempts, maxRetries, retryDelay) == Outcome(Ok(attempts[0].response), 1, [])
  {
  }

  /** 401 and 403 raise the authentication error after exactly one attempt,
      carrying the status, the extracted message and the raw body text. */
  lemma AuthFailsAtOnce(attempts: seq<Attempt>, maxRetries: int, retryDelay: int)
    requires |attempts| > maxRetries >= 0
    requires attempts[0].Received? && attempts[0].response.status in {401, 403}
    ensures var o := RequestOutcome(attempts, maxRetries, retryDelay);
      var resp := attempts[0].response;
      && o.made == 1 && o.sleeps == []
      && o.result.Err? && o.result.error.AuthFailed?
      && o.result.error.auth.statusCode == resp.status
      && o.result.error.auth.responseBody == Some(resp.text)
      && Contains(o.result.error.auth.text, ExtractErrorMessage(resp))
  {
    var resp := attempts[0].response;
    TextContainsMessage(resp.status, ExtractErrorMessage(resp), Some(resp.text));
  }

  /** Any other non-2xx status below 500 (a 3xx or a 4xx other than 401, 403
      and 429) is raised at once. */
  lemma OtherStatusRaisedAtOnce(attempts: seq<Attempt>, maxRetries: int, retryDelay: int)
    requires |attempts| > maxRetries >= 0
    requires attempts[0].Received?
    requires var s := attempts[0].response.status; !IsSuccess(s) && s < 500 && s !in {401, 403, 429}
    ensures RequestOutcome(attempts, maxRetries, retryDelay)
      == Outcome(Err(StatusError(attempts[0].response.status)), 1, [])
  {
  }

  /** Server errors on every attempt exhaust the budget: `maxRetries + 1`
      attempts, a doubling sleep between each, and the last error raised. */
  lemma ServerErrorsExhaust(attempts: seq<Attempt>, maxRetries: int, retryDelay: int)
    requires |attempts| > maxRetries >= 0
    requires forall k :: 0 <= k <= maxRetries ==> attempts[k].Received? && attempts[k].response.status >= 500
    ensures var o := RequestOutcome(attempts, maxRetries, retryDelay);
      && o.made == maxRetries + 1
      && o.result == Err(StatusError(attempts[maxRetries].response.status))
      && |o.sleeps| == maxRetries
      && forall j :: 0 <= j < maxRetries ==> o.sleeps[j] == retryDelay * Pow2(j)
  {
    var o := RequestOutcome(attempts, maxRetries, retryDelay);
    RequestShape(attempts, maxRetries, retryDelay);
    ServerErrorsFrom(attempts, 0, retryDelay, maxRetries, None);
  }

  lemma {:induction false} ServerErrorsFrom(attempts: seq<Attempt>, i: nat, delay: int, maxRetries: int, last: Option<ClientError>)
    requires |attempts| > maxRetries >= 0 && i <= maxRetries
    requires forall k :: i <= k <= maxRetries ==> attempts[k].Received? && attempts[k].response.status >= 500
    ensures var o := Run(attempts, i, delay, maxRetries, last);
      && o.made == maxRetries + 1 && |o.sleeps| == maxRetries - i
      && o.result == Err(StatusError(attempts[maxRetries].response.status))
    decreases maxRetries - i
  {
    if i < maxRetries {
      ServerErrorsFrom(attempts, i + 1, delay * 2, maxRetries, Some(StatusError(attempts[i].response.status)));
    }
  }

  /** A 429 never raises by itself: rate-limited attempts without a header
      followed by a success return that success, having slept the doubling
      delays once per rate-limited attempt. */
  lemma RateLimitedThenSuccess(attempts: seq<Attempt>, maxRetries: int, retryDelay: int, k: nat)
    requires |attempts| > maxRetries >= k
    requires forall j :: 0 <= j < k ==> (attempts[j].Received? && attempts[j].response.status == 429
      && attempts[j].response.retryAfter.NoRetryAfter?)
    requires attempts[k].Received? && IsSuccess(attempts[k].response.status)
    ensures var o := RequestOutcome(attempts, maxRetries, retryDelay);
      && o.result == Ok(attempts[k].response) && o.made == k + 1
      && |o.sleeps| == k
      && forall j :: 0 <= j < k ==> o.sleeps[j] == retryDelay * Pow2(j)
  {
    RequestShape(attempts, maxRetries, retryDelay);
    RateLimitedFrom(attempts, 0, retryDelay, maxRetries, None, k);
  }

  lemma {:induction false} RateLimitedFrom(attempts: seq<Attempt>, i: nat, delay: int, maxRetries: int, last: Option<ClientError>, k: nat)
    requires |attempts| > maxRetries >= k >= i
    requires forall j :: i <= j < k ==> (attempts[j].Received? && attempts[j].response.status == 429
      && attempts[j].response.retryAfter.NoRetryAfter?)
    requires attempts[k].Received? && IsSuccess(attempts[k].response.status)
    ensures var o := Run(attempts, i, delay, maxRetries, last);
      o.result == Ok(attempts[k].response) && o.made == k + 1 && |o.sleeps| == k - i
    decreases k - i
  {
    if i < k {
      RateLimitedFrom(attempts, i + 1, delay * 2, maxRetries, Some(StatusError(429)), k);
    }
  }

  /** Rate limiting on the final attempt too: the loop runs out and raises the
      429 it saw last. */
  lemma RateLimitedThroughout(attempts: seq<Attempt>, maxRetries: int, retryDelay: int)
    requires |attempts| > maxRetries >= 0
    requires forall j :: 0 <= j <= maxRetries ==> (attempts[j].Received? && attempts[j].response.status == 429
      && !attempts[j].response.retryAfter.RetryAfterInvalid?)
    ensures var o := RequestOutcome(attempts, maxRetries, retryDelay);
      o.result == Err(StatusError(429)) && o.made == maxRetries + 1 && |o.sleeps| == maxRetries + 1
  {
    RateLimitedAll(attempts, 0, retryDelay, maxRetries, None);
  }

  lemma {:induction false} RateLimitedAll(attempts: seq<Attempt>, i: nat, delay: int, maxRetries: int, last: Option<ClientError>)
    requires |attempts| > maxRetries >= 0 && i <= maxRetries + 1
    requires forall j :: i <= j <= maxRetries ==> (attempts[j].Received? && attempts[j].response.status == 429
      && !attempts[j].response.retryAfter.RetryAfterInvalid?)
    requires i > 0 ==> last == Some(StatusError(429))
    ensures var o := Run(attempts, i, delay, maxRetries, last);
      (i <= maxRetries || last.Some?) ==> (o.result == Err(StatusError(429)) && o.made == maxRetries + 1
        && |o.sleeps| == maxRetries + 1 - i)
    decreases maxRetries + 1 - i
  {
    if i <= maxRetries {
      RateLimitedAll(attempts, i + 1, delay * 2, maxRetries, Some(StatusError(429)));
    }
  }

  // ---------------------------------------------------------------------
  // URL and headers

  /** `get`: the accounts service when no account is given, the API otherwise. */
  function RequestUrl(endpoint: string, accountId: Option<int>): (url: string)
    ensures accountId.None? ==> url == AccountsUrl
    ensures accountId.Some? ==> (|url| == |BaseUrl| + |endpoint|
      && url[..|BaseUrl|] == BaseUrl && url[|BaseUrl|..] == endpoint)
  {
    if accountId.None? then AccountsUrl else BaseUrl + endpoint
  }

  /** The headers `_request` adds: the account header exactly when an account is given. */
  function AccountHeaders(accountId: Option<int>): (hs: seq<(string, string)>)
    ensures (exists h :: h in hs && h.0 == AccountHeader) <==> accountId.Some?
    ensures accountId.Some? ==> hs == [(AccountHeader, IntToString(accountId.value))]
  {
    if accountId.None? then [] else [(AccountHeader, IntToString(accountId.value))]
  }

  /** Calls scoped to an account go to the API base, never to the accounts
      service, and the URL depends on the endpoint alone (the account travels
      in the header). */
  lemma AccountScopedUrl(endpoint: string, id: int, other: int)
    ensures RequestUrl(endpoint, Some(id)) != AccountsUrl
    ensures RequestUrl(endpoint, Some(id)) == RequestUrl(endpoint, Some(other))
  {
    var url := RequestUrl(endpoint, Some(id));
    assert url[8] == BaseUrl[8] == 'a';
    assert AccountsUrl[8] == 'i';
  }

  /** Distinct endpoints of an account give distinct URLs. */
  lemma RequestUrlInjective(e1: string, e2: string, id1: int, id2: int)
    requires RequestUrl(e1, Some(id1)) == RequestUrl(e2, Some(id2))
    ensures e1 == e2
  {
    assert e1 == RequestUrl(e1, Some(id1))[|BaseUrl|..];
    assert e2 == RequestUrl(e2, Some(id2))[|BaseUrl|..];
  }

  /** `response.json()` of a returned response. */
  function DecodeBody(r: Result<Response, ClientError>): (j: Result<Json, ClientError>)
    ensures r.Err? ==> j == Err(r.error)
    ensures r.Ok? ==> (j.Ok? <==> r.value.body.Some?)
    ensures r.Ok? && j.Ok? ==> j.value == r.value.body.value
  {
    if r.Err? then Err(r.error)
    else if r.value.body.None? then Err(InvalidJson)
    else Ok(r.value.body.value)
  }

  // ---------------------------------------------------------------------
  // Pagination

  const MetadataFields: set<string> := {"page", "per_page", "total_pages", "total_entries", "links", "next_page"}

  /** What `_extract_items_from_response` found. */
  datatype Items = ItemList(items: seq<Json>) | SingleItem(item: Json)

  /** A field that holds the page's items: not metadata, and a list. */
  predicate IsItemField(f: (string, Json))
  {
    f.0 !in MetadataFields && f.1.JArr?
  }

  /** The index of the first item field, or `|fields|` when there is none. */
  function FirstItemIndex(fields: seq<(string, Json)>): (i: nat)
    ensures i <= |fields|
    ensures forall k :: 0 <= k < i ==> !IsItemField(fields[k])
    ensures i < |fields| ==> IsItemField(fields[i])
  {
    if fields == [] || IsItemField(fields[0]) then 0 else 1 + FirstItemIndex(fields[1..])
  }

  function FirstItemField(fields: seq<(string, Json)>): (r: Option<seq<Json>>)
    ensures r.None? <==> forall i :: 0 <= i < |fields| ==> !IsItemField(fields[i])
    ensures r.Some? ==> exists i :: (0 <= i < |fields| && IsItemField(fields[i]) && fields[i].1.items == r.value
      && forall k :: 0 <= k < i ==> !IsItemField(fields[k]))
  {
    var i := FirstItemIndex(fields);
    if i < |fields| then Some(fields[i].1.items) else None
  }

  /** `_extract_items_from_response`: a bare list as it is, else the first item
      field of an object, else the object as one item.  Any other value has no
      `.items()` and fails. */
  function ExtractItems(data: Json): Result<Items, ClientError>
  {
    match data
    case JArr(items) => Ok(ItemList(items))
    case JObj(fields) =>
      var f := FirstItemField(fields);
      if f.Some? then Ok(ItemList(f.value)) else Ok(SingleItem(data))
    case _ => Err(NotAnObject)
  }

  /** The three envelope shapes, and failure for anything but a list or an object. */
  lemma ExtractItemsShapes(data: Json)
    ensures data.JArr? ==> ExtractItems(data) == Ok(ItemList(data.items))
    ensures data.JObj? && FirstItemField(data.fields).Some? ==>
      ExtractItems(data) == Ok(ItemList(FirstItemField(data.fields).value))
    ensures data.JObj? && FirstItemField(data.fields).None? ==> ExtractItems(data) == Ok(SingleItem(data))
    ensures ExtractItems(data).Err? <==> !data.JArr? && !data.JObj?
  {
  }

  /** `_has_next_page`.  A value that is not an object has no `.get` and fails. */
  function HasNextPage(data: Json): Result<bool, ClientError>
  {
    if !data.JObj? then Err(NotAnObject)
    else
      var links := Get(data, "links");
      Ok(HasNonNull(data, "next_page") || (links.Some? && links.value.JObj? && HasNonNull(links.value, "next")))
  }

  /** A next page exists exactly when `next_page` is not null, or `links` is an
      object whose `next` is not null (a missing `links` reads as `{}`). */
  lemma HasNextPageIff(data: Json)
    ensures HasNextPage(data).Err? <==> !data.JObj?
    ensures HasNextPage(data).Ok? ==> (HasNextPage(data).value <==> (HasNonNull(data, "next_page")
      || exists links :: Get(data, "links") == Some(JObj(links)) && HasNonNull(JObj(links), "next")))
  {
  }

  /** What one page contributes: the items yielded from it, whether another
      page is requested, and the error the listing stops with. */
  datatype Page = Page(items: seq<Json>, more: bool, error: Option<ClientError>)

  function ReadPage(r: Result<Response, ClientError>): (p: Page)
    ensures p.error.Some? ==> !p.more
  {
    match DecodeBody(r)
    case Err(e) => Page([], false, Some(e))
    case Ok(data) =>
      match ExtractItems(data)
      case Err(e) => Page([], false, Some(e))
      case Ok(found) =>
        var yielded := if found.ItemList? then found.items else [found.item];
        match HasNextPage(data)
        case Err(e) => Page(yielded, false, Some(e))
        case Ok(more) => Page(yielded, more, None)
  }

  /** The per-page shapes: a bare list yields its items and then fails when the
      next-page test calls `.get` on it; an object without an item field
      yields itself as a single item. */
  lemma PageShapes(r: Result<Response, ClientError>)
    requires r.Ok? && r.value.body.Some?
    ensures var data := r.value.body.value;
      && (data.JArr? ==> ReadPage(r) == Page(data.items, false, Some(NotAnObject)))
      && (data.JObj? && FirstItemField(data.fields).None? ==> ReadPage(r).items == [data])
      && (data.JObj? && FirstItemField(data.fields).Some? ==> ReadPage(r).items == FirstItemField(data.fields).value)
      && (!data.JArr? && !data.JObj? ==> ReadPage(r) == Page([], false, Some(NotAnObject)))
  {
  }

  /** Each outcome read as a page. */
  function ReadPages(pages: seq<Result<Response, ClientError>>): (ps: seq<Page>)
    ensures |ps| == |pages|
    ensures forall k :: 0 <= k < |pages| ==> ps[k] == ReadPage(pages[k])
  {
    if pages == [] then [] else [ReadPage(pages[0])] + ReadPages(pages[1..])
  }

  /** Some page at index `from` or later ends the listing. */
  predicate Ends(ps: seq<Page>, from: nat)
  {
    exists n :: from <= n < |ps| && !ps[n].more
  }

  /** A drained listing: every item yielded, the error it ended with if any,
      and how many pages were requested. */
  datatype Drained = Drained(items: seq<Json>, error: Option<ClientError>, requested: nat)

  /** The page loop of `get_paginated` from page `i + 1` on. */
  function Drain(ps: seq<Page>, i: nat): (d: Drained)
    requires Ends(ps, i)
    ensures i < d.requested <= |ps|
    decreases |ps| - i
  {
    if !ps[i].more then Drained(ps[i].items, ps[i].error, i + 1)
    else
      var rest := Drain(ps, i + 1);
      Drained(ps[i].items + rest.items, rest.error, rest.requested)
  }

  /** The items of the first `n` pages, concatenated in order. */
  function Concat(ps: seq<Page>, n: nat): seq<Json>
    requires n <= |ps|
  {
    if n == 0 then [] else Concat(ps, n - 1) + ps[n - 1].items
  }

  /** The listing stops at the first page that does not ask for more. */
  lemma {:induction false} DrainStopsAtFirstLast(ps: seq<Page>, i: nat)
    requires Ends(ps, i)
    ensures var d := Drain(ps, i);
      && !ps[d.requested - 1].more
      && (forall k :: i <= k < d.requested - 1 ==> ps[k].more)
      && d.error == ps[d.requested - 1].error
    decreases |ps| - i
  {
    if ps[i].more {
      var n :| i <= n < |ps| && !ps[n].more;
      assert Ends(ps, i + 1);
      DrainStopsAtFirstLast(ps, i + 1);
    }
  }

  /**
   * The listing requests pages up to the first page that ends it and yields
   * the in-order concatenation of their items.
   */
  lemma {:induction false} DrainIsConcatenation(ps: seq<Page>, i: nat)
    requires Ends(ps, i)
    ensures Concat(ps, i) + Drain(ps, i).items == Concat(ps, Drain(ps, i).requested)
    decreases |ps| - i
  {
    if ps[i].more {
      var n :| i <= n < |ps| && !ps[n].more;
      assert Ends(ps, i + 1);
      DrainIsConcatenation(ps, i + 1);
      var rest := Drain(ps, i + 1);
      assert Concat(ps, i + 1) == Concat(ps, i) + ps[i].items;
      assert Concat(ps, i) + (ps[i].items + rest.items) == (Concat(ps, i) + ps[i].items) + rest.items;
    }
  }

  /** The whole listing from page 1: the concatenation of the pages it asked for. */
  lemma DrainFromFirstPage(ps: seq<Page>)
    requires Ends(ps, 0)
    ensures var d := Drain(ps, 0);
      && d.items == Concat(ps, d.requested)
      && !ps[d.requested - 1].more
      && (forall k :: 0 <= k < d.requested - 1 ==> ps[k].more)
      && d.error == ps[d.requested - 1].error
  {
    DrainStopsAtFirstLast(ps, 0);
    DrainIsConcatenation(ps, 0);
    assert Concat(ps, 0) == [];
  }

  /** One more page: the rest of the listing after a page that asks for more. */
  lemma DrainStep(ps: seq<Page>, i: nat, before: seq<Json>)
    requires Ends(ps, i) && ps[i].more
    ensures Ends(ps, i + 1)
    ensures var rest := Drain(ps, i + 1);
      Drain(ps, i) == Drained(ps[i].items + rest.items, rest.error, rest.requested)
      && before + Drain(ps, i).items == (before + ps[i].items) + rest.items
  {
    var n :| i <= n < |ps| && !ps[n].more;
    assert Ends(ps, i + 1);
  }

  /** The listing resumed at page `i + 1`, after `before` was already yielded. */
  function Resume(ps: seq<Page>, i: nat, before: seq<Json>): Drained
    requires Ends(ps, i)
  {
    var rest := Drain(ps, i);
    Drained(before + rest.items, rest.error, rest.requested)
  }

  /** A page that does not ask for more ends the listing there. */
  lemma DrainLast(ps: seq<Page>, i: nat, before: seq<Json>)
    requires i < |ps| && !ps[i].more
    ensures Ends(ps, i)
    ensures Resume(ps, i, before) == Drained(before + ps[i].items, ps[i].error, i + 1)
  {
    assert Ends(ps, i);
  }

  /** A page that asks for more hands over to the next one. */
  lemma DrainNext(ps: seq<Page>, i: nat, before: seq<Json>)
    requires Ends(ps, i) && ps[i].more
    ensures i + 1 < |ps| && Ends(ps, i + 1)
    ensures Resume(ps, i, before) == Resume(ps, i + 1, before + ps[i].items)
  {
    DrainStep(ps, i, before);
  }

  /** The page numbers 1, 2, ..., n. */
  function PageNumbers(n: nat): (r: seq<nat>)
    ensures |r| == n
    ensures forall k :: 0 <= k < n ==> r[k] == k + 1
  {
    seq(n, k requires 0 <= k => k + 1)
  }

  lemma PageNumbersNext(n: nat)
    ensures PageNumbers(n) + [n + 1] == PageNumbers(n + 1)
  {
  }

  /** One page request: the items the page yields, whether it asks for more,
      and the error that stops the listing there. */
  method FetchPage(r: Result<Response, ClientError>) returns (p: Page)
    ensures p == ReadPage(r)
  {
    p := ReadPage(r);
  }

  /** `get_paginated` as written: a page counter from 1, with the page
      outcomes standing for the requests. */
  method GetPaginated(pages: seq<Result<Response, ClientError>>)
    returns (items: seq<Json>, error: Option<ClientError>, requested: seq<nat>)
    requires Ends(ReadPages(pages), 0)
    ensures Drained(items, error, |requested|) == Drain(ReadPages(pages), 0)
    ensures requested == PageNumbers(|requested|)
  {
    ghost var ps := ReadPages(pages);
    var page: nat := 1;
    items := [];
    requested := [];
    assert Resume(ps, 0, []) == Drain(ps, 0);
    while true
      invariant 1 <= page <= |pages| && Ends(ps, page - 1)
      invariant requested == PageNumbers(page - 1)
      invariant Drain(ps, 0) == Resume(ps, page - 1, items)
      decreases |pages| - page
    {
      PageNumbersNext(page - 1);
      requested := requested + [page];
      var p := FetchPage(pages[page - 1]);
      assert p == ps[page - 1];
      if p.error.Some? || !p.more {
        DrainLast(ps, page - 1, items);
        items := items + p.items;
        error := p.error;
        return;
      }
      DrainNext(ps, page - 1, items);
      items := items + p.items;
      page := page + 1;
    }
  }

  // ---------------------------------------------------------------------
  // The client object

  /** What `_request` hands to the transport: the URL and the headers it adds. */
  datatype Sent = Sent(url: string, headers: seq<(string, string)>)

  /** The API client: its retry settings and its rate limiter. */
  class HarvestClient {
    const maxRetries: int
    const retryDelay: int
    const limiter: RateLimit.RateLimiter

    constructor(maxRetries: int := DefaultMaxRetries, retryDelay: int := DefaultRetryDelayMs)
      ensures this.maxRetries == maxRetries && this.retryDelay == retryDelay
      ensures fresh(limiter) && limiter.requestTimes == []
      ensures limiter.maxRequests == RateLimit.DefaultMaxRequests && limiter.timeWindow == RateLimit.DefaultWindowMs
    {
      this.maxRetries := maxRetries;
      this.retryDelay := retryDelay;
      limiter := new RateLimit.RateLimiter();
    }

    /**
     * `_request`: one pass through the rate limiter, then the attempt loop.
     * The limiter is consulted once per logical request, not per attempt; when
     * it fails, nothing is sent and no attempt is made.
     */
    method Request(url: string, accountId: Option<int>, attempts: seq<Attempt>, now: int, afterWait: int, stamp: int)
      returns (o: Outcome, throttle: RateLimit.Throttle, sent: Option<Sent>)
      requires |attempts| > maxRetries
      modifies limiter
      ensures (throttle, limiter.requestTimes) == RateLimit.Step(old(limiter.requestTimes),
        limiter.maxRequests, limiter.timeWindow, now, afterWait, stamp)
      ensures throttle.EmptyWindowError? ==> o == Outcome(Err(EmptyWindow), 0, []) && sent.None?
      ensures !throttle.EmptyWindowError? ==>
        (o == RequestOutcome(attempts, maxRetries, retryDelay) && sent == Some(Sent(url, AccountHeaders(accountId))))
    {
      throttle := limiter.WaitIfNeeded(now, afterWait, stamp);
      if throttle.EmptyWindowError? {
        return Outcome(Err(EmptyWindow), 0, []), throttle, None;
      }
      sent := Some(Sent(url, AccountHeaders(accountId)));
      var result, made, sleeps := RequestWithRetries(attempts, maxRetries, retryDelay);
      o := Outcome(result, made, sleeps);
    }

    /** `get`: one request to the URL `RequestUrl` chooses, its body decoded. */
    method Get(endpoint: string, accountId: Option<int>, attempts: seq<Attempt>, now: int, afterWait: int, stamp: int)
      returns (data: Result<Json, ClientError>, o: Outcome, throttle: RateLimit.Throttle, sent: Option<Sent>)
      requires |attempts| > maxRetries
      modifies limiter
      ensures (throttle, limiter.requestTimes) == RateLimit.Step(old(limiter.requestTimes),
        limiter.maxRequests, limiter.timeWindow, now, afterWait, stamp)
      ensures throttle.EmptyWindowError? ==> o == Outcome(Err(EmptyWindow), 0, []) && sent.None?
      ensures !throttle.EmptyWindowError? ==> (o == RequestOutcome(attempts, maxRetries, retryDelay)
        && sent == Some(Sent(RequestUrl(endpoint, accountId), AccountHeaders(accountId))))
      ensures data == DecodeBody(o.result)
    {
      o, throttle, sent := Request(RequestUrl(endpoint, accountId), accountId, attempts, now, afterWait, stamp);
      data := DecodeBody(o.result);
    }
  }
}
