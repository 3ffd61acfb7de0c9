/**
 * The HTTP client: one authenticated GET with a query string, retried on
 * rate limiting (429), on network failure and on a body that does not parse,
 * at most `MaxRetries` times, with the upstream envelope normalised on
 * success. The network and the timer are replaced by a script: `outcomes[i]`
 * is what the `i`-th call of `fetch` produces, and each sleep is recorded as
 * a delay in milliseconds instead of being waited for.
 */
module HttpClient {
  import opened Common
  import opened Errors
  import opened JsonModel
  import opened KeyResolver

  const BaseUrl := "https://api.usepylon.com"
  const MaxRetries: nat := 3
  const UserAgent := "pylon-cli/0.1.0"

  const RateLimitedMessage := "Rate limited. Please try again later."
  const InvalidKeyMessage := "Invalid API key. Check your PYLON_API_KEY or --api-key value."

  function NotFoundMessage(path: string): string {
    "Not found: " + path
  }

  function StatusMessage(status: int, text: string, statusText: string): string {
    "API error (" + DecimalString(status) + "): " + (if text != "" then text else statusText)
  }

  function ExhaustedMessage(lastError: string): string {
    "Request failed after " + DecimalString(MaxRetries + 1) + " attempts: " + lastError
  }

  // ---------------------------------------------------------------------
  // Query parameters

  /** A parameter value: a string, a number, or undefined. */
  datatype ParamValue = Str(s: string) | Num(n: int) | Undefined

  /** Only values other than undefined and the empty string are sent. */
  predicate Sent(v: ParamValue) {
    !v.Undefined? && v != Str("")
  }

  /** `String(value)`. */
  function ParamText(v: ParamValue): string
    requires !v.Undefined?
  {
    match v
    case Str(s) => s
    case Num(n) => DecimalString(n)
  }

  /** The query value a parameter entry produces, if any. */
  function SentValue(v: Option<ParamValue>): Option<string> {
    if v.Some? && Sent(v.value) then Some(ParamText(v.value)) else None
  }

  /** The names among the first `n` parameters whose values are sent, in order. */
  function SentKeys(params: Record<ParamValue>, n: nat): seq<string>
    requires n <= |params.keys|
  {
    if n == 0 then []
    else
      var k := params.keys[n - 1];
      SentKeys(params, n - 1) + (if Sent(Lookup(params, k).value) then [k] else [])
  }

  /**
   * The search parameters of the request URL: every parameter whose value is
   * neither undefined nor the empty string, as `String(value)`, in the order
   * of the parameter object; the others are left out. A number is always
   * sent, 0 included.
   */
  method BuildQuery(params: Record<ParamValue>) returns (query: Record<string>)
    ensures forall k :: Lookup(query, k) == SentValue(Lookup(params, k))
    ensures Keys(query) == SentKeys(params, |Keys(params)|)
  {
    query := Empty();
    for i := 0 to |params.keys|
      invariant QueryUpTo(params, query, i)
    {
      var key := params.keys[i];
      var value := Lookup(params, key).value;
      QueryStep(params, query, i);
      if value != Undefined && value != Str("") {
        query := Assign(query, key, ParamText(value));
      }
    }
    assert params.keys[..|params.keys|] == params.keys;
  }

  /** The query once the first `i` parameters have been looked at. */
  ghost predicate QueryUpTo(params: Record<ParamValue>, query: Record<string>, i: nat)
    requires i <= |params.keys|
  {
    && (forall k :: Lookup(query, k) == if k in params.keys[..i] then SentValue(Lookup(params, k)) else None)
    && Keys(query) == SentKeys(params, i)
  }

  /** Looking at parameter `i` extends the query by that parameter alone. */
  lemma QueryStep(params: Record<ParamValue>, query: Record<string>, i: nat)
    requires i < |params.keys| && QueryUpTo(params, query, i)
    ensures var value := Lookup(params, params.keys[i]).value;
            QueryUpTo(params, if Sent(value) then Assign(query, params.keys[i], ParamText(value)) else query, i + 1)
  {
    var key := params.keys[i];
    var value := Lookup(params, key).value;
    var text := if Sent(value) then Some(ParamText(value)) else None;
    DistinctAt(params.keys, i);
    QueryLookupStep(params, query, i, text);
    assert Lookup(query, key) == None;
    QueryKeysStep(params, query, i, text);
  }

  /** The key order of the query after parameter `i`, given that `key` was not yet in it. */
  lemma QueryKeysStep(params: Record<ParamValue>, query: Record<string>, i: nat, text: Option<string>)
    requires i < |params.keys| && Keys(query) == SentKeys(params, i) && Lookup(query, params.keys[i]) == None
    requires text.Some? <==> Sent(Lookup(params, params.keys[i]).value)
    ensures Keys(if text.Some? then Assign(query, params.keys[i], text.value) else query) == SentKeys(params, i + 1)
  {
  }

  /** The lookups of the query after parameter `i`, given that `key` was not yet in it. */
  lemma QueryLookupStep(params: Record<ParamValue>, query: Record<string>, i: nat, text: Option<string>)
    requires i < |params.keys| && params.keys[i] !in params.keys[..i]
    requires forall k :: Lookup(query, k) == if k in params.keys[..i] then SentValue(Lookup(params, k)) else None
    requires text == SentValue(Lookup(params, params.keys[i]))
    ensures var next := if text.Some? then Assign(query, params.keys[i], text.value) else query;
            forall k :: Lookup(next, k) == if k in params.keys[..i + 1] then SentValue(Lookup(params, k)) else None
  {
    var key := params.keys[i];
    var next := if text.Some? then Assign(query, key, text.value) else query;
    var before, after := params.keys[..i], params.keys[..i + 1];
    assert after == before + [key];
    forall k
      ensures Lookup(next, k) == if k in after then SentValue(Lookup(params, k)) else None
    {
      if k != key {
        assert (k in after) == (k in before);
      }
    }
  }

  // ---------------------------------------------------------------------
  // Responses

  /** The `pagination` member of the upstream envelope. */
  datatype PageInfo = PageInfo(cursor: Option<string>, hasNextPage: Option<bool>)

  /** The upstream envelope `{ data, request_id?, pagination? }`. */
  datatype Envelope = Envelope(data: Option<Json>, requestId: Option<string>, pagination: Option<PageInfo>)

  /**
   * What `response.json()` gives, as `normalizeResponse` then reads it: an
   * envelope, or a failure with its message. A rejection of `response.json()`
   * is `Unparsable`, and so is a body that parses to the JSON `null`, with
   * the message "Cannot read properties of null (reading 'pagination')" that
   * reading its `pagination` throws. Both are thrown inside the request's
   * `try` and so retried as transient failures. Any other non-object body
   * (a number, string or array) has no such members and is the envelope
   * with none of them.
   */
  datatype Body = Parsed(envelope: Envelope) | Unparsable(message: string)

  /**
   * What one call of `fetch` produces: a failure before any HTTP response,
   * or a response with its status, status text, `Retry-After` header (absent
   * or empty: `None`), body text (empty when reading it fails) and parsed body.
   */
  datatype FetchOutcome =
    | NetworkFailure(message: string)
    | Reply(status: int, statusText: string, retryAfter: Option<nat>, text: string, body: Body)

  /** The normalised response handed to the rest of the client. */
  datatype ApiResponse = ApiResponse(data: Json, requestId: Option<string>, hasNextPage: Option<bool>, cursor: Option<string>)

  /** `normalizeResponse`. */
  function Normalize(e: Envelope): (r: ApiResponse)
    ensures r.data == JNull <==> e.data.None? || e.data == Some(JNull)
    ensures e.data.Some? ==> r.data == e.data.value
    ensures r.requestId == e.requestId
    ensures r.hasNextPage.Some?
    ensures r.hasNextPage.value <==> e.pagination.Some? && e.pagination.value.hasNextPage == Some(true)
    ensures r.cursor.Some? ==> e.pagination.Some? && e.pagination.value.cursor == r.cursor
    ensures e.pagination.Some? ==> r.cursor == e.pagination.value.cursor
  {
    ApiResponse(
      e.data.GetOr(JNull),
      e.requestId,
      Some(if e.pagination.Some? then e.pagination.value.hasNextPage.GetOr(false) else false),
      if e.pagination.Some? then e.pagination.value.cursor else None)
  }

  /** The envelope an upstream server sends for a given normalised response. */
  function EnvelopeOf(r: ApiResponse): Envelope {
    Envelope(Some(r.data), r.requestId, Some(PageInfo(r.cursor, r.hasNextPage)))
  }

  /** Normalisation loses nothing of an envelope that states all its fields. */
  lemma NormalizeEnvelopeOf(r: ApiResponse)
    requires r.hasNextPage.Some?
    ensures Normalize(EnvelopeOf(r)) == r
  {
  }

  // ---------------------------------------------------------------------
  // The retry state machine

  function Pow2(n: nat): (p: nat)
    ensures p >= 1
  {
    if n == 0 then 1 else 2 * Pow2(n - 1)
  }

  /** The exponential backoff before retry number `attempt + 1`, in milliseconds. */
  function Backoff(attempt: nat): nat {
    Pow2(attempt) * 1000
  }

  /** A failure that is retried: a network failure, or a 2xx body that does not parse. */
  predicate Transient(o: FetchOutcome) {
    o.NetworkFailure? || (o.Reply? && 200 <= o.status < 300 && o.body.Unparsable?)
  }

  function TransientMessage(o: FetchOutcome): string
    requires Transient(o)
  {
    if o.NetworkFailure? then o.message else o.body.message
  }

  /** What one attempt decides: sleep and retry, or finish with a result. */
  datatype Step = Retry(delay: nat) | Finish(result: Result<ApiResponse, PylonError>)

  /** The decision the loop body takes for outcome `o` on attempt `attempt`. */
  function StepOf(o: FetchOutcome, attempt: nat, path: string): (s: Step)
    requires attempt <= MaxRetries
    ensures s.Retry? ==> attempt < MaxRetries
    ensures s.Retry? <==> attempt < MaxRetries && (Transient(o) || (o.Reply? && o.status == 429))
    ensures s.Retry? && o.Reply? && o.status == 429 ==>
              s.delay == if o.retryAfter.Some? then o.retryAfter.value * 1000 else Backoff(attempt)
    ensures s.Retry? && Transient(o) ==> s.delay == Backoff(attempt)
    ensures s.Finish? && s.result.Ok? ==>
              o.Reply? && 200 <= o.status < 300 && o.body.Parsed? && s.result.value == Normalize(o.body.envelope)
    ensures s.Finish? && s.result.Err? ==> s.result.error.ApiError?
  {
    match o
    case NetworkFailure(m) =>
      if attempt < MaxRetries then Retry(Backoff(attempt))
      else Finish(Err(ApiError(0, ExhaustedMessage(m))))
    case Reply(status, statusText, retryAfter, text, body) =>
      if status == 429 then
        if attempt < MaxRetries then
          Retry(if retryAfter.Some? then retryAfter.value * 1000 else Backoff(attempt))
        else Finish(Err(ApiError(429, RateLimitedMessage)))
      else if status == 401 then Finish(Err(ApiError(401, InvalidKeyMessage)))
      else if status == 404 then Finish(Err(ApiError(404, NotFoundMessage(path))))
      else if !(200 <= status < 300) then Finish(Err(ApiError(status, StatusMessage(status, text, statusText))))
      else match body
        case Parsed(e) => Finish(Ok(Normalize(e)))
        case Unparsable(m) =>
          if attempt < MaxRetries then Retry(Backoff(attempt))
          else Finish(Err(ApiError(0, ExhaustedMessage(m))))
  }

  /**
   * How each kind of outcome finishes an attempt: a parsed 2xx reply with its
   * normalised body; 401, 404 and any other non-2xx status except 429 with
   * their errors, on every attempt; a 429 or a transient failure only on the
   * last attempt, with the rate-limit or the exhausted-retries error.
   */
  lemma StepOfFinishes(o: FetchOutcome, attempt: nat, path: string)
    requires attempt <= MaxRetries
    ensures o.Reply? && 200 <= o.status < 300 && o.body.Parsed? ==> StepOf(o, attempt, path) == Finish(Ok(Normalize(o.body.envelope)))
    ensures o.Reply? && o.status == 401 ==> StepOf(o, attempt, path) == Finish(Err(ApiError(401, InvalidKeyMessage)))
    ensures o.Reply? && o.status == 404 ==> StepOf(o, attempt, path) == Finish(Err(ApiError(404, NotFoundMessage(path))))
    ensures o.Reply? && o.status !in {401, 404, 429} && !(200 <= o.status < 300) ==>
              StepOf(o, attempt, path) == Finish(Err(ApiError(o.status, StatusMessage(o.status, o.text, o.statusText))))
    ensures o.Reply? && o.status == 429 && attempt == MaxRetries ==> StepOf(o, attempt, path) == Finish(Err(ApiError(429, RateLimitedMessage)))
    ensures Transient(o) && attempt == MaxRetries ==> StepOf(o, attempt, path) == Finish(Err(ApiError(0, ExhaustedMessage(TransientMessage(o)))))
  {
  }

  /** The observable result of one `get`: the result, the number of calls, the sleeps. */
  datatype Exchange = Exchange(result: Result<ApiResponse, PylonError>, calls: nat, delays: seq<nat>)

  /**
   * Reference definition of the attempts from `attempt` on: every attempt
   * before the last one retried after the recorded delay, and the last one
   * finished with the result.
   */
  function Run(path: string, outcomes: seq<FetchOutcome>, attempt: nat): (x: Exchange)
    requires attempt <= MaxRetries < |outcomes|
    ensures 1 <= x.calls <= MaxRetries + 1 - attempt
    ensures |x.delays| == x.calls - 1
    ensures forall i :: 0 <= i < x.calls - 1 ==> StepOf(outcomes[attempt + i], attempt + i, path) == Retry(x.delays[i])
    ensures StepOf(outcomes[attempt + x.calls - 1], attempt + x.calls - 1, path) == Finish(x.result)
    decreases MaxRetries - attempt
  {
    match StepOf(outcomes[attempt], attempt, path)
    case Finish(r) => Exchange(r, 1, [])
    case Retry(d) =>
      var rest := Run(path, outcomes, attempt + 1);
      RetriesShift(path, outcomes, attempt, d, rest.delays);
      Exchange(rest.result, rest.calls + 1, [d] + rest.delays)
  }

  /** The retries from the next attempt on, preceded by this attempt's retry. */
  lemma RetriesShift(path: string, outcomes: seq<FetchOutcome>, attempt: nat, d: nat, delays: seq<nat>)
    requires attempt < MaxRetries < |outcomes| && attempt + 1 + |delays| <= MaxRetries + 1
    requires StepOf(outcomes[attempt], attempt, path) == Retry(d)
    requires forall i :: 0 <= i < |delays| ==> StepOf(outcomes[attempt + 1 + i], attempt + 1 + i, path) == Retry(delays[i])
    ensures forall i :: 0 <= i < |delays| + 1 ==> StepOf(outcomes[attempt + i], attempt + i, path) == Retry(([d] + delays)[i])
  {
    forall i | 0 <= i < |delays| + 1
      ensures StepOf(outcomes[attempt + i], attempt + i, path) == Retry(([d] + delays)[i])
    {
      if i > 0 {
        assert ([d] + delays)[i] == delays[i - 1];
        assert attempt + i == attempt + 1 + (i - 1);
      }
    }
  }

  /** `rest`, preceded by retries that slept for `delays`. */
  function After(delays: seq<nat>, rest: Exchange): Exchange {
    Exchange(rest.result, |delays| + rest.calls, delays + rest.delays)
  }

  // ---------------------------------------------------------------------
  // The client

  /** An `ApiClient`: its API key is fixed when it is created. */
  datatype Client = Client(apiKey: string)

  /** `createClient`: resolves the key, failing with `AuthError` when there is none. */
  function CreateClient(flag: Option<string>, env: Option<string>, stored: Option<string>): (r: Result<Client, PylonError>)
    ensures r.Ok? <==> ResolveApiKey(flag, env, stored).Ok?
    ensures r.Ok? ==> r.value.apiKey == ResolveApiKey(flag, env, stored).value
    ensures r.Err? ==> r.error == AuthError
  {
    match ResolveApiKey(flag, env, stored)
    case Ok(key) => Ok(Client(key))
    case Err(e) => Err(e)
  }

  /** The request every attempt of one `get` sends. */
  datatype Request = Request(url: string, query: Record<string>, authorization: string, userAgent: string)

  /**
   * `ApiClient.get`: builds the request, then runs the attempt loop over the
   * scripted outcomes. Its result, call count and delays are those of `Run`.
   */
  method Get(client: Client, path: string, params: Record<ParamValue>, outcomes: seq<FetchOutcome>)
    returns (request: Request, result: Result<ApiResponse, PylonError>, calls: nat, delays: seq<nat>)
    requires |outcomes| > MaxRetries
    ensures request.url == BaseUrl + path
    ensures request.authorization == "Bearer " + client.apiKey && request.userAgent == UserAgent
    ensures forall k :: Lookup(request.query, k) == SentValue(Lookup(params, k))
    ensures Keys(request.query) == SentKeys(params, |Keys(params)|)
    ensures Exchange(result, calls, delays) == Run(path, outcomes, 0)
  {
    var query := BuildQuery(params);
    request := Request(BaseUrl + path, query, "Bearer " + client.apiKey, UserAgent);
    result, calls, delays := Attempts(path, outcomes);
  }

  /**
   * The attempt loop of `ApiClient.get`: each attempt either finishes the
   * call or sleeps and tries again; after the last retry the last error is
   * reported.
   */
  method Attempts(path: string, outcomes: seq<FetchOutcome>)
    returns (result: Result<ApiResponse, PylonError>, calls: nat, delays: seq<nat>)
    requires |outcomes| > MaxRetries
    ensures Exchange(result, calls, delays) == Run(path, outcomes, 0)
  {
    var lastError: Option<string> := None;
    calls, delays := 0, [];
    var attempt: nat := 0;
    while attempt <= MaxRetries
      invariant attempt <= MaxRetries + 1 && calls == attempt
      invariant attempt <= MaxRetries ==> |delays| == attempt
      invariant attempt <= MaxRetries ==> Run(path, outcomes, 0) == After(delays, Run(path, outcomes, attempt))
      invariant attempt == MaxRetries + 1 ==>
                  lastError.Some? && Run(path, outcomes, 0) == Exchange(Err(ApiError(0, ExhaustedMessage(lastError.value))), calls, delays)
      decreases MaxRetries + 1 - attempt
    {
      calls := calls + 1;
      var sleep, done;
      sleep, done, lastError := Attempt(outcomes[attempt], attempt, path, lastError);
      if done.Some? {
        assert StepOf(outcomes[attempt], attempt, path) == Finish(done.value);
        AfterFinish(delays, path, outcomes, attempt);
        result := done.value;
        return;
      }
      if sleep.Some? {
        assert StepOf(outcomes[attempt], attempt, path) == Retry(sleep.value);
        AfterRetry(delays, path, outcomes, attempt);
        delays := delays + [sleep.value];
      } else {
        assert attempt == MaxRetries && lastError.Some?;
        assert StepOf(outcomes[attempt], attempt, path) == Finish(Err(ApiError(0, ExhaustedMessage(lastError.value))));
        AfterFinish(delays, path, outcomes, attempt);
      }
      attempt := attempt + 1;
    }
    result := Err(ApiError(0, ExhaustedMessage(lastError.value)));
  }

  /**
   * The body of one attempt: what it decides for the outcome of its `fetch`
   * (sleep for `sleep`, or finish with `done`) and the last error message it
   * remembers. When the last attempt neither finishes nor sleeps, the loop
   * gives up with that message.
   */
  method Attempt(o: FetchOutcome, attempt: nat, path: string, lastError: Option<string>)
    returns (sleep: Option<nat>, done: Option<Result<ApiResponse, PylonError>>, lastError': Option<string>)
    requires attempt <= MaxRetries
    ensures done.Some? ==> sleep.None? && StepOf(o, attempt, path) == Finish(done.value)
    ensures sleep.Some? ==> StepOf(o, attempt, path) == Retry(sleep.value)
    ensures Transient(o) ==> lastError' == Some(TransientMessage(o))
    ensures !Transient(o) ==> lastError' == lastError
    ensures done.None? && sleep.None? ==>
              attempt == MaxRetries && lastError'.Some? &&
              StepOf(o, attempt, path) == Finish(Err(ApiError(0, ExhaustedMessage(lastError'.value))))
  {
    sleep, done, lastError' := None, None, lastError;
    match o {
      case NetworkFailure(m) =>
        lastError' := Some(m);
        if attempt < MaxRetries {
          sleep := Some(Backoff(attempt));
        }
      case Reply(status, statusText, retryAfter, text, body) =>
        if status == 429 {
          if attempt < MaxRetries {
            sleep := Some(if retryAfter.Some? then retryAfter.value * 1000 else Backoff(attempt));
          } else {
            done := Some(Err(ApiError(429, RateLimitedMessage)));
          }
        } else if status == 401 {
          done := Some(Err(ApiError(401, InvalidKeyMessage)));
        } else if status == 404 {
          done := Some(Err(ApiError(404, NotFoundMessage(path))));
        } else if !(200 <= status < 300) {
          done := Some(Err(ApiError(status, StatusMessage(status, text, statusText))));
        } else {
          match body {
            case Parsed(e) =>
              done := Some(Ok(Normalize(e)));
            case Unparsable(m) =>
              lastError' := Some(m);
              if attempt < MaxRetries {
                sleep := Some(Backoff(attempt));
              }
          }
        }
    }
  }

  /** One attempt that finished ends the exchange. */
  lemma AfterFinish(delays: seq<nat>, path: string, outcomes: seq<FetchOutcome>, attempt: nat)
    requires attempt <= MaxRetries < |outcomes|
    requires StepOf(outcomes[attempt], attempt, path).Finish?
    ensures After(delays, Run(path, outcomes, attempt)) ==
              Exchange(StepOf(outcomes[attempt], attempt, path).result, |delays| + 1, delays)
  {
  }

  /** One attempt that retried moves its delay to the recorded ones. */
  lemma AfterRetry(delays: seq<nat>, path: string, outcomes: seq<FetchOutcome>, attempt: nat)
    requires attempt < MaxRetries < |outcomes|
    requires StepOf(outcomes[attempt], attempt, path).Retry?
    ensures After(delays, Run(path, outcomes, attempt)) ==
              After(delays + [StepOf(outcomes[attempt], attempt, path).delay], Run(path, outcomes, attempt + 1))
  {
  }

  // ---------------------------------------------------------------------
  // Properties of one `get`

  /** A parsed 2xx reply ends the loop on whichever attempt it comes: one call, that reply's body. */
  lemma SuccessIsNotRetried(path: string, outcomes: seq<FetchOutcome>, attempt: nat, e: Envelope)
    requires attempt <= MaxRetries < |outcomes|
    requires outcomes[attempt].Reply? && 200 <= outcomes[attempt].status < 300 && outcomes[attempt].body == Parsed(e)
    ensures Run(path, outcomes, attempt) == Exchange(Ok(Normalize(e)), 1, [])
  {
  }

  /** A 401 fails at once with the invalid-key error, on any attempt: one more call, no sleep. */
  lemma UnauthorizedIsNotRetried(path: string, outcomes: seq<FetchOutcome>, attempt: nat)
    requires attempt <= MaxRetries < |outcomes| && outcomes[attempt].Reply? && outcomes[attempt].status == 401
    ensures Run(path, outcomes, attempt) == Exchange(Err(ApiError(401, InvalidKeyMessage)), 1, [])
  {
  }

  /** A 404 fails at once, on any attempt, with an error naming the requested path. */
  lemma NotFoundNamesPath(path: string, outcomes: seq<FetchOutcome>, attempt: nat)
    requires attempt <= MaxRetries < |outcomes| && outcomes[attempt].Reply? && outcomes[attempt].status == 404
    ensures Run(path, outcomes, attempt) == Exchange(Err(ApiError(404, "Not found: " + path)), 1, [])
  {
  }

  /**
   * Any other status outside 2xx fails at once, on any attempt, with that
   * status and the response text (or the status text when the body is empty).
   */
  lemma OtherErrorStatusIsNotRetried(path: string, outcomes: seq<FetchOutcome>, attempt: nat)
    requires attempt <= MaxRetries < |outcomes| && outcomes[attempt].Reply?
    requires outcomes[attempt].status !in {429, 401, 404} && !(200 <= outcomes[attempt].status < 300)
    ensures var o := outcomes[attempt];
            Run(path, outcomes, attempt) ==
              Exchange(Err(ApiError(o.status, "API error (" + DecimalString(o.status) + "): " + (if o.text != "" then o.text else o.statusText))), 1, [])
  {
  }

  /**
   * A 429 followed by a successful reply succeeds after exactly one retry,
   * with the second reply's body; the sleep honours `Retry-After` seconds.
   */
  lemma RateLimitedThenOk(path: string, outcomes: seq<FetchOutcome>, e: Envelope)
    requires |outcomes| > MaxRetries
    requires outcomes[0].Reply? && outcomes[0].status == 429
    requires outcomes[1].Reply? && 200 <= outcomes[1].status < 300 && outcomes[1].body == Parsed(e)
    ensures Run(path, outcomes, 0) ==
              Exchange(Ok(Normalize(e)), 2, [if outcomes[0].retryAfter.Some? then outcomes[0].retryAfter.value * 1000 else 1000])
  {
    assert Run(path, outcomes, 1) == Exchange(Ok(Normalize(e)), 1, []);
  }

  /**
   * From any attempt on, when every remaining call fails transiently, the
   * client sleeps 2^i seconds after each but the last, and then fails with
   * status 0 and the last failure's message.
   */
  lemma {:induction false} TransientFailuresExhaust(path: string, outcomes: seq<FetchOutcome>, attempt: nat)
    requires attempt <= MaxRetries < |outcomes|
    requires forall i :: attempt <= i <= MaxRetries ==> Transient(outcomes[i])
    ensures Run(path, outcomes, attempt) ==
              Exchange(Err(ApiError(0, ExhaustedMessage(TransientMessage(outcomes[MaxRetries])))),
                       MaxRetries + 1 - attempt, BackoffsFrom(attempt))
    decreases MaxRetries - attempt
  {
    if attempt < MaxRetries {
      TransientFailuresExhaust(path, outcomes, attempt + 1);
    }
  }

  /** The backoff delays of attempts `attempt` to `MaxRetries - 1`. */
  function BackoffsFrom(attempt: nat): seq<nat>
    requires attempt <= MaxRetries
    decreases MaxRetries - attempt
  {
    if attempt == MaxRetries then [] else [Backoff(attempt)] + BackoffsFrom(attempt + 1)
  }

  /** Four transient failures in a row: four calls, sleeps of 1, 2 and 4 seconds. */
  lemma FourTransientFailures(path: string, outcomes: seq<FetchOutcome>)
    requires |outcomes| > MaxRetries
    requires forall i :: 0 <= i <= MaxRetries ==> Transient(outcomes[i])
    ensures Run(path, outcomes, 0).calls == 4
    ensures Run(path, outcomes, 0).delays == [1000, 2000, 4000]
    ensures Run(path, outcomes, 0).result == Err(ApiError(0, "Request failed after 4 attempts: " + TransientMessage(outcomes[3])))
  {
    TransientFailuresExhaust(path, outcomes, 0);
    FirstBackoffs();
    ExhaustedMessageText(TransientMessage(outcomes[3]));
  }

  lemma FirstBackoffs()
    ensures BackoffsFrom(0) == [1000, 2000, 4000]
  {
    assert Pow2(1) == 2 && Pow2(2) == 4;
    assert BackoffsFrom(2) == [4000];
    assert BackoffsFrom(1) == [2000, 4000];
  }

  lemma ExhaustedMessageText(m: string)
    ensures ExhaustedMessage(m) == "Request failed after 4 attempts: " + m
  {
    assert DigitChar(4) == '4' && NatDigits(4) == "4" && DecimalString(4) == "4";
  }

  /** A 429 on every attempt ends, on the fourth, with the rate-limit error. */
  lemma {:induction false} RateLimitedThroughout(path: string, outcomes: seq<FetchOutcome>, attempt: nat)
    requires attempt <= MaxRetries < |outcomes|
    requires forall i :: attempt <= i <= MaxRetries ==> outcomes[i].Reply? && outcomes[i].status == 429
    ensures Run(path, outcomes, attempt).result == Err(ApiError(429, RateLimitedMessage))
    ensures Run(path, outcomes, attempt).calls == MaxRetries + 1 - attempt
    decreases MaxRetries - attempt
  {
    if attempt < MaxRetries {
      RateLimitedThroughout(path, outcomes, attempt + 1);
    }
  }

  /** A successful `get` returns the normalised body of the reply of its last call. */
  lemma SuccessIsLastReply(path: string, outcomes: seq<FetchOutcome>)
    requires |outcomes| > MaxRetries
    ensures var x := Run(path, outcomes, 0);
            x.result.Ok? ==>
              var o := outcomes[x.calls - 1];
              o.Reply? && 200 <= o.status < 300 && o.body.Parsed? && x.result.value == Normalize(o.body.envelope)
  {
  }
}
