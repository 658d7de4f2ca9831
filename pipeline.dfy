/** The decision logic of `Client.doRequest` (client.go) as functions: how
    one attempt is classified, what the retry loop does with it, how a whole
    call ends, which headers are sent and what the trace span records.
    The transport, the circuit breaker and the back-off timer are
    collaborators whose answers are inputs. */
module Pipeline {
  import opened Format
  import opened Errors
  import opened Http

  datatype Result<+T> = Ok(value: T) | Err(error: Error)

  /** Why gobreaker refused to run an attempt: the breaker is open, or it
      is half-open and already admitting as many requests as it may. */
  datatype Refusal = OpenState | TooManyRequests

  const BreakerOpenMessage := "circuit breaker is open"
  const TooManyRequestsMessage := "too many requests"

  /** gobreaker's `ErrOpenState` and `ErrTooManyRequests`. */
  function RefusalError(why: Refusal): (e: Error)
    ensures e.Plain?
    ensures e.text == (if why.OpenState? then BreakerOpenMessage else TooManyRequestsMessage)
  {
    match why
    case OpenState => Plain(BreakerOpenMessage)
    case TooManyRequests => Plain(TooManyRequestsMessage)
  }

  /** What one pass through the circuit breaker produced. The breaker is an
      admit/reject gate; an admitted attempt is one transport round trip. */
  datatype Attempt =
    | Rejected(why: Refusal)        // the breaker refused to run the attempt
    | TransportFailed(err: Error)   // `http.Client.Do` returned an error
    | ReadFailed(err: Error)        // reading the response body failed
    | Replied(status: int, headers: Header, body: seq<byte>)

  /** Statuses the pipeline turns into an error: 5xx and 429. */
  predicate IsRetryableStatus(status: int) {
    status >= 500 || status == 429
  }

  const RetryableStatusPrefix := "retryable status "

  /** `fmt.Errorf("retryable status %d: %s", status, string(body))`: no `%w`,
      so the error carries its message only. */
  function RetryableStatusError(status: int, body: seq<byte>): (e: Error)
    ensures e.Plain? && |e.text| > |RetryableStatusPrefix|
    ensures e.text[..|RetryableStatusPrefix|] == RetryableStatusPrefix
  {
    Plain(RetryableStatusPrefix + IntToString(status) + ": " + BytesToString(body))
  }

  const ReadResponseContext := "read response"

  /** The result the closure passed to the breaker hands back for one
      attempt: an error for a refusal, a transport or read failure, or a
      5xx/429 reply; otherwise the reply itself, unmodified. */
  function Classify(a: Attempt): (r: Result<Response>)
    ensures r.Ok? <==> a.Replied? && !IsRetryableStatus(a.status)
    ensures r.Ok? ==> r.value == Response(a.status, a.headers, a.body)
    ensures a.Replied? && r.Err? ==> r.error == RetryableStatusError(a.status, a.body)
    ensures a.Rejected? ==> r == Err(RefusalError(a.why))
    ensures a.TransportFailed? ==> r == Err(a.err)
    ensures a.ReadFailed? ==> r == Err(Wrapped(ReadResponseContext, a.err))
  {
    match a
    case Rejected(why) => Err(RefusalError(why))
    case TransportFailed(e) => Err(e)
    case ReadFailed(e) => Err(Wrapped(ReadResponseContext, e))
    case Replied(status, headers, body) =>
      if status >= 500 || status == 429 then Err(RetryableStatusError(status, body))
      else Ok(Response(status, headers, body))
  }

  /** What the retry operation tells the back-off loop. `GiveUp` is an error
      wrapped with `backoff.Permanent`. */
  datatype Step = Finish(response: Response) | GiveUp(err: Error) | TryAgain(err: Error)

  /** The retry operation's verdict on one attempt's result. */
  function Decide(r: Result<Response>): (s: Step)
    ensures s.Finish? <==> r.Ok?
    ensures s.Finish? ==> s.response == r.value
    ensures s.TryAgain? <==> r.Err? && Message(r.error) in RetryableMessages
    ensures !s.Finish? ==> s.err == r.error
  {
    match r
    case Ok(resp) => Finish(resp)
    case Err(e) => if !IsRetryableError(Some(e)) then GiveUp(e) else TryAgain(e)
  }

  /** The result a step carries: the response, or the error (a permanent
      one unwrapped). */
  function StepResult(s: Step): Result<Response> {
    match s
    case Finish(resp) => Ok(resp)
    case GiveUp(e) => Err(e)
    case TryAgain(e) => Err(e)
  }

  /** How a back-off loop ended: its final result and the number of attempts. */
  datatype RunResult = RunResult(result: Result<Response>, attempts: nat)

  /** `backoff.Retry` from attempt `k` on, with `retries` further attempts
      still granted by the back-off policy, over an operation whose verdict
      on attempt `j` is `op(j)`. A finished or permanent step ends the loop;
      a retryable one ends it only when no retry is left. The result is the
      last step's own: a response, the unwrapped cause of a permanent error,
      or the last retryable error. */
  function Backoff(op: nat -> Step, k: nat, retries: nat): (run: RunResult)
    ensures k < run.attempts <= k + retries + 1
    decreases retries
  {
    if op(k).TryAgain? && retries > 0 then Backoff(op, k + 1, retries - 1)
    else RunResult(StepResult(op(k)), k + 1)
  }

  /** The operation the client hands to the back-off loop: run the attempt,
      classify it, and decide. */
  function Operation(transport: nat -> Attempt): nat -> Step {
    (j: nat) => Decide(Classify(transport(j)))
  }

  /** A whole back-off loop: the first attempt is always made. */
  function Run(transport: nat -> Attempt, retries: nat): RunResult {
    Backoff(Operation(transport), 0, retries)
  }

  /** The error an attempt records on the span from inside the breaker:
      the transport's error when `http.Client.Do` failed, nothing otherwise. */
  function SpanErrorsOf(a: Attempt): (errs: seq<Error>)
    ensures |errs| <= 1
    ensures errs != [] <==> a.TransportFailed?
  {
    if a.TransportFailed? then [a.err] else []
  }

  /** How many of the first `n` passes through the breaker reached
      `http.Client.Do`: those the breaker did not refuse. */
  function TransportCalls(transport: nat -> Attempt, n: nat): (calls: nat)
    ensures calls <= n
  {
    if n == 0 then 0 else TransportCalls(transport, n - 1) + (if transport(n - 1).Rejected? then 0 else 1)
  }

  /** Errors the span records from inside the first `n` attempts of a call. */
  function RecordedErrors(transport: nat -> Attempt, n: nat): (errs: seq<Error>)
    ensures |errs| <= n
  {
    if n == 0 then [] else RecordedErrors(transport, n - 1) + SpanErrorsOf(transport(n - 1))
  }

  // ---------------------------------------------------------------------
  // Headers

  /** The keys a set of header names lands on once canonicalised. */
  function CanonicalKeys(keys: set<string>, canon: string -> string): set<string> {
    set k | k in keys :: canon(k)
  }

  /** The keys the caller's headers land on. */
  function CallerKeys(caller: map<string, string>, canon: string -> string): set<string> {
    CanonicalKeys(caller.Keys, canon)
  }

  predicate InjectiveOn(canon: string -> string, keys: set<string>) {
    forall k, k' :: k in keys && k' in keys && canon(k) == canon(k') ==> k == k'
  }

  /** What the request's header map holds once the defaults and then each
      caller header have been `Set` on it, in whatever order the caller's map
      is walked: exactly the two default keys and the caller's keys; on a
      caller key, the value of some caller header that canonicalises to it;
      on a default key no caller header touches, `application/json`. */
  ghost predicate Merged(caller: map<string, string>, canon: string -> string, h: Header) {
    && h.Keys == {canon(ContentTypeKey), canon(AcceptKey)} + CallerKeys(caller, canon)
    && (forall key :: key in h && key in CallerKeys(caller, canon) ==>
          exists k :: k in caller && canon(k) == key && h[key] == [caller[k]])
    && (canon(ContentTypeKey) !in CallerKeys(caller, canon) ==> h[canon(ContentTypeKey)] == [JsonMediaType])
    && (canon(AcceptKey) !in CallerKeys(caller, canon) ==> h[canon(AcceptKey)] == [JsonMediaType])
  }

  /** When no two caller headers share a canonical key, every caller header
      ends up with its own value. */
  lemma MergedCallerWins(caller: map<string, string>, canon: string -> string, h: Header)
    requires Merged(caller, canon, h)
    requires InjectiveOn(canon, caller.Keys)
    ensures forall k :: k in caller ==> canon(k) in h && h[canon(k)] == [caller[k]]
  {
    forall k | k in caller
      ensures canon(k) in h && h[canon(k)] == [caller[k]]
    {
      assert canon(k) in CallerKeys(caller, canon);
      var k' :| k' in caller && canon(k') == canon(k) && h[canon(k)] == [caller[k']];
      assert k' == k;
    }
  }

  // ---------------------------------------------------------------------
  // Trace span

  datatype SpanStatus = Unset | StatusOk(description: string) | StatusError(description: string)

  /** What the call's span holds: its name and start attributes, the errors
      recorded on it, the `http.status_code` attribute, its status, and
      whether it has been ended. */
  datatype Span = Span(
    name: string,
    httpMethod: string,
    httpUrl: string,
    serviceName: string,
    errors: seq<Error>,
    statusCode: Option<int>,
    status: SpanStatus,
    ended: bool)

  const TracerName := "shared-service-client"

  /** The span as `tracer.Start` opens it. */
  function OpenSpan(verb: string, path: string, baseUrl: string, serviceName: string): (s: Span)
    ensures s.name == verb + " " + path && s.httpUrl == baseUrl + path
    ensures s.httpMethod == verb && s.serviceName == serviceName
    ensures s.errors == [] && s.statusCode.None? && s.status.Unset? && !s.ended
  {
    Span(verb + " " + path, verb, baseUrl + path, serviceName, [], None, Unset, false)
  }

  /** The status set on the span for a returned response: an error naming
      the status from 400 on, otherwise Ok. */
  function ResponseStatus(code: int): (s: SpanStatus)
    ensures s.StatusError? <==> code >= 400
    ensures s.StatusOk? <==> code < 400
    ensures s.StatusError? ==> s.description == "HTTP " + IntToString(code)
    ensures s.StatusOk? ==> s.description == "success"
  {
    if code >= 400 then StatusError("HTTP " + IntToString(code)) else StatusOk("success")
  }

  /** `span.RecordError(e)` followed by `span.SetStatus(codes.Error, e.Error())`. */
  function FailSpan(span: Span, e: Error): (s: Span)
    ensures s.errors == span.errors + [e] && s.status == StatusError(Message(e))
    ensures s.name == span.name && s.httpMethod == span.httpMethod && s.httpUrl == span.httpUrl
    ensures s.serviceName == span.serviceName && s.statusCode == span.statusCode && s.ended == span.ended
  {
    span.(errors := span.errors + [e], status := StatusError(Message(e)))
  }

  // ---------------------------------------------------------------------
  // A whole call

  /** The request body: absent (`nil`), or a value whose JSON encoding either
      succeeded or failed. */
  datatype Body = NoBody | Json(encoded: Result<seq<byte>>)

  /** One logical call as the caller describes it. */
  datatype Request = Request(verb: string, path: string, body: Body, headers: map<string, string>)

  /** The answers of the collaborators for one call: whether building the
      `http.Request` failed, the header-key canonicalisation, the result of
      each attempt, and how many retries the back-off policy grants before
      it gives up. */
  datatype Collaborators = Collaborators(
    newRequestError: Option<Error>,
    canonicalKey: string -> string,
    transport: nat -> Attempt,
    retries: nat)

  /** What the caller gets back, what the span recorded, and how many passes
      through the breaker the call made (refused ones included; how many of
      them reached the transport is `TransportCalls`). */
  datatype Outcome = Outcome(result: Result<Response>, span: Span, attempts: nat)

  const MarshalContext := "marshal request body"
  const CreateRequestContext := "create request"
  const RequestFailedContext := "request failed"

  predicate EncodingFails(body: Body) {
    body.Json? && body.encoded.Err?
  }

  /** A return before the retry loop: no attempt is made. */
  function Abort(span: Span, e: Error, context: string): (out: Outcome)
    ensures out.attempts == 0 && out.result == Err(Wrapped(context, e))
    ensures out.span == FailSpan(span, e).(ended := true)
  {
    Outcome(Err(Wrapped(context, e)), FailSpan(span, e).(ended := true), 0)
  }

  /** The end of a call that went through the back-off loop: the errors
      recorded inside the attempts go on the span; a failure is returned
      wrapped in "request failed" and ends the span with its cause; a
      response sets the status-code attribute and the status. */
  function Conclude(span: Span, run: RunResult, recorded: seq<Error>): (out: Outcome)
    ensures out.attempts == run.attempts && out.span.ended
    ensures out.span.name == span.name && out.span.httpUrl == span.httpUrl
    ensures run.result.Err? ==>
      out.result == Err(Wrapped(RequestFailedContext, run.result.error))
      && out.span.errors == span.errors + recorded + [run.result.error]
      && out.span.status == StatusError(Message(run.result.error))
    ensures run.result.Ok? ==>
      out.result == run.result
      && out.span.errors == span.errors + recorded
      && out.span.statusCode == Some(run.result.value.statusCode)
      && out.span.status == ResponseStatus(run.result.value.statusCode)
  {
    var traced := span.(errors := span.errors + recorded);
    match run.result
    case Err(e) =>
      Outcome(Err(Wrapped(RequestFailedContext, e)), FailSpan(traced, e).(ended := true), run.attempts)
    case Ok(resp) =>
      var done := traced.(statusCode := Some(resp.statusCode), status := ResponseStatus(resp.statusCode));
      Outcome(Ok(resp), done.(ended := true), run.attempts)
  }

  /** `doRequest`, with the transport replaced by the collaborators' answers. */
  function Execute(baseUrl: string, serviceName: string, req: Request, env: Collaborators): (out: Outcome)
    ensures out.span.ended
    ensures out.span.name == req.verb + " " + req.path && out.span.httpUrl == baseUrl + req.path
    ensures out.attempts == 0 <==> EncodingFails(req.body) || env.newRequestError.Some?
    ensures out.attempts <= env.retries + 1
    ensures EncodingFails(req.body) ==>
      out.result == Err(Wrapped(MarshalContext, req.body.encoded.error))
      && out.span.status == StatusError(Message(req.body.encoded.error))
    ensures !EncodingFails(req.body) && env.newRequestError.Some? ==>
      out.result == Err(Wrapped(CreateRequestContext, env.newRequestError.value))
      && out.span.status == StatusError(Message(env.newRequestError.value))
    ensures out.result.Err? ==> out.result.error.Wrapped? && out.span.status == StatusError(Message(out.result.error.cause))
    ensures out.result.Ok? ==>
      out.span.statusCode == Some(out.result.value.statusCode)
      && out.span.status == ResponseStatus(out.result.value.statusCode)
  {
    var span := OpenSpan(req.verb, req.path, baseUrl, serviceName);
    if EncodingFails(req.body) then
      Abort(span, req.body.encoded.error, MarshalContext)
    else if env.newRequestError.Some? then
      Abort(span, env.newRequestError.value, CreateRequestContext)
    else
      var run := Run(env.transport, env.retries);
      Conclude(span, run, RecordedErrors(env.transport, run.attempts))
  }
}
