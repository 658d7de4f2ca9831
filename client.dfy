/** The client itself (client.go): its configuration, its construction, and
    `doRequest` as the step-by-step procedure the source runs, checked
    against the specification in module Pipeline. */
module ServiceClient {
  import opened Format
  import opened Errors
  import opened Http
  import opened Pipeline

  /** Go's `time.Duration`: a count of nanoseconds. */
  type Duration = int

  const Millisecond: Duration := 1_000_000
  const Second: Duration := 1_000 * Millisecond

  newtype uint32 = x: int | 0 <= x < 0x1_0000_0000

  /** The breaker's failure counters (`gobreaker.Counts`), which a trip
      predicate looks at. */
  datatype Counts = Counts(
    requests: uint32,
    totalSuccesses: uint32,
    totalFailures: uint32,
    consecutiveSuccesses: uint32,
    consecutiveFailures: uint32)

  /** A `*zap.Logger`: one the caller supplies, the no-op logger, or one
      derived with `Named` or `With`. */
  datatype Logger =
    | Supplied(id: nat)
    | Nop
    | Named(parent: Logger, name: string)
    | With(parent: Logger, key: string, value: string)

  const DefaultTripThreshold: uint32 := 5

  /** The trip predicate `DefaultConfig` installs: the circuit opens once more
      than five failures in a row have been counted. */
  function DefaultReadyToTrip(counts: Counts): (trip: bool)
    ensures trip <==> counts.consecutiveFailures >= DefaultTripThreshold + 1
  {
    counts.consecutiveFailures > DefaultTripThreshold
  }

  const UnknownService := "unknown-service"

  /** The service name `New` settles on: the configured one, or a fixed
      placeholder when it is empty. */
  function NormalizeServiceName(name: string): (r: string)
    ensures r != ""
    ensures name != "" ==> r == name
    ensures name == "" ==> r == UnknownService
  {
    if name == "" then UnknownService else name
  }

  /** The logger `New` settles on: the configured one, or the no-op logger
      when there is none. */
  function NormalizeLogger(logger: Option<Logger>): (r: Logger)
    ensures logger.Some? ==> r == logger.value
    ensures logger.None? ==> r == Nop
  {
    match logger
    case Some(l) => l
    case None => Nop
  }

  /** `Config`: everything a client is built from. Callers may change any
      field before handing it to `New`. */
  class Config {
    var baseUrl: string
    var serviceName: string
    var timeout: Duration
    var logger: Option<Logger>

    var maxRequests: uint32
    var interval: Duration
    var breakerTimeout: Duration
    var readyToTrip: Option<Counts -> bool>

    var initialInterval: Duration
    var maxInterval: Duration
    var maxElapsedTime: Duration
    var multiplier: real
    var randomizationFactor: real

    /** A `Config` literal with every field given. */
    constructor (baseUrl: string, serviceName: string, timeout: Duration, logger: Option<Logger>,
                 maxRequests: uint32, interval: Duration, breakerTimeout: Duration,
                 readyToTrip: Option<Counts -> bool>,
                 initialInterval: Duration, maxInterval: Duration, maxElapsedTime: Duration,
                 multiplier: real, randomizationFactor: real)
      ensures this.baseUrl == baseUrl && this.serviceName == serviceName
      ensures this.timeout == timeout && this.logger == logger
      ensures this.maxRequests == maxRequests && this.interval == interval
      ensures this.breakerTimeout == breakerTimeout && this.readyToTrip == readyToTrip
      ensures this.initialInterval == initialInterval && this.maxInterval == maxInterval
      ensures this.maxElapsedTime == maxElapsedTime
      ensures this.multiplier == multiplier && this.randomizationFactor == randomizationFactor
    {
      this.baseUrl := baseUrl;
      this.serviceName := serviceName;
      this.timeout := timeout;
      this.logger := logger;
      this.maxRequests := maxRequests;
      this.interval := interval;
      this.breakerTimeout := breakerTimeout;
      this.readyToTrip := readyToTrip;
      this.initialInterval := initialInterval;
      this.maxInterval := maxInterval;
      this.maxElapsedTime := maxElapsedTime;
      this.multiplier := multiplier;
      this.randomizationFactor := randomizationFactor;
    }
  }

  /** `DefaultConfig`: a fresh configuration with the library's defaults. */
  method DefaultConfig(baseUrl: string, serviceName: string, logger: Option<Logger>) returns (cfg: Config)
    ensures fresh(cfg)
    ensures cfg.baseUrl == baseUrl && cfg.serviceName == serviceName && cfg.logger == logger
    ensures cfg.timeout == 10 * Second
    ensures cfg.maxRequests == 3
    ensures cfg.interval == 60 * Second && cfg.breakerTimeout == 30 * Second
    ensures cfg.readyToTrip.Some?
    ensures forall counts :: cfg.readyToTrip.value(counts) <==> counts.consecutiveFailures > 5
    ensures cfg.initialInterval == 100 * Millisecond && cfg.maxInterval == 5 * Second
    ensures cfg.maxElapsedTime == 30 * Second
    ensures cfg.multiplier == 2.0 && cfg.randomizationFactor == 0.5
  {
    cfg := new Config(baseUrl, serviceName, 10 * Second, logger,
                      3, 60 * Second, 30 * Second, Some(DefaultReadyToTrip),
                      100 * Millisecond, 5 * Second, 30 * Second, 2.0, 0.5);
  }

  /** What the circuit breaker is built with (`gobreaker.Settings`, without
      the state-change logging callback). */
  datatype BreakerSettings = BreakerSettings(
    name: string,
    maxRequests: uint32,
    interval: Duration,
    timeout: Duration,
    readyToTrip: Option<Counts -> bool>)

  /** What the exponential back-off is built with. */
  datatype BackoffSettings = BackoffSettings(
    initialInterval: Duration,
    maxInterval: Duration,
    maxElapsedTime: Duration,
    multiplier: real,
    randomizationFactor: real)

  const LoggerName := "service-client"
  const ServiceField := "service"

  /** `New`: fills in the missing logger and service name on `cfg` itself,
      then builds a client from it. */
  method New(cfg: Config) returns (c: Client)
    modifies cfg`logger, cfg`serviceName
    ensures cfg.logger == Some(NormalizeLogger(old(cfg.logger)))
    ensures cfg.serviceName == NormalizeServiceName(old(cfg.serviceName))
    ensures fresh(c)
    ensures c.baseUrl == cfg.baseUrl && c.serviceName == cfg.serviceName
    ensures c.httpTimeout == cfg.timeout
    ensures c.breaker == BreakerSettings(cfg.serviceName, cfg.maxRequests, cfg.interval,
                                         cfg.breakerTimeout, cfg.readyToTrip)
    ensures c.backoff == BackoffSettings(cfg.initialInterval, cfg.maxInterval, cfg.maxElapsedTime,
                                         cfg.multiplier, cfg.randomizationFactor)
    ensures c.tracerName == TracerName
    ensures c.logger == With(Named(cfg.logger.value, LoggerName), ServiceField, cfg.serviceName)
  {
    if cfg.logger.None? {
      cfg.logger := Some(Nop);
    }
    if cfg.serviceName == "" {
      cfg.serviceName := UnknownService;
    }
    var breaker := BreakerSettings(cfg.serviceName, cfg.maxRequests, cfg.interval,
                                   cfg.breakerTimeout, cfg.readyToTrip);
    var backoff := BackoffSettings(cfg.initialInterval, cfg.maxInterval, cfg.maxElapsedTime,
                                   cfg.multiplier, cfg.randomizationFactor);
    c := new Client(cfg.baseUrl, cfg.serviceName, cfg.timeout, breaker, backoff, TracerName,
                    With(Named(cfg.logger.value, LoggerName), ServiceField, cfg.serviceName));
  }

  /** Sets the default headers and then each caller header on a fresh
      request header map, walking the caller's map in an arbitrary order
      (Go's map iteration order is unspecified). */
  method MergeHeaders(caller: map<string, string>, canon: string -> string) returns (h: Header)
    ensures Merged(caller, canon, h)
    ensures InjectiveOn(canon, caller.Keys) ==>
      forall k :: k in caller ==> canon(k) in h && h[canon(k)] == [caller[k]]
  {
    var contentType, accept := canon(ContentTypeKey), canon(AcceptKey);
    h := map[];
    h := h[contentType := [JsonMediaType]];
    h := h[accept := [JsonMediaType]];
    var pending := caller.Keys;
    ghost var done: set<string> := {};
    while pending != {}
      invariant pending !! done && pending + done == caller.Keys
      invariant h.Keys == {contentType, accept} + CanonicalKeys(done, canon)
      invariant forall key :: key in h && key in CanonicalKeys(done, canon) ==>
        exists k :: k in done && canon(k) == key && h[key] == [caller[k]]
      invariant contentType !in CanonicalKeys(done, canon) ==> h[contentType] == [JsonMediaType]
      invariant accept !in CanonicalKeys(done, canon) ==> h[accept] == [JsonMediaType]
      decreases pending
    {
      var k :| k in pending;
      ghost var before := h;
      h := h[canon(k) := [caller[k]]];
      assert CanonicalKeys(done + {k}, canon) == CanonicalKeys(done, canon) + {canon(k)};
      forall key | key in h && key in CanonicalKeys(done + {k}, canon)
        ensures exists k' :: k' in done + {k} && canon(k') == key && h[key] == [caller[k']]
      {
        if key != canon(k) {
          assert key in CanonicalKeys(done, canon);
          var k' :| k' in done && canon(k') == key && before[key] == [caller[k']];
        }
      }
      pending := pending - {k};
      done := done + {k};
    }
    if InjectiveOn(canon, caller.Keys) {
      MergedCallerWins(caller, canon, h);
    }
  }

  /** The back-off loop around the breaker (`backoff.Retry` with the
      operation the source passes it): one attempt per iteration, stopping on
      a response, on a permanent error, or when no retry is left. Also
      collects the errors the span records from inside the attempts. */
  method Retry(transport: nat -> Attempt, retries: nat)
    returns (result: Result<Response>, attempts: nat, recorded: seq<Error>)
    ensures RunResult(result, attempts) == Run(transport, retries)
    ensures recorded == RecordedErrors(transport, attempts)
  {
    attempts := 0;
    recorded := [];
    result := Err(Plain(""));
    var left := retries;
    var stop := false;
    while !stop
      invariant !stop ==> attempts + left == retries
      invariant !stop ==> Run(transport, retries) == Backoff(Operation(transport), attempts, left)
      invariant stop ==> Run(transport, retries) == RunResult(result, attempts)
      invariant recorded == RecordedErrors(transport, attempts)
      decreases left, !stop
    {
      var attempt := transport(attempts);
      recorded := recorded + SpanErrorsOf(attempt);
      var outcome := Classify(attempt);
      assert Operation(transport)(attempts) == Decide(outcome);
      attempts := attempts + 1;
      match Decide(outcome)
      case Finish(response) =>
        result, stop := Ok(response), true;
      case GiveUp(e) =>
        result, stop := Err(e), true;
      case TryAgain(e) =>
        if left == 0 {
          result, stop := Err(e), true;
        } else {
          left := left - 1;
        }
    }
  }

  /** A client. Nothing in it changes after `New`; the breaker's own state
      lives in the breaker, which this model treats as a collaborator. */
  class Client {
    const baseUrl: string
    const serviceName: string
    const httpTimeout: Duration
    const breaker: BreakerSettings
    const backoff: BackoffSettings
    const tracerName: string
    const logger: Logger

    constructor (baseUrl: string, serviceName: string, httpTimeout: Duration,
                 breaker: BreakerSettings, backoff: BackoffSettings, tracerName: string, logger: Logger)
      ensures this.baseUrl == baseUrl && this.serviceName == serviceName
      ensures this.httpTimeout == httpTimeout && this.breaker == breaker && this.backoff == backoff
      ensures this.tracerName == tracerName && this.logger == logger
    {
      this.baseUrl := baseUrl;
      this.serviceName := serviceName;
      this.httpTimeout := httpTimeout;
      this.breaker := breaker;
      this.backoff := backoff;
      this.tracerName := tracerName;
      this.logger := logger;
    }

    /** `doRequest`. Returns what the call yields and what its span records,
        together with the header map the request was sent with (none when
        the call returns before the retry loop). */
    method DoRequest(req: Request, env: Collaborators) returns (out: Outcome, sent: Option<Header>)
      ensures out == Execute(baseUrl, serviceName, req, env)
      ensures sent.Some? <==> out.attempts > 0
      ensures sent.Some? ==> Merged(req.headers, env.canonicalKey, sent.value)
    {
      var span := OpenSpan(req.verb, req.path, baseUrl, serviceName);
      if req.body.Json? && req.body.encoded.Err? {
        var e := req.body.encoded.error;
        span := FailSpan(span, e);
        span := span.(ended := true);
        return Outcome(Err(Wrapped(MarshalContext, e)), span, 0), None;
      }
      if env.newRequestError.Some? {
        var e := env.newRequestError.value;
        span := FailSpan(span, e);
        span := span.(ended := true);
        return Outcome(Err(Wrapped(CreateRequestContext, e)), span, 0), None;
      }
      var header := MergeHeaders(req.headers, env.canonicalKey);
      sent := Some(header);
      var result, attempts, recorded := Retry(env.transport, env.retries);
      ghost var started := span;
      span := span.(errors := span.errors + recorded);
      match result
      case Err(e) =>
        span := FailSpan(span, e);
        span := span.(ended := true);
        out := Outcome(Err(Wrapped(RequestFailedContext, e)), span, attempts);
        assert out == Conclude(started, RunResult(result, attempts), recorded);
      case Ok(resp) =>
        span := span.(statusCode := Some(resp.statusCode));
        if resp.statusCode >= 400 {
          span := span.(status := StatusError("HTTP " + IntToString(resp.statusCode)));
        } else {
          span := span.(status := StatusOk("success"));
        }
        assert span.status == ResponseStatus(resp.statusCode);
        span := span.(ended := true);
        out := Outcome(Ok(resp), span, attempts);
        assert out == Conclude(started, RunResult(result, attempts), recorded);
    }

    /** `Get`: a call without a body. */
    method Get(path: string, headers: map<string, string>, env: Collaborators)
      returns (out: Outcome, sent: Option<Header>)
      ensures out == Execute(baseUrl, serviceName, Request(MethodGet, path, NoBody, headers), env)
      ensures sent.Some? <==> out.attempts > 0
      ensures sent.Some? ==> Merged(headers, env.canonicalKey, sent.value)
    {
      out, sent := DoRequest(Request(MethodGet, path, NoBody, headers), env);
    }

    /** `Post`. */
    method Post(path: string, body: Body, headers: map<string, string>, env: Collaborators)
      returns (out: Outcome, sent: Option<Header>)
      ensures out == Execute(baseUrl, serviceName, Request(MethodPost, path, body, headers), env)
      ensures sent.Some? <==> out.attempts > 0
      ensures sent.Some? ==> Merged(headers, env.canonicalKey, sent.value)
    {
      out, sent := DoRequest(Request(MethodPost, path, body, headers), env);
    }

    /** `Put`. */
    method Put(path: string, body: Body, headers: map<string, string>, env: Collaborators)
      returns (out: Outcome, sent: Option<Header>)
      ensures out == Execute(baseUrl, serviceName, Request(MethodPut, path, body, headers), env)
      ensures sent.Some? <==> out.attempts > 0
      ensures sent.Some? ==> Merged(headers, env.canonicalKey, sent.value)
    {
      out, sent := DoRequest(Request(MethodPut, path, body, headers), env);
    }

    /** `Patch`. */
    method Patch(path: string, body: Body, headers: map<string, string>, env: Collaborators)
      returns (out: Outcome, sent: Option<Header>)
      ensures out == Execute(baseUrl, serviceName, Request(MethodPatch, path, body, headers), env)
      ensures sent.Some? <==> out.attempts > 0
      ensures sent.Some? ==> Merged(headers, env.canonicalKey, sent.value)
    {
      out, sent := DoRequest(Request(MethodPatch, path, body, headers), env);
    }

    /** `Delete`: a call without a body. */
    method Delete(path: string, headers: map<string, string>, env: Collaborators)
      returns (out: Outcome, sent: Option<Header>)
      ensures out == Execute(baseUrl, serviceName, Request(MethodDelete, path, NoBody, headers), env)
      ensures sent.Some? <==> out.attempts > 0
      ensures sent.Some? ==> Merged(headers, env.canonicalKey, sent.value)
    {
      out, sent := DoRequest(Request(MethodDelete, path, NoBody, headers), env);
    }
  }
}
