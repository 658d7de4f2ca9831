# shared-service-client: the request pipeline, modelled in Dafny

`serviceclient` is a Go library that wraps outbound HTTP calls between
services. It adds retries with exponential back-off, a circuit breaker, one
trace span per call and structured logging. This project models the
decisions the library makes in `client.go`:

- how one attempt's result is classified (transport error, 5xx or 429, any
  other reply);
- which errors `isRetryableError` lets the back-off loop retry;
- what the retry operation tells the back-off loop, and how a whole call
  ends;
- which headers a request carries;
- what the call's span records, and the early exits before any attempt;
- the defaults of `DefaultConfig` and the normalisation `New` applies;
- `Response.IsSuccess`.

It proves properties of each.

Modules, one per concern:

- `Format` (format.dfy): Go's `%d` and `string([]byte)`, with a round-trip
  lemma for the decimal rendering.
- `Errors` (errors.dfy): Go error values (`Plain` messages and
  `fmt.Errorf("…: %w")` wrappers), `err.Error()`, `errors.Is`, and
  `isRetryableError`.
- `Http` (http.dfy): header maps and `Response`.
- `Pipeline` (pipeline.dfy): the decision logic of `doRequest` as pure
  functions. `Classify` handles one attempt and `Decide` the retry step.
  `Backoff` is the back-off loop over any operation, `Operation` is the
  operation the client hands it, `Run` is the two together, and `Execute`
  is a whole call. The
  header merge is the predicate `Merged`, and the span is a value record.
- `ServiceClient` (client.dfy): the imperative side.
  - `Config` is a class whose fields `New` updates in place.
  - `DefaultConfig` and `New` build the configuration and the client.
  - `MergeHeaders` is the loop that `Set`s each header on the request's
    header map.
  - `Retry` is the back-off loop, one attempt per iteration.
  - `Client.DoRequest` and the five verb methods are proved equal to
    `Pipeline.Execute`.
- `PipelineProperties` (properties.dfy): lemmas about the specification.

Collaborators become inputs, grouped in `Pipeline.Collaborators`:

- whether building the `http.Request` failed;
- the header-key canonicalisation (an opaque function);
- the result of attempt number `k`: a breaker refusal, a transport error, a
  body-read error, or a reply with status, headers and body;
- how many retries the back-off policy grants before it stops. This count
  stands in for the elapsed-time ceiling of a policy that does stop (see
  "Left out" for one that never does).

Whether the JSON encoding of the body succeeded is part of the `Request`.

What the code does, as opposed to what its comments say: the comments at
client.go:227 and client.go:295 call 5xx and 429 replies retryable. But the
error built for them at client.go:229 has the message
`retryable status N: …`. `isRetryableError` only accepts four exact
messages, so such an error is made permanent on the first attempt. The model
follows the code. `RetryableStatusStopsAfterOneAttempt`,
`RetryableStatusFailsCall` and `ServiceUnavailableThenOk` state the
consequence: a 503 is never retried, and a target that answers 503, 503,
200 makes the call fail after one attempt. The same holds for body-read
failures (`ReadFailureIsPermanent`).

## Model

| member | source | states |
|---|---|---|
| `Format.IntToString` | client.go:273 | Go's `%d`: a non-empty rendering that starts with '-' exactly for negative values and is all digits otherwise |
| `Format.BytesToString` | client.go:229 | `string(b)`: one character per byte, with the same code |
| `Format.ParseNatToString` | client.go:229 | the `%d` rendering of a status reads back as the same number |
| `Format.IntToStringInjective` | client.go:229 | distinct integers render differently under `%d` |
| `Format.NumberAfterPrefixDetermined` | client.go:229 | a number written between a fixed prefix and a separator that does not start with a digit can be read back from the text, whatever follows |
| `Errors.IsRetryableError` | client.go:282-297 | nil is not retryable; a non-nil error is retryable iff its message is exactly one of "context deadline exceeded", "context canceled", "connection refused", "connection reset" |
| `Errors.NotRetryableUnlessLeadingC` | client.go:288-291 | an error whose message is empty or does not start with `c` is never retryable |
| `Errors.WrappedNotRetryable` | client.go:223-224 | an error wrapped with a context that is empty or does not start with `c` is never retryable |
| `Errors.Message` | client.go:224 | a plain error's message is its text; a wrapped error's message starts with its context and ": " |
| `Http.Response.IsSuccess` | client.go:305-307 | true iff the status is in the 2xx class (status / 100 == 2) |
| `Pipeline.RetryableStatusError` | client.go:229 | the 5xx/429 error is a plain message (no wrapped cause) starting "retryable status " |
| `Pipeline.RefusalError` | client.go:213 | a breaker refusal is one of gobreaker's two plain errors: "circuit breaker is open" when open, "too many requests" when half-open and full |
| `Pipeline.Classify` | client.go:213-239 | an attempt yields a response iff it is a reply whose status is neither >= 500 nor 429, and that response has the reply's status, headers and body unchanged; a 5xx/429 reply yields the "retryable status" error; a refusal yields gobreaker's error; a transport error passes through as it is; a read error is wrapped with "read response" |
| `Pipeline.Decide` | client.go:241-250 | a response finishes the loop with that response; an error asks for another attempt iff its message is one of the four retryable strings, otherwise it is permanent; the error is kept unchanged |
| `Pipeline.Backoff` | client.go:211-251 | the loop makes at least one attempt and at most one more than the retries the policy grants |
| `Pipeline.SpanErrorsOf` | client.go:214-217 | an attempt records an error on the span iff its transport call failed, and then exactly one |
| `Pipeline.TransportCalls` | client.go:213-214 | the transport is called at most once per pass through the breaker |
| `Pipeline.RecordedErrors` | client.go:214-217 | the span records at most one error per attempt |
| `Pipeline.MergedCallerWins` | client.go:197-200 | once merged, every caller header has its own value, when no two caller keys share a canonical key |
| `Pipeline.OpenSpan` | client.go:164-169 | the span is named "METHOD path", carries the method, the full URL and the service name as attributes, and starts with no errors, no status code, no status, not ended |
| `Pipeline.ResponseStatus` | client.go:271-276 | for a returned response the span status is Error "HTTP n" iff n >= 400, otherwise Ok "success" |
| `Pipeline.FailSpan` | client.go:254-255 | a failure appends the error to the span's recorded errors and sets status Error with its message, leaving the rest unchanged |
| `Pipeline.Conclude` | client.go:253-278 | after the loop, an error is returned wrapped in "request failed" and recorded on the span after the attempts' errors, with status Error and its message; a response is returned as it is and sets the status-code attribute and the status from `ResponseStatus`; the span ends either way |
| `Pipeline.Abort` | client.go:174-191 | an early return makes no attempt, returns the error wrapped with its context, and ends the span with that error recorded |
| `Pipeline.Execute` | client.go:162-279 | the span always ends; no attempt is made iff the body fails to encode or the request cannot be built, and then the error says which; at most retries + 1 attempts; every returned error is a wrapper whose cause is the span's status message; a response sets the status code attribute and the status from `ResponseStatus` |
| `ServiceClient.DefaultReadyToTrip` | client.go:66-68 | the default trip predicate holds iff at least six consecutive failures have been counted |
| `ServiceClient.NormalizeServiceName` | client.go:86-88 | the resulting name is never empty; a non-empty name is kept; an empty one becomes "unknown-service" |
| `ServiceClient.NormalizeLogger` | client.go:81-83 | a supplied logger is kept; a missing one becomes the no-op logger |
| `ServiceClient.Config.constructor` | client.go:34-52 | a configuration holds exactly the field values it is given |
| `ServiceClient.DefaultConfig` | client.go:55-77 | a fresh configuration with the given base URL, name and logger, and timeout 10 s, 3 half-open requests, interval 60 s, breaker timeout 30 s, trip at more than 5 consecutive failures, back-off 100 ms to 5 s within 30 s, multiplier 2.0 and jitter 0.5 |
| `ServiceClient.New` | client.go:80-128 | updates only the configuration's logger and service name, normalising them; the fresh client takes the base URL, service name, timeout, breaker settings (named after the service) and back-off settings from the updated configuration, and a logger named "service-client" carrying the service name |
| `ServiceClient.MergeHeaders` | client.go:193-200 | the header map holds exactly Content-Type, Accept and the caller's canonical keys; each caller key holds a caller value, and its own value when canonical keys do not collide; Content-Type and Accept are application/json unless a caller header overrides them |
| `ServiceClient.Retry` | client.go:210-251 | the loop's result and attempt count are those of `Pipeline.Run`, and the errors it records are those of `Pipeline.RecordedErrors` |
| `ServiceClient.Client.constructor` | client.go:119-127 | a client holds exactly the settings it is built with |
| `ServiceClient.Client.DoRequest` | client.go:162-279 | the call's result, span and attempt count are those of `Pipeline.Execute`; headers are sent iff an attempt is made, and they satisfy `Merged` |
| `ServiceClient.Client.Get` | client.go:138-140 | a GET call without a body, as `Execute` describes it; headers are sent iff an attempt is made, and they satisfy `Merged` |
| `ServiceClient.Client.Post` | client.go:143-145 | a POST call with the given body, as `Execute` describes it; headers are sent iff an attempt is made, and they satisfy `Merged` |
| `ServiceClient.Client.Put` | client.go:148-150 | a PUT call with the given body, as `Execute` describes it; headers are sent iff an attempt is made, and they satisfy `Merged` |
| `ServiceClient.Client.Patch` | client.go:153-155 | a PATCH call with the given body, as `Execute` describes it; headers are sent iff an attempt is made, and they satisfy `Merged` |
| `ServiceClient.Client.Delete` | client.go:158-160 | a DELETE call without a body, as `Execute` describes it; headers are sent iff an attempt is made, and they satisfy `Merged` |
| `PipelineProperties.RetryableStatusErrorIsPermanent` | client.go:228-229 | the error built for a 5xx or 429 reply is never retryable, so the retry step makes it permanent |
| `PipelineProperties.RetryableStatusErrorNamesStatus` | client.go:229 | two 5xx/429 replies with different statuses give different errors, whatever their bodies |
| `PipelineProperties.RefusalIsPermanent` | client.go:241-244 | neither of gobreaker's refusal errors is retryable, so a refusal is made permanent |
| `PipelineProperties.ReadFailureIsPermanent` | client.go:223-224 | a body-read failure is made permanent |
| `PipelineProperties.RetriedExactlyOnTransientMessages` | client.go:241-246 | an attempt asks for another one iff it was a transport error whose message is one of the four strings |
| `PipelineProperties.StepResultOfDecide` | client.go:241-250 | the retry step carries exactly the attempt result it was decided on: the response, or the error unwrapped |
| `PipelineProperties.BackoffResultIsLastStep` | client.go:211-251 | the loop's result is the result carried by its last step |
| `PipelineProperties.BackoffGoesOnOnlyPastRetries` | client.go:211-251 | every step before the last asked for another attempt |
| `PipelineProperties.BackoffStopsEarlyOnlyWhenTerminal` | client.go:211-251 | the loop stops before the budget is spent only on a step that did not ask for another attempt |
| `PipelineProperties.BackoffEndsAtTerminal` | client.go:211-251 | a step the loop reaches that does not ask for another attempt is its last |
| `PipelineProperties.BackoffDeterminedByFirstTerminal` | client.go:211-251 | conversely, the first step that does not ask for another attempt (or the last one the budget grants) determines the loop's result and attempt count |
| `PipelineProperties.RunResultIsLastAttempt` | client.go:211-251 | the client's loop returns its last attempt's classified result |
| `PipelineProperties.RetryableStatusStopsAfterOneAttempt` | client.go:228-229 | a 5xx/429 first reply ends the loop after one attempt with that reply's error, whatever the budget |
| `PipelineProperties.OnlyTransientFailuresAreRetried` | client.go:241-246 | every attempt but the last was a transport error with one of the four messages |
| `PipelineProperties.RecordedErrorsComeFromTransport` | client.go:214-217 | each error recorded inside the attempts is the error of a failed transport call among them |
| `PipelineProperties.OneRecordedErrorPerTransportFailure` | client.go:214-217 | the span records exactly as many errors inside the attempts as there were failed transport calls |
| `PipelineProperties.OneTransportCallPerAdmittedAttempt` | client.go:213-214 | the transport is called exactly once per pass the breaker does not refuse |
| `PipelineProperties.EarlyFailureMakesNoAttempt` | client.go:174-191 | a marshal failure or a request-construction failure returns an error with zero attempts, "marshal request body" or "create request" as its context, and the span records only that error |
| `PipelineProperties.SuccessIsLastReplyUnchanged` | client.go:228-238 | a returned response is the last attempt's reply unchanged, not 5xx or 429, and every earlier attempt was a transport error with one of the four messages |
| `PipelineProperties.FailureWrapsLastAttemptError` | client.go:253-261 | a failed call returns "request failed" wrapped around the last attempt's error, which is on its `errors.Is` chain; unless the budget ran out that error was permanent |
| `PipelineProperties.FailureSpanRecordsCause` | client.go:253-255 | the span of such a call records the failed transport calls' errors and then the returned cause, with status Error and the cause's message |
| `PipelineProperties.SpanStatusOfResponse` | client.go:271-276 | for a returned response the span's status code is set; a 2xx gives Ok "success"; the status is Ok iff the code is below 400 (so 1xx and 3xx are Ok); from 400 on it is Error "HTTP n" |
| `PipelineProperties.RetryableStatusFailsCall` | client.go:227-230 | a 5xx/429 first reply fails the whole call after exactly one attempt |
| `PipelineProperties.RefusalIsLastAttempt` | client.go:241-251 | a refusal the loop reaches is its last attempt, and the loop returns gobreaker's error |
| `PipelineProperties.RefusalEndsCall` | client.go:241-261 | a breaker refusal ends the call at that attempt with "request failed" wrapped around gobreaker's error |
| `PipelineProperties.RefusalSpan` | client.go:213-217 | a refusal adds no span error of its own; the span then records gobreaker's error with status Error and its message |
| `PipelineProperties.FirstRefusalMakesNoTransportCall` | client.go:211-261 | a breaker that refuses the first attempt fails the call after one pass and zero transport calls, with only gobreaker's error on the span |
| `PipelineProperties.ServiceUnavailableThenOk` | client.go:229 | a target answering 503, 503, 200 fails the call after one attempt with message "request failed: retryable status 503: <body>" |
| `PipelineProperties.ServiceUnavailableMessage` | client.go:261 | the message of a call that failed on a 503 reply is "request failed: retryable status 503: " followed by the body |
| `PipelineProperties.NotFoundIsReturned` | client.go:232-238 | a 404 reply is returned after one attempt, unchanged, is not a success, and the span says "HTTP 404" |
| `PipelineProperties.NoRetriesMeansOneAttempt` | client.go:211 | with no retries granted, a call that reaches the loop makes exactly one attempt |
| `PipelineProperties.MergedIsOrderIndependent` | client.go:198-200 | when no two caller keys share a canonical key, the merged headers do not depend on the order the caller's map is walked in |

## Left out

- The HTTP transport is not modelled. That covers `http.Client.Do`, `io.ReadAll`, closing the body, and how `http.NewRequestWithContext` builds and validates a request. Each attempt's result and the construction failure are inputs. Reusing one request and body reader across attempts is I/O behaviour and is not modelled.
- The transport's error messages are taken as given. In practice `http.Client.Do` wraps its errors with the method and URL. Those wrapped messages would never equal the four strings. `net/http` is not part of this model, so the model retries whatever message the attempt reports.
- The circuit breaker's Closed/Open/Half-Open state machine, its counters and its interval logic are not modelled, because `gobreaker` is not part of this model. A refusal is an attempt of kind `Rejected`, carrying which of gobreaker's two refusals it is (open state, or too many requests while half-open); their messages are gobreaker's `ErrOpenState` and `ErrTooManyRequests`. Which attempts the breaker refuses is an input. Panics inside the breaker are not modelled either.
- `Backoff`, `Execute`: the bound of at most retries + 1 attempts holds only for a back-off policy that stops. An `ExponentialBackOff` whose `MaxElapsedTime` is 0 never stops, which is the value in any `Config` not built by `DefaultConfig`. With such a policy, a transport that keeps failing with one of the four messages is retried without end. A finite `retries` cannot express that policy, so the model does not capture it.
- The one `ExponentialBackOff` that `New` builds (client.go:112) is stored in the client and handed to every call's `backoff.Retry`, which resets it. That object is not safe for concurrent use. Concurrent calls would share and reset one elapsed-time clock, while the model gives each call its own independent budget. This sharing is not modelled.
- Back-off timing is not modelled: the delays, the jitter, the float multiplier and the wall-clock `MaxElapsedTime`. The number of retries granted before the policy stops is an input instead.
- `Decide`/`Backoff` rely on one behaviour of `cenkalti/backoff` as the client uses it. A permanent error ends the loop and is returned unwrapped. When the policy stops, the last error is returned. That library is not part of this model.
- Context cancellation and deadlines are not modelled, so the case where `backoff.WithContext` returns the context's error instead of the last one is absent. Concurrent use of the shared breaker is not modelled either.
- JSON encoding (`json.Marshal`) and `Response.DecodeJSON` are not modelled. Whether the body encodes is an input, and decoding is outside the model.
- zap logging is not modelled: the request, response and failure log lines, and the breaker's state-change callback. A `Logger` value records only how `New` derives the client's logger.
- OpenTelemetry is reduced to a value: the span's name, start attributes, recorded errors, status-code attribute, status and whether it ended. Span creation, export and attribute types are not modelled.
- `Duration` is an unbounded count of nanoseconds. Go's int64 overflow cannot arise with the constants used here. `Counts` fields are bounded to 32 bits with no wrap-around, because the model never increments them.
- `MergeHeaders`: when two caller keys share a canonical key, the model does not fix which value wins. Go's map iteration order is unspecified, so the model only says the value is one of theirs.
