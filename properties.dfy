/** What the request pipeline of client.go guarantees, stated over the
    specification in module Pipeline (and hence, through the contracts of
    `Client.DoRequest`, over the client itself). */
module PipelineProperties {
  import opened Format
  import opened Errors
  import opened Http
  import opened Pipeline

  // ---------------------------------------------------------------------
  // One attempt

  /** The error built for a 5xx or 429 reply is never retryable: its message
      starts with "retryable status", which is none of the four strings. */
  lemma RetryableStatusErrorIsPermanent(status: int, body: seq<byte>)
    ensures !IsRetryableError(Some(RetryableStatusError(status, body)))
    ensures Decide(Err(RetryableStatusError(status, body))) == GiveUp(RetryableStatusError(status, body))
  {
    var e := RetryableStatusError(status, body);
    assert Message(e)[0] == RetryableStatusPrefix[0];
    NotRetryableUnlessLeadingC(e);
  }

  /** The error built for a 5xx or 429 reply names its status: two replies
      with different statuses give different errors, whatever their bodies. */
  lemma RetryableStatusErrorNamesStatus(status1: int, body1: seq<byte>, status2: int, body2: seq<byte>)
    requires IsRetryableStatus(status1) && IsRetryableStatus(status2)
    requires RetryableStatusError(status1, body1) == RetryableStatusError(status2, body2)
    ensures status1 == status2
  {
    NumberAfterPrefixDetermined(RetryableStatusPrefix, status1, status2, ": ", BytesToString(body1), BytesToString(body2));
  }

  /** A failure to read the body is never retryable either. */
  lemma ReadFailureIsPermanent(cause: Error)
    ensures Decide(Classify(ReadFailed(cause))).GiveUp?
  {
    WrappedNotRetryable(ReadResponseContext, cause);
  }

  /** A refusal by the breaker is permanent: neither of gobreaker's two
      errors has one of the four fixed messages. */
  lemma RefusalIsPermanent(why: Refusal)
    ensures !IsRetryableError(Some(RefusalError(why)))
    ensures Decide(Classify(Rejected(why))) == GiveUp(RefusalError(why))
  {
    assert |BreakerOpenMessage| == 23 && |TooManyRequestsMessage| == 17;
  }

  /** An attempt asks for another one exactly when the transport failed with
      one of the four fixed messages. */
  lemma RetriedExactlyOnTransientMessages(a: Attempt)
    ensures Decide(Classify(a)).TryAgain? <==>
      a.TransportFailed? && Message(a.err) in RetryableMessages
  {
    match a
    case Rejected(why) =>
      RefusalIsPermanent(why);
    case Replied(status, _, body) =>
      if IsRetryableStatus(status) {
        RetryableStatusErrorIsPermanent(status, body);
      }
    case ReadFailed(cause) =>
      ReadFailureIsPermanent(cause);
    case _ =>
  }

  // ---------------------------------------------------------------------
  // The retry loop

  /** A step carries the very result it was decided on. */
  lemma StepResultOfDecide(r: Result<Response>)
    ensures StepResult(Decide(r)) == r
  {
  }

  /** The loop's result is always its last step's own result. */
  lemma {:induction false} BackoffResultIsLastStep(op: nat -> Step, k: nat, retries: nat)
    ensures Backoff(op, k, retries).result == StepResult(op(Backoff(op, k, retries).attempts - 1))
    decreases retries
  {
    if op(k).TryAgain? && retries > 0 {
      BackoffResultIsLastStep(op, k + 1, retries - 1);
    }
  }

  /** The loop goes on only past steps that asked for another attempt. */
  lemma {:induction false} BackoffGoesOnOnlyPastRetries(op: nat -> Step, k: nat, retries: nat, j: nat)
    requires k <= j < Backoff(op, k, retries).attempts - 1
    ensures op(j).TryAgain?
    decreases retries
  {
    if j > k {
      BackoffGoesOnOnlyPastRetries(op, k + 1, retries - 1, j);
    }
  }

  /** The loop stops before its budget runs out only on a step that did not
      ask for another attempt. */
  lemma {:induction false} BackoffStopsEarlyOnlyWhenTerminal(op: nat -> Step, k: nat, retries: nat)
    requires Backoff(op, k, retries).attempts < k + retries + 1
    ensures !op(Backoff(op, k, retries).attempts - 1).TryAgain?
    decreases retries
  {
    if op(k).TryAgain? && retries > 0 {
      BackoffStopsEarlyOnlyWhenTerminal(op, k + 1, retries - 1);
    }
  }

  /** A step the loop reaches that does not ask for another attempt is its
      last. */
  lemma {:induction false} BackoffEndsAtTerminal(op: nat -> Step, k: nat, retries: nat, j: nat)
    requires k <= j < Backoff(op, k, retries).attempts && !op(j).TryAgain?
    ensures Backoff(op, k, retries).attempts == j + 1
    decreases retries
  {
    if j > k {
      BackoffEndsAtTerminal(op, k + 1, retries - 1, j);
    }
  }

  /** Conversely, the first step that does not ask for another attempt, or
      the last one the budget grants, decides the whole loop. */
  lemma {:induction false} BackoffDeterminedByFirstTerminal(op: nat -> Step, k: nat, retries: nat, n: nat)
    requires k < n <= k + retries + 1
    requires forall j :: k <= j < n - 1 ==> op(j).TryAgain?
    requires n < k + retries + 1 ==> !op(n - 1).TryAgain?
    ensures Backoff(op, k, retries) == RunResult(StepResult(op(n - 1)), n)
    decreases retries
  {
    if n > k + 1 {
      assert op(k).TryAgain? && retries > 0;
      BackoffDeterminedByFirstTerminal(op, k + 1, retries - 1, n);
    }
  }

  /** A refusal by the breaker is the loop's last attempt, and the loop
      returns gobreaker's error. */
  lemma RefusalIsLastAttempt(transport: nat -> Attempt, retries: nat, j: nat)
    requires j < Run(transport, retries).attempts && transport(j).Rejected?
    ensures Run(transport, retries) == RunResult(Err(RefusalError(transport(j).why)), j + 1)
  {
    var op := Operation(transport);
    RefusalIsPermanent(transport(j).why);
    assert op(j) == GiveUp(RefusalError(transport(j).why));
    BackoffEndsAtTerminal(op, 0, retries, j);
    BackoffResultIsLastStep(op, 0, retries);
  }

  /** The client's loop returns its last attempt's classified result. */
  lemma RunResultIsLastAttempt(transport: nat -> Attempt, retries: nat)
    ensures Run(transport, retries).result == Classify(transport(Run(transport, retries).attempts - 1))
  {
    var run := Run(transport, retries);
    BackoffResultIsLastStep(Operation(transport), 0, retries);
    StepResultOfDecide(Classify(transport(run.attempts - 1)));
  }

  /** When the first attempt gets a 5xx or 429 reply, the loop stops right
      there with that reply's error, however many retries are left: the
      statuses commented as retryable are in fact never retried. */
  lemma RetryableStatusStopsAfterOneAttempt(transport: nat -> Attempt, retries: nat)
    requires transport(0).Replied? && IsRetryableStatus(transport(0).status)
    ensures Run(transport, retries) ==
      RunResult(Err(RetryableStatusError(transport(0).status, transport(0).body)), 1)
  {
    RetryableStatusErrorIsPermanent(transport(0).status, transport(0).body);
    assert Operation(transport)(0) == GiveUp(RetryableStatusError(transport(0).status, transport(0).body));
  }

  /** Every attempt but the last was a transport failure with one of the
      four fixed messages. */
  lemma OnlyTransientFailuresAreRetried(transport: nat -> Attempt, retries: nat, j: nat)
    requires j < Run(transport, retries).attempts - 1
    ensures transport(j).TransportFailed? && Message(transport(j).err) in RetryableMessages
  {
    BackoffGoesOnOnlyPastRetries(Operation(transport), 0, retries, j);
    RetriedExactlyOnTransientMessages(transport(j));
  }

  /** Every error the span records inside the attempts is the error of one
      of those attempts' failed transport calls. */
  lemma {:induction false} RecordedErrorsComeFromTransport(transport: nat -> Attempt, n: nat)
    ensures forall e :: e in RecordedErrors(transport, n) ==>
      exists j :: 0 <= j < n && transport(j) == TransportFailed(e)
  {
    if n > 0 {
      RecordedErrorsComeFromTransport(transport, n - 1);
      assert RecordedErrors(transport, n) == RecordedErrors(transport, n - 1) + SpanErrorsOf(transport(n - 1));
    }
  }

  /** The span records exactly one error per failed transport call. */
  lemma {:induction false} OneRecordedErrorPerTransportFailure(transport: nat -> Attempt, n: nat)
    ensures |RecordedErrors(transport, n)| == |set j | 0 <= j < n && transport(j).TransportFailed?|
  {
    if n > 0 {
      OneRecordedErrorPerTransportFailure(transport, n - 1);
      var before := set j | 0 <= j < n - 1 && transport(j).TransportFailed?;
      var after := set j | 0 <= j < n && transport(j).TransportFailed?;
      if transport(n - 1).TransportFailed? {
        assert after == before + {n - 1};
      } else {
        assert after == before;
      }
    }
  }

  /** The transport is called once per pass the breaker admits. */
  lemma {:induction false} OneTransportCallPerAdmittedAttempt(transport: nat -> Attempt, n: nat)
    ensures TransportCalls(transport, n) == |set j | 0 <= j < n && !transport(j).Rejected?|
  {
    if n > 0 {
      OneTransportCallPerAdmittedAttempt(transport, n - 1);
      var before := set j | 0 <= j < n - 1 && !transport(j).Rejected?;
      var after := set j | 0 <= j < n && !transport(j).Rejected?;
      if transport(n - 1).Rejected? {
        assert after == before;
      } else {
        assert after == before + {n - 1};
      }
    }
  }

  // ---------------------------------------------------------------------
  // A whole call

  predicate ReachesLoop(req: Request, env: Collaborators) {
    !EncodingFails(req.body) && env.newRequestError.None?
  }

  /** A marshalling failure or a request-construction failure ends the call
      before any attempt, with the span recording that error alone. */
  lemma EarlyFailureMakesNoAttempt(baseUrl: string, serviceName: string, req: Request, env: Collaborators)
    requires !ReachesLoop(req, env)
    ensures var out := Execute(baseUrl, serviceName, req, env);
      && out.attempts == 0
      && out.result.Err?
      && out.result.error.context == (if EncodingFails(req.body) then MarshalContext else CreateRequestContext)
      && out.span.errors == [out.result.error.cause]
      && out.span.statusCode.None?
  {
  }

  /** A call that returns a response returns the last attempt's reply as it
      came, which was neither 5xx nor 429; every earlier attempt was a
      transient failure. */
  lemma SuccessIsLastReplyUnchanged(baseUrl: string, serviceName: string, req: Request, env: Collaborators)
    requires Execute(baseUrl, serviceName, req, env).result.Ok?
    ensures var out := Execute(baseUrl, serviceName, req, env);
      var r := out.result.value;
      && out.attempts >= 1
      && env.transport(out.attempts - 1) == Replied(r.statusCode, r.headers, r.body)
      && !IsRetryableStatus(r.statusCode)
      && (forall j :: 0 <= j < out.attempts - 1 ==>
            env.transport(j).TransportFailed? && Message(env.transport(j).err) in RetryableMessages)
  {
    RunResultIsLastAttempt(env.transport, env.retries);
    var out := Execute(baseUrl, serviceName, req, env);
    forall j | 0 <= j < out.attempts - 1
      ensures env.transport(j).TransportFailed? && Message(env.transport(j).err) in RetryableMessages
    {
      OnlyTransientFailuresAreRetried(env.transport, env.retries, j);
    }
  }

  /** A call that fails after reaching the loop returns "request failed"
      wrapped around the last attempt's own error, which `errors.Is` finds;
      unless the budget ran out, that error was a permanent one. */
  lemma FailureWrapsLastAttemptError(baseUrl: string, serviceName: string, req: Request, env: Collaborators)
    requires ReachesLoop(req, env)
    requires Execute(baseUrl, serviceName, req, env).result.Err?
    ensures var out := Execute(baseUrl, serviceName, req, env);
      var cause := out.result.error.cause;
      && out.attempts >= 1
      && out.result.error == Wrapped(RequestFailedContext, cause)
      && Classify(env.transport(out.attempts - 1)) == Err(cause)
      && InChain(out.result.error, cause)
      && (out.attempts <= env.retries ==> Decide(Err(cause)).GiveUp?)
  {
    var run := Run(env.transport, env.retries);
    var out := Execute(baseUrl, serviceName, req, env);
    assert out.attempts == run.attempts && out.result == Err(Wrapped(RequestFailedContext, run.result.error));
    RunResultIsLastAttempt(env.transport, env.retries);
    if run.attempts <= env.retries {
      BackoffStopsEarlyOnlyWhenTerminal(Operation(env.transport), 0, env.retries);
    }
  }

  /** The span of a call that fails after reaching the loop records the
      errors of the failed transport calls and then the error returned from
      the loop, and has status Error with that error's message. */
  lemma FailureSpanRecordsCause(baseUrl: string, serviceName: string, req: Request, env: Collaborators)
    requires ReachesLoop(req, env)
    requires Execute(baseUrl, serviceName, req, env).result.Err?
    ensures var out := Execute(baseUrl, serviceName, req, env);
      var cause := out.result.error.cause;
      && out.span.errors == RecordedErrors(env.transport, out.attempts) + [cause]
      && out.span.status == StatusError(Message(cause))
  {
  }

  /** The span of a call that returns a response: Ok with "success" below
      400, so for every 2xx and also for 1xx and 3xx; otherwise an error
      naming the status. */
  lemma SpanStatusOfResponse(baseUrl: string, serviceName: string, req: Request, env: Collaborators)
    requires Execute(baseUrl, serviceName, req, env).result.Ok?
    ensures var out := Execute(baseUrl, serviceName, req, env);
      var r := out.result.value;
      && out.span.statusCode == Some(r.statusCode)
      && (r.IsSuccess() ==> out.span.status == StatusOk("success"))
      && (out.span.status.StatusOk? <==> r.statusCode < 400)
      && (r.statusCode >= 400 ==> out.span.status == StatusError("HTTP " + IntToString(r.statusCode)))
  {
  }

  /** A 5xx or 429 on the first attempt fails the call at once, with no
      second attempt, whatever the later attempts would have returned. */
  lemma RetryableStatusFailsCall(baseUrl: string, serviceName: string, req: Request, env: Collaborators)
    requires ReachesLoop(req, env)
    requires env.transport(0).Replied? && IsRetryableStatus(env.transport(0).status)
    ensures var out := Execute(baseUrl, serviceName, req, env);
      var cause := RetryableStatusError(env.transport(0).status, env.transport(0).body);
      && out.attempts == 1
      && out.result == Err(Wrapped(RequestFailedContext, cause))
      && out.span.status == StatusError(Message(cause))
  {
    RetryableStatusStopsAfterOneAttempt(env.transport, env.retries);
  }

  /** A refusal by the breaker ends the call at that attempt: the call fails
      with "request failed" wrapped around gobreaker's error. */
  lemma RefusalEndsCall(baseUrl: string, serviceName: string, req: Request, env: Collaborators, j: nat)
    requires ReachesLoop(req, env)
    requires j < Execute(baseUrl, serviceName, req, env).attempts && env.transport(j).Rejected?
    ensures var out := Execute(baseUrl, serviceName, req, env);
      && out.attempts == j + 1
      && out.result == Err(Wrapped(RequestFailedContext, RefusalError(env.transport(j).why)))
  {
    RefusalIsLastAttempt(env.transport, env.retries, j);
  }

  /** The span of a call a refusal ended records no error of the refusal's
      own before gobreaker's error, and has status Error with its message. */
  lemma RefusalSpan(baseUrl: string, serviceName: string, req: Request, env: Collaborators, j: nat)
    requires ReachesLoop(req, env)
    requires j < Execute(baseUrl, serviceName, req, env).attempts && env.transport(j).Rejected?
    ensures var out := Execute(baseUrl, serviceName, req, env);
      var cause := RefusalError(env.transport(j).why);
      && RecordedErrors(env.transport, j + 1) == RecordedErrors(env.transport, j)
      && out.span.errors == RecordedErrors(env.transport, j) + [cause]
      && out.span.status == StatusError(Message(cause))
  {
    RefusalEndsCall(baseUrl, serviceName, req, env, j);
    FailureSpanRecordsCause(baseUrl, serviceName, req, env);
    assert RecordedErrors(env.transport, j + 1) == RecordedErrors(env.transport, j) + SpanErrorsOf(env.transport(j));
  }

  /** A breaker that refuses the first attempt (open, or half-open and
      full) fails the call after that one pass without calling the
      transport at all. */
  lemma FirstRefusalMakesNoTransportCall(baseUrl: string, serviceName: string, req: Request, env: Collaborators)
    requires ReachesLoop(req, env) && env.transport(0).Rejected?
    ensures var out := Execute(baseUrl, serviceName, req, env);
      var cause := RefusalError(env.transport(0).why);
      && out.attempts == 1
      && TransportCalls(env.transport, out.attempts) == 0
      && out.result == Err(Wrapped(RequestFailedContext, cause))
      && out.span.errors == [cause]
  {
    RefusalEndsCall(baseUrl, serviceName, req, env, 0);
    RefusalSpan(baseUrl, serviceName, req, env, 0);
  }

  /** A target answering 503, 503 and then 200 with `{"ok":true}`: the
      first 503 already ends the call, as
      "request failed: retryable status 503: <body>". */
  lemma ServiceUnavailableThenOk(baseUrl: string, serviceName: string, req: Request,
                                 env: Collaborators, h: Header, body503: seq<byte>, ok: seq<byte>)
    requires ReachesLoop(req, env) && env.retries >= 2
    requires env.transport(0) == Replied(503, h, body503) && env.transport(1) == Replied(503, h, body503)
    requires env.transport(2) == Replied(200, h, ok)
    ensures var out := Execute(baseUrl, serviceName, req, env);
      && out.attempts == 1
      && out.result.Err?
      && Message(out.result.error)
         == RequestFailedContext + ": " + (RetryableStatusPrefix + "503" + ": " + BytesToString(body503))
  {
    RetryableStatusFailsCall(baseUrl, serviceName, req, env);
    ServiceUnavailableMessage(body503);
  }

  /** A three-digit status renders as its three digits. */
  lemma ThreeDigitStatus(n: nat)
    requires 100 <= n < 1000
    ensures IntToString(n) == [DigitChar(n / 100), DigitChar(n / 10 % 10), DigitChar(n % 10)]
  {
    assert NatToString(n / 100) == [DigitChar(n / 100)];
    assert NatToString(n / 10) == [DigitChar(n / 100), DigitChar(n / 10 % 10)];
  }

  /** The message of a failed call whose last reply was a 503:
      "request failed: retryable status 503: " followed by the body. */
  lemma ServiceUnavailableMessage(body: seq<byte>)
    ensures Message(Wrapped(RequestFailedContext, RetryableStatusError(503, body)))
      == RequestFailedContext + ": " + (RetryableStatusPrefix + "503" + ": " + BytesToString(body))
  {
    ThreeDigitStatus(503);
  }

  /** A target answering 404: the call returns that response after one
      attempt; it is not a success, and the span says "HTTP 404". */
  lemma NotFoundIsReturned(baseUrl: string, serviceName: string, req: Request,
                           env: Collaborators, h: Header, body: seq<byte>)
    requires ReachesLoop(req, env)
    requires env.transport(0) == Replied(404, h, body)
    ensures var out := Execute(baseUrl, serviceName, req, env);
      && out.attempts == 1
      && out.result == Ok(Response(404, h, body))
      && !out.result.value.IsSuccess()
      && out.span.status == StatusError("HTTP 404")
  {
    var resp := Response(404, h, body);
    assert Operation(env.transport)(0) == Finish(resp);
    assert Run(env.transport, env.retries) == RunResult(Ok(resp), 1);
    ThreeDigitStatus(404);
    assert ResponseStatus(404) == StatusError("HTTP 404");
  }

  /** A budget of no retries makes exactly one attempt. */
  lemma NoRetriesMeansOneAttempt(baseUrl: string, serviceName: string, req: Request, env: Collaborators)
    requires ReachesLoop(req, env) && env.retries == 0
    ensures Execute(baseUrl, serviceName, req, env).attempts == 1
  {
  }

  // ---------------------------------------------------------------------
  // Headers

  /** With no two caller headers on the same canonical key, the merged map
      does not depend on the order the caller's map is walked in. */
  lemma MergedIsOrderIndependent(caller: map<string, string>, canon: string -> string, h1: Header, h2: Header)
    requires InjectiveOn(canon, caller.Keys)
    requires Merged(caller, canon, h1) && Merged(caller, canon, h2)
    ensures h1 == h2
  {
    MergedCallerWins(caller, canon, h1);
    MergedCallerWins(caller, canon, h2);
    forall key | key in h1
      ensures h1[key] == h2[key]
    {
      if key in CallerKeys(caller, canon) {
        var k :| k in caller && canon(k) == key;
      }
    }
  }
}
