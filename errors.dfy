/** Go error values as the client builds them, and the retry policy that
    decides on their messages (client.go, isRetryableError). */
module Errors {

  datatype Option<+T> = None | Some(value: T)

  /** An error value. `Plain` is an error whose message is all it carries:
      one handed over by a collaborator (the transport, the circuit breaker,
      the JSON encoder), or one formatted with `%d`/`%s` only. `Wrapped` is
      what `fmt.Errorf("<context>: %w", cause)` builds. */
  datatype Error = Plain(text: string) | Wrapped(context: string, cause: Error)

  /** `err.Error()`. */
  function Message(e: Error): (m: string)
    ensures e.Plain? ==> m == e.text
    ensures e.Wrapped? ==> |m| >= |e.context| + 2 && m[..|e.context| + 2] == e.context + ": "
  {
    match e
    case Plain(t) => t
    case Wrapped(c, inner) => c + ": " + Message(inner)
  }

  /** `errors.Is(e, target)` for errors that have no custom `Is` method:
      `target` occurs on the chain of causes of `e`. Go compares the
      `*errorString` and `*wrapError` values on that chain by pointer, so two
      separately built errors with the same text are not `errors.Is`-equal
      there, while they are equal here; the model only ever asks whether an
      error's own cause is on its chain, where the two readings agree. */
  predicate InChain(e: Error, target: Error) {
    e == target || (e.Wrapped? && InChain(e.cause, target))
  }

  const DeadlineExceeded := "context deadline exceeded"
  const Canceled := "context canceled"
  const ConnectionRefused := "connection refused"
  const ConnectionReset := "connection reset"

  /** The four messages the client treats as transient network failures. */
  const RetryableMessages: set<string> := {DeadlineExceeded, Canceled, ConnectionRefused, ConnectionReset}

  /** `isRetryableError`: nil is not retryable; otherwise the message has to
      be exactly one of the four fixed strings. */
  function IsRetryableError(err: Option<Error>): (retry: bool)
    ensures err.None? ==> !retry
    ensures err.Some? ==> (retry <==> Message(err.value) in RetryableMessages)
  {
    match err
    case None => false
    case Some(e) =>
      var m := Message(e);
      m == DeadlineExceeded || m == Canceled || m == ConnectionRefused || m == ConnectionReset
  }

  /** Every retryable message starts with a `c`: a message that starts with
      anything else is never retried. */
  lemma NotRetryableUnlessLeadingC(e: Error)
    requires Message(e) == [] || Message(e)[0] != 'c'
    ensures !IsRetryableError(Some(e))
  {
  }

  /** A wrapped error is retried only when its wrapping context itself starts
      with a `c`: wrapping with any other context makes an error permanent. */
  lemma {:induction false} WrappedNotRetryable(context: string, cause: Error)
    requires context == [] || context[0] != 'c'
    ensures !IsRetryableError(Some(Wrapped(context, cause)))
  {
    var m := Message(Wrapped(context, cause));
    assert m[..|context| + 2] == context + ": ";
    assert m[0] == (context + ": ")[0];
    NotRetryableUnlessLeadingC(Wrapped(context, cause));
  }
}
