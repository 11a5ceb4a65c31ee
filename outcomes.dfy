/** Values shared by the circuit breaker and the retry wrapper: what one
    invocation of the wrapped function does, the exceptions a caller can see,
    and how a call completes (a returned value or a raised exception). */
module Outcomes {

  /** Python's optional value: `None` or a value. */
  datatype Option<T> = None | Some(value: T)

  /** What one invocation of the wrapped function does. `Transport` stands for
      a `requests.RequestException` (the failures the breaker records and the
      wrapper retries); `Other` for every other exception. */
  datatype Outcome<V, E> = Ok(value: V) | Transport(error: E) | Other(error: E)

  /** The exceptions that can leave `CircuitBreaker.call` or the wrapper. */
  datatype Exception<E> =
    | RequestError(error: E)   // a RequestException raised by the wrapped function
    | OtherError(error: E)     // any other exception raised by the wrapped function
    | NoneArithmetic           // TypeError: `time.time() - None` in `is_open`
    | NegativeSleep            // ValueError: `time.sleep` of a negative delay
    | UnboundDelay             // UnboundLocalError: `delay` read before assignment
    | NoActiveException        // RuntimeError: the bare `raise` when no exception is being handled

  /** How a call completes: it returns a value (Python's `None` is `Return(None)`)
      or raises an exception. */
  datatype Completion<V, E> = Return(value: Option<V>) | Raise(exception: Exception<E>)

  /** One invocation as the environment plays it: what the wrapped function
      does, the clock reading `is_open` sees, and the clock reading
      `record_failure` stamps. */
  datatype Invocation<V, E> = Invocation(outcome: Outcome<V, E>, checkedAt: int, failedAt: int)
}
