# auto-retry-http-decorator, modelled in Dafny

This project models the core of `auto_retry_http_decorator`. That core is a
`retry(max_attempts, delay)` decorator that sends every call of the wrapped
function through a circuit breaker. It has two parts.

- **The circuit breaker (`CircuitBreaker`).** It counts consecutive
  transport failures (`RequestException`) and stamps the time of the last one.
  Once the count reaches `failure_threshold` (default 3), `is_open` reports the
  breaker open. It keeps doing so until strictly more than `recovery_timeout`
  (default 5) seconds have elapsed since the last failure. At that point
  `is_open` itself resets the breaker and reports it closed.
  - `call` skips the function and returns `None` while the breaker is open.
  - It passes a value through and resets the breaker.
  - It records a `RequestException` and re-raises it.
  - It lets any other exception through without recording it.
- **The retry wrapper.** Each decorated function gets one breaker, created by
  `decorator`, and every call of that function shares it.
  - The wrapper's loop returns the first thing `call` returns. That includes the
    `None` of an open breaker.
  - As meant, on a `RequestException` it counts the attempt, sleeps the current
    delay and doubles that delay. After `max_attempts` attempts it reaches a
    bare `raise`. This corrected loop is what `Retry.Loop` models.
  - As written, the first `time.sleep(delay)` raises UnboundLocalError (see
    Findings). So the first `RequestException` ends the call, and the bare
    `raise` is reached only when `max_attempts` is 0 or less.

Files:

- `outcomes.dfy` (module `Outcomes`) holds the shared values:
  - what one invocation of the wrapped function does: `Ok`, `Transport` or
    `Other`;
  - the exceptions a caller can see;
  - how a call completes;
  - the clock readings of one invocation.
- `breaker.dfy` (module `Breaker`) holds pure step functions on a value
  `State`: `Probe` is `is_open`, `Fail` is `record_failure` and `Guard` is
  `call`. It also holds the invariant `Consistent` and the class
  `CircuitBreaker`. That class updates `failureCount` and `lastFailureTime` in
  place, and its methods are proved against the step functions.
- `retry.dfy` (module `Retry`) holds:
  - the recursive specification `Loop` of the wrapper loop;
  - the backoff schedule and its closed forms;
  - the class `Wrapper`, which owns its breaker. Its `Invoke` method runs the
    `while` loop and is proved equal to `Loop`.
  - lemmas about exhaustion, failing fast and the shared breaker;
  - the loop exactly as written (see Findings).

Inputs the model takes as parameters:

- **The wrapped function.** For each call it is a script `nat -> Invocation`:
  what its k-th invocation does, plus two clock readings.
- **The clock readings.** `checkedAt` is the value `time.time()` has in
  `is_open`. `failedAt` is its value in `record_failure`.
- **Sleeps.** They are returned as a sequence of durations, not performed.

In the places below, a reader might expect something other than what the
code does. Each bullet says what the model does instead. The bullets on the
bare `raise` and on sleeping after the last attempt describe the corrected
loop, `Retry.Loop`. As written, the loop never gets that far, because its
first sleep raises UnboundLocalError (see Findings).

- **Open breaker.** One might expect an open breaker's skipped attempt to be
  retried. Instead, the `None` that `call` returns for an open breaker is
  returned by the wrapper as an ordinary result (`Return(None)`).
- **Bare `raise`.** One might expect exhaustion to re-raise the last
  `RequestException`. Instead, in the corrected loop, the wrapper reaches a bare
  `raise` after the last attempt. When the wrapper is not called while an exception is being handled,
  that is a `RuntimeError` (`NoActiveException`).
  `Retry.Loop` proves that a `RequestException` never leaves the wrapper.
- **Sleep after the last attempt.** One might expect no sleep after the final
  attempt. In the corrected loop the wrapper sleeps after the last failed
  attempt too, because the sleep comes before the loop test. So three failures
  with the defaults sleep 1, 2 and 4 seconds (7 in all), not 1 and 2.
- **Threshold of 0 or less.** With such a threshold, `is_open` on a fresh
  breaker computes `time.time() - None`. That raises a `TypeError`, modelled as
  `Gate.NoFailureTime` and `Exception.NoneArithmetic`.
- **Negative delay.** `time.sleep` raises `ValueError` for a negative delay.
  This is modelled as `NegativeSleep`.
- **Recovery test.** The test at tests/test_core.py:26-30 records only one
  failure against a threshold of 2. So its assertion holds whether or not the
  timeout has elapsed: one failure is below the threshold. The test file also
  omits the imports of `CircuitBreaker` and `time`.

## Model

| member | source | states |
|---|---|---|
| `Breaker.Probe` | src/auto_retry_http_decorator/core.py:30-36 | `is_open` keeps the invariant (time recorded exactly when the count is positive); it only ever leaves the state alone or resets it; an open answer needs the count at or above the threshold; with a positive threshold and a consistent state it never raises; with a positive threshold, a closed answer leaves the count below the threshold |
| `Breaker.Fail` | src/auto_retry_http_decorator/core.py:38-40 | after `record_failure` the state is consistent whatever it was, and the count has grown |
| `Breaker.Guard` | src/auto_retry_http_decorator/core.py:17-28 | each path of `call`: open breaker: `None`, function not invoked, state unchanged; TypeError from `is_open`: raised, not invoked, state unchanged; closed and a value: the value returned, breaker reset; closed and a RequestException: the same error re-raised, count exactly one more than `is_open` left it, stamped `failedAt`; closed and another exception: raised, state as `is_open` left it. Also: the invariant is kept, the function is invoked exactly when `is_open` answers closed, and the count grows only on an invoked transport failure, by at most one |
| `Breaker.ProbeCases` | src/auto_retry_http_decorator/core.py:30-36 | below the threshold: closed, state unchanged; at or above it with elapsed time strictly over the timeout: closed and reset; with elapsed time at most the timeout: open, state unchanged; no failure time at the threshold only when the threshold is 0 or less, and then a TypeError |
| `Breaker.ProbeIdempotent` | src/auto_retry_http_decorator/core.py:30-36 | asking `is_open` twice at one instant gives the same answer and state as asking once |
| `Breaker.OpenRecovers` | src/auto_retry_http_decorator/core.py:31-34 | an open breaker reports closed, with count 0, at any reading more than the timeout after the last failure |
| `Breaker.FailuresCount` | src/auto_retry_http_decorator/core.py:38-40 | n consecutive `record_failure` calls from a fresh breaker give count n and the time of the last one |
| `Breaker.OpensAtThreshold` | src/auto_retry_http_decorator/core.py:31-40 | from a fresh breaker, failures whose last one is within the timeout make `is_open` true exactly when there are at least `failure_threshold` of them; fewer leave it false and the state unchanged |
| `Breaker.CircuitBreaker.constructor` | src/auto_retry_http_decorator/core.py:11-15 | a new breaker has the given (default 3 and 5) configuration, count 0 and no failure time |
| `Breaker.CircuitBreaker.IsOpen` | src/auto_retry_http_decorator/core.py:30-36 | answer and new fields are those of `Probe` on the old fields; invariant kept |
| `Breaker.CircuitBreaker.RecordFailure` | src/auto_retry_http_decorator/core.py:38-40 | count plus one, time stamped with the reading; invariant kept |
| `Breaker.CircuitBreaker.Reset` | src/auto_retry_http_decorator/core.py:42-44 | count 0, no failure time |
| `Breaker.CircuitBreaker.Call` | src/auto_retry_http_decorator/core.py:17-28 | result, whether the function ran, and new fields are those of `Guard` on the old fields; invariant kept |
| `Breaker.OpensAfterTwoFailures` | tests/test_core.py:18-24 | with threshold 2, `is_open` is false fresh, false after one failure and true after two |
| `Retry.ScheduleAt` | src/auto_retry_http_decorator/core.py:70-71 | the k-th sleep of the backoff schedule lasts delay * 2^k |
| `Retry.ScheduleSum` | src/auto_retry_http_decorator/core.py:70-71 | n sleeps of the schedule last delay * (2^n - 1) in total |
| `Retry.Loop` | src/auto_retry_http_decorator/core.py:62-73 | the corrected loop: the sleeps of any call follow the doubling schedule from `delay`; the function is invoked at most `max_attempts` times (never when it is 0 or less); each sleep follows an invocation; the breaker invariant is kept and the count grows by at most one per invocation; a RequestException never leaves the wrapper |
| `Retry.SleepAt` | src/auto_retry_http_decorator/core.py:68-71 | in the corrected loop, the k-th sleep of any call of the wrapper lasts delay * 2^k |
| `Retry.TotalSleep` | src/auto_retry_http_decorator/core.py:68-71 | in the corrected loop, a call that sleeps n times sleeps delay * (2^n - 1) in all |
| `Retry.NoAttempts` | src/auto_retry_http_decorator/core.py:63-73 | with `max_attempts` of 0 or less: no invocation, no sleep, breaker untouched, terminal RuntimeError |
| `Retry.ReturnsFirstResult` | src/auto_retry_http_decorator/core.py:64-66 | the first completion of `call` other than a RequestException (a value, the open-breaker None, another exception) ends the call with no further sleep or invocation |
| `Retry.FailsFastOnOther` | src/auto_retry_http_decorator/core.py:62-67 | a non-RequestException on a closed breaker propagates after one invocation, no sleep, no failure recorded |
| `Retry.ExhaustsAfterTransportFailures` | src/auto_retry_http_decorator/core.py:63-73 | in the corrected loop, when every remaining attempt fails with a RequestException and the breaker cannot open: one invocation and one sleep per attempt, on the doubling schedule, every failure recorded, the last one's time stamped, ending in the RuntimeError |
| `Retry.DefaultExhaustion` | src/auto_retry_http_decorator/core.py:47-73 | in the corrected loop, with the defaults and a fresh breaker, a function that always raises a RequestException is invoked 3 times, sleeps 1, 2, 4 (7 in all), ends in the RuntimeError and leaves the breaker at count 3 |
| `Retry.SharedBreakerAfterExhaustion` | src/auto_retry_http_decorator/core.py:58-66 | after such a call, the next call of the same decorated function returns None without invoking the function when it starts within the recovery timeout, and invokes it when it starts later |
| `Retry.TwoFailuresThenSuccess` | src/auto_retry_http_decorator/core.py:63-71 | in the corrected loop, two RequestExceptions then a value: 3 invocations, sleeps 1 and 2, the value returned, breaker reset |
| `Retry.LoopAsWritten` | src/auto_retry_http_decorator/core.py:63-73 | as written, the loop never sleeps and invokes the function at most once |
| `Retry.DelayScopingDiscrepancy` | src/auto_retry_http_decorator/core.py:68-71 | for any `max_attempts` of 1 or more, a RequestException on the first attempt ends the as-written loop in UnboundLocalError after one invocation with no sleep; the intended loop instead sleeps `delay` and continues from attempt 1 with the failure recorded and the delay doubled |
| `Retry.Wrapper.constructor` | src/auto_retry_http_decorator/core.py:58-59 | decorating a function creates one fresh breaker with the default configuration |
| `Retry.Wrapper.Invoke` | src/auto_retry_http_decorator/core.py:62-73 | the result, the sleeps, the invocation count and the breaker's new fields are exactly those of `Loop` from the breaker's old fields; the invariant is kept |
| `Retry.SharedBreakerRejects` | src/auto_retry_http_decorator/core.py:58-73 | with the corrected loop, two calls of one decorated function: the first, all RequestExceptions, ends in the RuntimeError after 3 invocations; the second, within the timeout, returns None after 0 invocations |

## Left out

- **Logging** (`logging.basicConfig`, `logger.warning`, `logger.error`,
  `logger.info`). These are observability side effects and do not affect
  control flow.
- **`time.time()` and `time.sleep()`.** Clock readings are integer parameters
  and sleeps are returned durations. So the model does not tie later clock
  readings to the sleeps between them, and floating-point seconds and delays
  are not modelled.
- **The `requests` library and `RequestException`.** They are replaced by the
  `Transport` outcome.
- **`functools.wraps` and the forwarding of `*args`/`**kwargs`.** These only
  preserve metadata and signatures. The script stands for the function applied
  to its arguments.
- **Reassigning `failure_threshold` or `recovery_timeout` from outside.**
  Nothing in the core does it, so both are constants of the breaker.
- **A wrapped function that returns `None`.** In Python that cannot be told
  apart from the open-breaker `None`. The model returns `Some` for the
  function's values, so the two stay distinct.
- **A call made while an exception is being handled.** A bare `raise`
  re-raises the exception currently being handled anywhere up the call stack.
  If the wrapper is called from inside a caller's `except` block, the
  exhausted loop raises that caller's exception instead of a `RuntimeError`.
  The model assumes no exception is being handled when the wrapper is called,
  so `NoActiveException` stands for the `RuntimeError`.
- **Concurrent calls on one shared breaker.** There is no locking in the
  source.
- **src/auto_retry_http_decorator/cli.py** is argument parsing, network I/O and
  console output. **src/auto_retry_http_decorator/__init__.py** only re-exports
  `retry`.
- **tests/test_core.py outside lines 18-30.** Those tests import a module that
  does not exist, and the success test compares a mock with a dictionary.

## Findings

| source | as written | input that shows it | evidently intended | confidence | as-written member | corrected member |
|---|---|---|---|---|---|---|
| src/auto_retry_http_decorator/core.py:70-71 | `delay *= 2` makes `delay` local to `wrapper`, so `time.sleep(delay)` reads an unassigned local and raises UnboundLocalError after the first RequestException, before the loop test is evaluated again | any call whose first attempt raises a RequestException on a closed breaker, with `max_attempts` of 1 or more | sleep the decorator's `delay`, then double it before the next retry | not executed | `Retry.LoopAsWritten` (with `Retry.DelayScopingDiscrepancy`) | `Retry.Loop` (with `Retry.SleepAt`, `Retry.TotalSleep`), used by `Retry.Wrapper.Invoke` |
