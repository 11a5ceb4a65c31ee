/** The `retry` decorator of core.py: the wrapper sends each attempt through
    the one circuit breaker created for the decorated function and returns
    the first result (or non-RequestException exception) that `call`
    produces. As meant (`Loop`), after each RequestException it sleeps and
    doubles the delay, for at most `max_attempts` attempts, and then it
    reaches a bare `raise`. As written (`LoopAsWritten`), the first sleep
    raises UnboundLocalError.
    The wrapped function is a script: what its k-th invocation does, with the
    clock readings the breaker sees. Sleeps are recorded, not performed. */
module Retry {
  import opened Outcomes
  import opened Breaker

  /** 2 to the power n. */
  function Pow2(n: nat): (r: nat)
    ensures r >= 1
  {
    if n == 0 then 1 else 2 * Pow2(n - 1)
  }

  function Sum(s: seq<int>): (r: int) {
    if s == [] then 0 else s[0] + Sum(s[1..])
  }

  /** The backoff schedule: n sleeps, the first lasting d, each later one
      twice the one before. */
  function Schedule(d: int, n: nat): (r: seq<int>)
    ensures |r| == n
    decreases n
  {
    if n == 0 then [] else [d] + Schedule(2 * d, n - 1)
  }

  /** The k-th sleep (counting from 0) lasts d * 2^k. */
  lemma {:induction false} ScheduleAt(d: int, n: nat, k: nat)
    requires k < n
    ensures Schedule(d, n)[k] == d * Pow2(k)
    decreases n
  {
    if k > 0 {
      ScheduleAt(2 * d, n - 1, k - 1);
      assert Schedule(d, n)[k] == Schedule(2 * d, n - 1)[k - 1];
      assert (2 * d) * Pow2(k - 1) == d * (2 * Pow2(k - 1));
    }
  }

  /** n sleeps of the schedule last d * (2^n - 1) in total. */
  lemma {:induction false} ScheduleSum(d: int, n: nat)
    ensures Sum(Schedule(d, n)) == d * (Pow2(n) - 1)
    decreases n
  {
    if n > 0 {
      ScheduleSum(2 * d, n - 1);
      var p := Pow2(n - 1);
      assert Schedule(d, n)[1..] == Schedule(2 * d, n - 1);
      calc {
        Sum(Schedule(d, n));
        d + (2 * d) * (p - 1);
        { assert (2 * d) * (p - 1) == d * (2 * p) - 2 * d; }
        d * (2 * p) - d;
        d * (2 * p - 1);
      }
    }
  }

  /** What one call of the wrapper does: how it completes, the sleeps it
      performs in order, how many times it invokes the function, and the
      breaker state it leaves. */
  datatype Run<V, E> = Run(result: Completion<V, E>, sleeps: seq<int>, invoked: nat, final: State)

  predicate IsRequestError<V, E>(c: Completion<V, E>) {
    c.Raise? && c.exception.RequestError?
  }

  /** The wrapper loop from iteration `attempts`, with breaker state `s` and
      current delay `delay`, as meant: the delay is a local copy of the
      decorator's `delay`, doubled after each sleep. */
  function Loop<V, E>(cfg: Config, maxAttempts: int, s: State, script: nat -> Invocation<V, E>, attempts: nat, delay: int): (r: Run<V, E>)
    ensures r.sleeps == Schedule(delay, |r.sleeps|)
    ensures r.invoked <= if attempts < maxAttempts then maxAttempts - attempts else 0
    ensures r.invoked == |r.sleeps| || r.invoked == |r.sleeps| + 1
    ensures r.final.failureCount <= s.failureCount + r.invoked
    ensures Consistent(s) ==> Consistent(r.final)
    ensures !IsRequestError(r.result) && r.result != Raise(UnboundDelay)
    decreases maxAttempts - attempts
  {
    if attempts >= maxAttempts then
      Run(Raise(NoActiveException), [], 0, s)
    else
      var inv := script(attempts);
      var g := Guard(cfg, s, inv.outcome, inv.checkedAt, inv.failedAt);
      if IsRequestError(g.result) then
        if delay < 0 then
          Run(Raise(NegativeSleep), [], 1, g.next)
        else
          var rest := Loop(cfg, maxAttempts, g.next, script, attempts + 1, 2 * delay);
          Run(rest.result, [delay] + rest.sleeps, 1 + rest.invoked, rest.final)
      else
        Run(g.result, [], if g.invoked then 1 else 0, g.next)
  }

  /** The k-th sleep of any call of the wrapper lasts delay * 2^k. */
  lemma SleepAt<V, E>(cfg: Config, maxAttempts: int, s: State, script: nat -> Invocation<V, E>, delay: int, k: nat)
    requires k < |Loop(cfg, maxAttempts, s, script, 0, delay).sleeps|
    ensures Loop(cfg, maxAttempts, s, script, 0, delay).sleeps[k] == delay * Pow2(k)
  {
    var r := Loop(cfg, maxAttempts, s, script, 0, delay);
    ScheduleAt(delay, |r.sleeps|, k);
  }

  /** A call of the wrapper that sleeps n times sleeps delay * (2^n - 1) in all. */
  lemma TotalSleep<V, E>(cfg: Config, maxAttempts: int, s: State, script: nat -> Invocation<V, E>, delay: int)
    ensures var r := Loop(cfg, maxAttempts, s, script, 0, delay);
            Sum(r.sleeps) == delay * (Pow2(|r.sleeps|) - 1)
  {
    var r := Loop(cfg, maxAttempts, s, script, 0, delay);
    ScheduleSum(delay, |r.sleeps|);
  }

  /** With `max_attempts` of 0 or less the loop never runs: no invocation, no
      sleep, the breaker untouched, and the bare `raise` is reached. */
  lemma NoAttempts<V, E>(cfg: Config, maxAttempts: int, s: State, script: nat -> Invocation<V, E>, delay: int)
    requires maxAttempts <= 0
    ensures Loop(cfg, maxAttempts, s, script, 0, delay) == Run(Raise(NoActiveException), [], 0, s)
  {
  }

  /** The first completion of `call` that is not a RequestException, a
      returned value, the open-breaker None or another exception, ends the
      call at once, with no further sleep or invocation. */
  lemma ReturnsFirstResult<V, E>(cfg: Config, maxAttempts: int, s: State, script: nat -> Invocation<V, E>, attempts: nat, delay: int)
    requires attempts < maxAttempts
    requires var inv := script(attempts);
             !IsRequestError(Guard(cfg, s, inv.outcome, inv.checkedAt, inv.failedAt).result)
    ensures var inv := script(attempts);
            var g := Guard(cfg, s, inv.outcome, inv.checkedAt, inv.failedAt);
            Loop(cfg, maxAttempts, s, script, attempts, delay) == Run(g.result, [], if g.invoked then 1 else 0, g.next)
  {
  }

  /** An exception other than a RequestException on a closed breaker fails
      fast: one invocation, no sleep, no failure recorded. */
  lemma FailsFastOnOther<V, E>(cfg: Config, maxAttempts: int, s: State, script: nat -> Invocation<V, E>, delay: int, e: E)
    requires 0 < maxAttempts
    requires script(0).outcome == Other(e)
    requires Probe(cfg, s, script(0).checkedAt).gate == Closed
    ensures var r := Loop(cfg, maxAttempts, s, script, 0, delay);
            r == Run(Raise(OtherError(e)), [], 1, Probe(cfg, s, script(0).checkedAt).next)
            && r.final.failureCount <= s.failureCount
  {
  }

  /** Exhaustion: when every remaining attempt raises a RequestException and
      the breaker cannot open meanwhile, the loop invokes the function once
      per remaining attempt, sleeps after each (the last one included),
      records every failure and ends at the bare `raise`. */
  lemma {:induction false} ExhaustsAfterTransportFailures<V, E>(cfg: Config, maxAttempts: int, s: State, script: nat -> Invocation<V, E>, attempts: nat, delay: int)
    requires attempts <= maxAttempts && delay >= 0
    requires s.failureCount + (maxAttempts - attempts) <= cfg.failureThreshold
    requires forall k :: attempts <= k < maxAttempts ==> script(k).outcome.Transport?
    ensures var r := Loop(cfg, maxAttempts, s, script, attempts, delay);
            && r.result == Raise(NoActiveException)
            && r.invoked == maxAttempts - attempts
            && r.sleeps == Schedule(delay, maxAttempts - attempts)
            && r.final.failureCount == s.failureCount + (maxAttempts - attempts)
            && r.final.lastFailureTime == if attempts == maxAttempts then s.lastFailureTime else Some(script(maxAttempts - 1).failedAt)
    decreases maxAttempts - attempts
  {
    if attempts < maxAttempts {
      var inv := script(attempts);
      var g := Guard(cfg, s, inv.outcome, inv.checkedAt, inv.failedAt);
      assert g.next == Fail(s, inv.failedAt);
      ExhaustsAfterTransportFailures(cfg, maxAttempts, g.next, script, attempts + 1, 2 * delay);
    }
  }

  /** With the defaults (3 attempts, delay 1, threshold 3) and a fresh breaker,
      a function that always raises a RequestException is invoked 3 times,
      the wrapper sleeps 1, 2 and 4 seconds (7 in all) and ends at the bare
      `raise`, leaving the breaker at the threshold, stamped with the last
      failure. */
  lemma DefaultExhaustion<V, E>(script: nat -> Invocation<V, E>)
    requires forall k :: 0 <= k < 3 ==> script(k).outcome.Transport?
    ensures var r := Loop(Defaults, 3, Fresh, script, 0, 1);
            && r.result == Raise(NoActiveException)
            && r.invoked == 3
            && r.sleeps == [1, 2, 4] && Sum(r.sleeps) == 7
            && r.final == State(3, Some(script(2).failedAt))
  {
    ExhaustsAfterTransportFailures(Defaults, 3, Fresh, script, 0, 1);
    assert Schedule(1, 3) == [1, 2, 4];
    ScheduleSum(1, 3);
  }

  /** The breaker is shared by all calls of one decorated function: after a
      call that exhausted its attempts as above, a call whose first check comes
      within the recovery timeout of the last failure returns None at once,
      without invoking the function; one that comes later invokes it again. */
  lemma SharedBreakerAfterExhaustion<V, E>(first: nat -> Invocation<V, E>, second: nat -> Invocation<V, E>)
    requires forall k :: 0 <= k < 3 ==> first(k).outcome.Transport?
    ensures var r1 := Loop(Defaults, 3, Fresh, first, 0, 1);
            var r2 := Loop(Defaults, 3, r1.final, second, 0, 1);
            (second(0).checkedAt - first(2).failedAt <= Defaults.recoveryTimeout
             ==> r2 == Run(Return(None), [], 0, r1.final))
            && (second(0).checkedAt - first(2).failedAt > Defaults.recoveryTimeout
             ==> r2.invoked >= 1)
  {
    DefaultExhaustion(first);
  }

  /** A function that raises a RequestException twice and then returns v is
      invoked 3 times; the wrapper sleeps 1 and 2 seconds, returns v and
      leaves the breaker reset. */
  lemma TwoFailuresThenSuccess<V, E>(script: nat -> Invocation<V, E>, v: V)
    requires script(0).outcome.Transport? && script(1).outcome.Transport?
    requires script(2).outcome == Ok(v)
    ensures Loop(Defaults, 3, Fresh, script, 0, 1) == Run(Return(Some(v)), [1, 2], 3, Fresh)
  {
    var s1 := Fail(Fresh, script(0).failedAt);
    var s2 := Fail(s1, script(1).failedAt);
    assert Loop(Defaults, 3, s2, script, 2, 4) == Run(Return(Some(v)), [], 1, Fresh);
    assert Loop(Defaults, 3, s1, script, 1, 2) == Run(Return(Some(v)), [2], 2, Fresh);
  }

  /** The loop exactly as core.py:63-73 is written. `delay *= 2` makes `delay`
      a local variable of `wrapper`, so `time.sleep(delay)` reads it before
      any assignment and raises UnboundLocalError after the first
      RequestException, before the loop test is evaluated again, for any
      `max_attempts` of 1 or more. */
  function LoopAsWritten<V, E>(cfg: Config, maxAttempts: int, s: State, script: nat -> Invocation<V, E>): (r: Run<V, E>)
    ensures r.sleeps == [] && r.invoked <= 1
    ensures Consistent(s) ==> Consistent(r.final)
  {
    if maxAttempts <= 0 then
      Run(Raise(NoActiveException), [], 0, s)
    else
      var inv := script(0);
      var g := Guard(cfg, s, inv.outcome, inv.checkedAt, inv.failedAt);
      if IsRequestError(g.result) then
        Run(Raise(UnboundDelay), [], 1, g.next)
      else
        Run(g.result, [], if g.invoked then 1 else 0, g.next)
  }

  /** Where the two differ: a RequestException on the first attempt. As
      written the wrapper ends with UnboundLocalError after that one
      invocation, before the loop test is evaluated again, with no sleep; as
      meant it sleeps `delay` and goes on with the loop from attempt 1, the
      failure recorded and the delay doubled. */
  lemma DelayScopingDiscrepancy<V, E>(cfg: Config, maxAttempts: int, s: State, script: nat -> Invocation<V, E>, delay: int)
    requires 1 <= maxAttempts && 0 <= delay
    requires Probe(cfg, s, script(0).checkedAt).gate == Closed
    requires script(0).outcome.Transport?
    ensures LoopAsWritten(cfg, maxAttempts, s, script).result == Raise(UnboundDelay)
    ensures LoopAsWritten(cfg, maxAttempts, s, script).invoked == 1
    ensures LoopAsWritten(cfg, maxAttempts, s, script).sleeps == []
    ensures var next := Fail(Probe(cfg, s, script(0).checkedAt).next, script(0).failedAt);
            var r := Loop(cfg, maxAttempts, s, script, 0, delay);
            && r == After([delay], 1, Loop(cfg, maxAttempts, next, script, 1, 2 * delay))
            && r.result != Raise(UnboundDelay) && r.sleeps[0] == delay
  {
  }

  /** Everything after the loop's current iteration is prefixed with what has
      happened so far. */
  function After<V, E>(sleeps: seq<int>, invoked: nat, r: Run<V, E>): (after: Run<V, E>) {
    Run(r.result, sleeps + r.sleeps, invoked + r.invoked, r.final)
  }

  /** A decorated function: `retry(max_attempts, delay)` applied to a
      function. It owns the one breaker created by `decorator`, shared by all
      its calls. */
  class Wrapper {
    const maxAttempts: int
    const delay: int
    const breaker: CircuitBreaker

    ghost predicate Valid()
      reads this, breaker
    {
      breaker.Valid()
    }

    /** `retry(max_attempts, delay)(func)`: a fresh default breaker. */
    constructor (maxAttempts: int := 3, delay: int := 1)
      ensures Valid() && fresh(breaker)
      ensures this.maxAttempts == maxAttempts && this.delay == delay
      ensures breaker.Settings() == Defaults && breaker.Snapshot() == Fresh
    {
      this.maxAttempts := maxAttempts;
      this.delay := delay;
      breaker := new CircuitBreaker();
    }

    /** One call of `wrapper`, the function behaving as `script`, with the
        delay handled as meant: it follows `Loop`, not `LoopAsWritten`. */
    method Invoke<V, E>(script: nat -> Invocation<V, E>) returns (result: Completion<V, E>, sleeps: seq<int>, invoked: nat)
      requires Valid()
      modifies breaker
      ensures Valid()
      ensures Run(result, sleeps, invoked, breaker.Snapshot())
              == Loop(breaker.Settings(), maxAttempts, old(breaker.Snapshot()), script, 0, delay)
    {
      ghost var cfg := breaker.Settings();
      ghost var spec := Loop(cfg, maxAttempts, breaker.Snapshot(), script, 0, delay);
      var attempts: nat := 0;
      // core.py:70-71 read `delay` as a local that is never initialised
      // (UnboundLocalError, see LoopAsWritten); this is the meant behaviour:
      // a local copy of the decorator's `delay`, doubled after each sleep.
      var currentDelay := delay;
      sleeps, invoked := [], 0;
      while attempts < maxAttempts
        invariant Valid()
        invariant spec == After(sleeps, invoked, Loop(cfg, maxAttempts, breaker.Snapshot(), script, attempts, currentDelay))
        decreases maxAttempts - attempts
      {
        var inv := script(attempts);
        ghost var g := Guard(cfg, breaker.Snapshot(), inv.outcome, inv.checkedAt, inv.failedAt);
        ghost var here := Loop(cfg, maxAttempts, breaker.Snapshot(), script, attempts, currentDelay);
        var r, called := breaker.Call(inv.outcome, inv.checkedAt, inv.failedAt);
        assert r == g.result && called == g.invoked && breaker.Snapshot() == g.next;
        if called {
          invoked := invoked + 1;
        }
        if !IsRequestError(r) {
          assert here == Run(g.result, [], if g.invoked then 1 else 0, g.next);
          result := r;
          return;
        }
        attempts := attempts + 1;
        if currentDelay < 0 {
          assert here == Run(Raise(NegativeSleep), [], 1, g.next);
          result := Raise(NegativeSleep);
          return;
        }
        ghost var rest := Loop(cfg, maxAttempts, g.next, script, attempts, 2 * currentDelay);
        assert here == Run(rest.result, [currentDelay] + rest.sleeps, 1 + rest.invoked, rest.final);
        assert sleeps + ([currentDelay] + rest.sleeps) == (sleeps + [currentDelay]) + rest.sleeps;
        sleeps := sleeps + [currentDelay];
        currentDelay := 2 * currentDelay;
      }
      result := Raise(NoActiveException);
    }
  }

  /** Two calls of one freshly decorated function with the defaults: the first
      meets only RequestExceptions and ends at the bare `raise` after 3
      invocations; the second, starting within the recovery timeout of the
      last failure, gets None without the function being invoked. */
  method SharedBreakerRejects<V, E>(first: nat -> Invocation<V, E>, second: nat -> Invocation<V, E>)
    returns (r1: Completion<V, E>, n1: nat, r2: Completion<V, E>, n2: nat)
    requires forall k :: 0 <= k < 3 ==> first(k).outcome.Transport?
    requires second(0).checkedAt - first(2).failedAt <= 5
    ensures r1 == Raise(NoActiveException) && n1 == 3
    ensures r2 == Return(None) && n2 == 0
  {
    var w := new Wrapper();
    var sleeps;
    r1, sleeps, n1 := w.Invoke(first);
    SharedBreakerAfterExhaustion(first, second);
    r2, sleeps, n2 := w.Invoke(second);
  }
}
