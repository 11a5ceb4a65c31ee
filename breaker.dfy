/** The circuit breaker of core.py: a consecutive-failure counter with the
    time of the last failure, opened once the count reaches the threshold and
    closed again lazily, by `is_open`, when the recovery timeout has passed.
    The pure functions below specify each operation on a value `State`; the
    class `CircuitBreaker` updates its fields in place and is proved against
    them. Clock readings are integers passed in as parameters. */
module Breaker {
  import opened Outcomes

  /** The breaker's configuration: `failure_threshold`, `recovery_timeout`. */
  datatype Config = Config(failureThreshold: int, recoveryTimeout: int)

  /** The defaults of `CircuitBreaker()`, the breaker every decorated function gets. */
  const Defaults := Config(3, 5)

  /** The mutable part of a breaker: `failure_count`, `last_failure_time`. */
  datatype State = State(failureCount: nat, lastFailureTime: Option<int>)

  /** The state after `__init__` and after every `reset`. */
  const Fresh := State(0, None)

  /** The breaker invariant: a failure time is recorded exactly when some
      failure has been counted since the last reset. */
  ghost predicate Consistent(s: State) {
    s.lastFailureTime.None? <==> s.failureCount == 0
  }

  /** The answer of `is_open`. `NoFailureTime` is the TypeError it raises when
      the count has reached the threshold but no failure time is recorded
      (only possible on a fresh breaker with a threshold of 0 or less). */
  datatype Gate = Closed | Open | NoFailureTime

  datatype Probed = Probed(gate: Gate, next: State)

  /** `is_open` at clock reading `now`: below the threshold the breaker is
      closed; at or above it, it is open until strictly more than the
      recovery timeout has elapsed since the last failure, and then it resets
      and reports closed. */
  function Probe(cfg: Config, s: State, now: int): (r: Probed)
    ensures Consistent(s) ==> Consistent(r.next)
    ensures r.next == s || r.next == Fresh
    ensures r.gate == Open ==> s.failureCount >= cfg.failureThreshold
    ensures Consistent(s) && cfg.failureThreshold >= 1 ==> r.gate != NoFailureTime
    ensures r.gate == Closed && cfg.failureThreshold >= 1 ==> r.next.failureCount < cfg.failureThreshold
  {
    if s.failureCount >= cfg.failureThreshold then
      match s.lastFailureTime
      case None => Probed(NoFailureTime, s)
      case Some(t) =>
        if now - t > cfg.recoveryTimeout then Probed(Closed, Fresh) else Probed(Open, s)
    else
      Probed(Closed, s)
  }

  /** `record_failure` at clock reading `now`. */
  function Fail(s: State, now: int): (r: State)
    ensures Consistent(r) && r.failureCount > s.failureCount
  {
    State(s.failureCount + 1, Some(now))
  }

  datatype Guarded<V, E> = Guarded(result: Completion<V, E>, invoked: bool, next: State)

  /** `call`: ask `is_open` (at `checkedAt`); when open, skip the function and
      return None, leaving the state alone; otherwise invoke it: a value is
      returned and the breaker reset, a RequestException is recorded (count
      plus one, stamped `failedAt`) and re-raised, any other exception
      propagates with the state as `is_open` left it. */
  function Guard<V, E>(cfg: Config, s: State, outcome: Outcome<V, E>, checkedAt: int, failedAt: int): (r: Guarded<V, E>)
    ensures Consistent(s) ==> Consistent(r.next)
    ensures r.invoked <==> Probe(cfg, s, checkedAt).gate == Closed
    ensures r.result == Return(None) ==> !r.invoked
    ensures r.result.Return? && r.invoked ==> r.next == Fresh
    ensures r.next.failureCount > s.failureCount ==> r.invoked && outcome.Transport?
    ensures r.next.failureCount <= s.failureCount + 1
    // the ways `call` ends, one path each
    ensures Probe(cfg, s, checkedAt).gate == Open ==> r == Guarded(Return(None), false, s)
    ensures Probe(cfg, s, checkedAt).gate == NoFailureTime ==> r == Guarded(Raise(NoneArithmetic), false, s)
    ensures Probe(cfg, s, checkedAt).gate == Closed && outcome.Ok? ==> r == Guarded(Return(Some(outcome.value)), true, Fresh)
    ensures Probe(cfg, s, checkedAt).gate == Closed && outcome.Transport? ==>
              r == Guarded(Raise(RequestError(outcome.error)), true,
                           State(Probe(cfg, s, checkedAt).next.failureCount + 1, Some(failedAt)))
    ensures Probe(cfg, s, checkedAt).gate == Closed && outcome.Other? ==>
              r == Guarded(Raise(OtherError(outcome.error)), true, Probe(cfg, s, checkedAt).next)
  {
    var p := Probe(cfg, s, checkedAt);
    match p.gate
    case NoFailureTime => Guarded(Raise(NoneArithmetic), false, p.next)
    case Open => Guarded(Return(None), false, p.next)
    case Closed =>
      match outcome
      case Ok(v) => Guarded(Return(Some(v)), true, Fresh)
      case Transport(e) => Guarded(Raise(RequestError(e)), true, Fail(p.next, failedAt))
      case Other(e) => Guarded(Raise(OtherError(e)), true, p.next)
  }

  /** The three cases of `is_open`, as core.py:30-36 states them. */
  lemma ProbeCases(cfg: Config, s: State, now: int)
    requires Consistent(s)
    ensures s.failureCount < cfg.failureThreshold ==> Probe(cfg, s, now) == Probed(Closed, s)
    ensures s.failureCount >= cfg.failureThreshold && s.lastFailureTime.Some?
            && now - s.lastFailureTime.value > cfg.recoveryTimeout
            ==> Probe(cfg, s, now) == Probed(Closed, Fresh)
    ensures s.failureCount >= cfg.failureThreshold && s.lastFailureTime.Some?
            && now - s.lastFailureTime.value <= cfg.recoveryTimeout
            ==> Probe(cfg, s, now) == Probed(Open, s)
    ensures s.failureCount >= cfg.failureThreshold && s.lastFailureTime.None?
            ==> cfg.failureThreshold <= 0 && Probe(cfg, s, now) == Probed(NoFailureTime, s)
  {
  }

  /** Asking `is_open` again at the same instant gives the same answer and
      changes nothing more: the lazy reset happens at most once. */
  lemma ProbeIdempotent(cfg: Config, s: State, now: int)
    requires Consistent(s) && cfg.failureThreshold >= 1
    ensures Probe(cfg, Probe(cfg, s, now).next, now) == Probe(cfg, s, now)
  {
  }

  /** An open breaker recovers: at any reading more than the recovery timeout
      after the last failure, `is_open` reports closed and the count is 0. */
  lemma OpenRecovers(cfg: Config, s: State, now: int, later: int)
    requires Consistent(s)
    requires Probe(cfg, s, now).gate == Open
    requires later - s.lastFailureTime.value > cfg.recoveryTimeout
    ensures Probe(cfg, s, later) == Probed(Closed, Fresh)
  {
  }

  /** The state after `record_failure` at each reading of `times`, in order,
      starting from a fresh breaker. */
  function Failures(times: seq<int>): (r: State) {
    if times == [] then Fresh else Fail(Failures(times[..|times| - 1]), times[|times| - 1])
  }

  /** After n consecutive failures from a fresh breaker the count is n and the
      recorded time is that of the last failure. */
  lemma {:induction false} FailuresCount(times: seq<int>)
    ensures Failures(times).failureCount == |times|
    ensures Failures(times).lastFailureTime == if times == [] then None else Some(times[|times| - 1])
  {
    if times != [] {
      FailuresCount(times[..|times| - 1]);
    }
  }

  /** Opening: from a fresh breaker, consecutive failures the last of which is
      within the recovery timeout of `now` make `is_open` true exactly when
      there are at least `failure_threshold` of them; fewer leave it false and
      the state unchanged. */
  lemma OpensAtThreshold(cfg: Config, times: seq<int>, now: int)
    requires cfg.failureThreshold >= 1
    requires times != [] ==> now - times[|times| - 1] <= cfg.recoveryTimeout
    ensures Probe(cfg, Failures(times), now).gate == Open <==> |times| >= cfg.failureThreshold
    ensures |times| < cfg.failureThreshold ==> Probe(cfg, Failures(times), now) == Probed(Closed, Failures(times))
  {
    FailuresCount(times);
  }

  /** A breaker object. The configuration is fixed at construction; the two
      counters are updated in place by the methods. */
  class CircuitBreaker {
    const failureThreshold: int
    const recoveryTimeout: int
    var failureCount: nat
    var lastFailureTime: Option<int>

    function Settings(): (r: Config) {
      Config(failureThreshold, recoveryTimeout)
    }

    function Snapshot(): (r: State)
      reads this
    {
      State(failureCount, lastFailureTime)
    }

    ghost predicate Valid()
      reads this
    {
      Consistent(Snapshot())
    }

    /** `__init__`: a fresh, closed breaker. */
    constructor (failureThreshold: int := 3, recoveryTimeout: int := 5)
      ensures Valid()
      ensures Settings() == Config(failureThreshold, recoveryTimeout)
      ensures Snapshot() == Fresh
    {
      this.failureThreshold := failureThreshold;
      this.recoveryTimeout := recoveryTimeout;
      failureCount := 0;
      lastFailureTime := None;
    }

    /** `is_open` at clock reading `now`; may reset the breaker. */
    method IsOpen(now: int) returns (gate: Gate)
      requires Valid()
      modifies this
      ensures Valid()
      ensures Probed(gate, Snapshot()) == Probe(Settings(), old(Snapshot()), now)
    {
      if failureCount >= failureThreshold {
        match lastFailureTime
        case None =>
          gate := NoFailureTime;
        case Some(t) =>
          if now - t > recoveryTimeout {
            Reset();
            gate := Closed;
          } else {
            gate := Open;
          }
      } else {
        gate := Closed;
      }
    }

    /** `record_failure` at clock reading `now`. */
    method RecordFailure(now: int)
      requires Valid()
      modifies this
      ensures Valid()
      ensures Snapshot() == Fail(old(Snapshot()), now)
    {
      failureCount := failureCount + 1;
      lastFailureTime := Some(now);
    }

    /** `reset`. */
    method Reset()
      requires Valid()
      modifies this
      ensures Valid()
      ensures Snapshot() == Fresh
    {
      failureCount := 0;
      lastFailureTime := None;
    }

    /** `call`: one guarded invocation of the function, which behaves as
        `outcome`; `invoked` tells whether the function was called at all. */
    method Call<V, E>(outcome: Outcome<V, E>, checkedAt: int, failedAt: int) returns (result: Completion<V, E>, invoked: bool)
      requires Valid()
      modifies this
      ensures Valid()
      ensures Guarded(result, invoked, Snapshot()) == Guard(Settings(), old(Snapshot()), outcome, checkedAt, failedAt)
    {
      var gate := IsOpen(checkedAt);
      if gate == NoFailureTime {
        result, invoked := Raise(NoneArithmetic), false;
        return;
      }
      if gate == Open {
        result, invoked := Return(None), false;
        return;
      }
      invoked := true;
      match outcome
      case Ok(v) =>
        Reset();
        result := Return(Some(v));
      case Transport(e) =>
        RecordFailure(failedAt);
        result := Raise(RequestError(e));
      case Other(e) =>
        result := Raise(OtherError(e));
    }
  }

  /** The breaker test of tests/test_core.py:18-24: with threshold 2, `is_open`
      is false on a fresh breaker and after one failure, and true after the
      second failure (all at one instant). */
  method OpensAfterTwoFailures(now: int) returns (before: bool, afterOne: bool, afterTwo: bool)
    ensures !before && !afterOne && afterTwo
  {
    var cb := new CircuitBreaker(failureThreshold := 2);
    var g := cb.IsOpen(now);
    before := g == Open;
    cb.RecordFailure(now);
    g := cb.IsOpen(now);
    afterOne := g == Open;
    cb.RecordFailure(now);
    g := cb.IsOpen(now);
    afterTwo := g == Open;
  }
}
