/** The circuit breaker, proved against what its event history says. Time is an input, in seconds. */
module CircuitBreaker {
  import opened Options

  type Time = int

  datatype BreakerState = Closed | Open | HalfOpen

  datatype Settings = Settings(failureThreshold: int, successThreshold: int, timeout: int)

  datatype Event = Success(at: Time) | Failure(at: Time) | Reset

  predicate Sane(c: Settings) {
    c.failureThreshold > 0 && c.successThreshold > 0 && c.timeout > 0
  }

  function Last<T>(s: seq<T>): T
    requires s != []
  {
    s[|s| - 1]
  }

  function Init<T>(s: seq<T>): seq<T>
    requires s != []
  {
    s[..|s| - 1]
  }

  // ---------------------------------------------------------------- what a history says

  /** Failures at the end of the history, in a row. */
  function TrailingFailures(h: seq<Event>): nat {
    if h == [] || !Last(h).Failure? then 0 else 1 + TrailingFailures(Init(h))
  }

  /** Successes at the end of the history, in a row. */
  function TrailingSuccesses(h: seq<Event>): nat {
    if h == [] || !Last(h).Success? then 0 else 1 + TrailingSuccesses(Init(h))
  }

  function LastFailure(h: seq<Event>): Option<Time> {
    if h == [] then None else if Last(h).Failure? then Some(Last(h).at) else LastFailure(Init(h))
  }

  predicate Trips(c: Settings, h: seq<Event>) {
    TrailingFailures(h) >= c.failureThreshold
  }

  /** A reset, or a success that comes Timeout after the last failure and is at least the
      SuccessThreshold-th since then. */
  predicate Heals(c: Settings, h: seq<Event>) {
    h != [] && (
      Last(h).Reset? ||
      (Last(h).Success?
       && LastFailure(h).Some?
       && Last(h).at - LastFailure(h).value >= c.timeout
       && TrailingSuccesses(h) >= c.successThreshold))
  }

  /** At some point enough failures came in a row, and nothing has healed the breaker since. */
  ghost predicate IsOpen(c: Settings, h: seq<Event>) {
    exists k :: 0 <= k <= |h| && TrippedAt(c, h, k)
  }

  ghost predicate TrippedAt(c: Settings, h: seq<Event>, k: nat)
    requires k <= |h|
  {
    Trips(c, h[..k]) && forall m :: k < m <= |h| ==> !Heals(c, h[..m])
  }

  /** Successes in a row since the breaker last closed. */
  ghost function SuccessRun(c: Settings, h: seq<Event>): nat {
    if h == [] || !Last(h).Success? || (IsOpen(c, Init(h)) && Heals(c, h)) then 0 else 1 + SuccessRun(c, Init(h))
  }

  // ---------------------------------------------------------------- what the breaker does

  datatype Breaker = Breaker(state: BreakerState, failures: nat, successes: nat, lastFailure: Time)

  function Current(c: Settings, b: Breaker, now: Time): BreakerState {
    if b.state.Open? && now - b.lastFailure >= c.timeout then HalfOpen else b.state
  }

  function Record(c: Settings, b: Breaker, e: Event): Breaker {
    match e
    case Success(now) =>
      if Current(c, b, now).HalfOpen? && b.successes + 1 >= c.successThreshold
      then Breaker(Closed, 0, 0, b.lastFailure)
      else b.(failures := 0, successes := b.successes + 1)
    case Failure(now) =>
      Breaker(if b.state.Closed? && b.failures + 1 < c.failureThreshold then Closed else Open,
              b.failures + 1, 0, now)
    case Reset => Breaker(Closed, 0, 0, b.lastFailure)
  }

  function Replay(c: Settings, h: seq<Event>): Breaker {
    if h == [] then Breaker(Closed, 0, 0, 0) else Record(c, Replay(c, Init(h)), Last(h))
  }

  lemma OpenUnfolds(c: Settings, h: seq<Event>)
    requires h != []
    ensures IsOpen(c, h) <==> Trips(c, h) || (IsOpen(c, Init(h)) && !Heals(c, h))
  {
    assert h[..|h|] == h;
    if Trips(c, h) {
      assert TrippedAt(c, h, |h|);
    }
    if IsOpen(c, Init(h)) && !Heals(c, h) {
      var k :| 0 <= k <= |h| - 1 && TrippedAt(c, Init(h), k);
      forall m | k < m <= |h| ensures !Heals(c, h[..m]) {
        assert m < |h| ==> h[..m] == Init(h)[..m];
      }
      assert h[..k] == Init(h)[..k];
      assert TrippedAt(c, h, k);
    }
    if IsOpen(c, h) && !Trips(c, h) {
      var k :| 0 <= k <= |h| && TrippedAt(c, h, k);
      forall m | k < m <= |Init(h)| ensures !Heals(c, Init(h)[..m]) {
        assert h[..m] == Init(h)[..m];
      }
      assert h[..k] == Init(h)[..k];
      assert TrippedAt(c, Init(h), k);
    }
  }

  /** The breaker's fields, read off its history. */
  lemma {:induction false} HistoryTellsState(c: Settings, h: seq<Event>)
    requires Sane(c)
    ensures var b := Replay(c, h);
            && b.failures == TrailingFailures(h)
            && (LastFailure(h).Some? ==> b.lastFailure == LastFailure(h).value)
            && (b.state.Open? <==> IsOpen(c, h))
            && (b.state.Closed? <==> !IsOpen(c, h))
            && (b.state.Closed? ==> b.failures < c.failureThreshold)
            && (b.state.Open? ==> b.successes == TrailingSuccesses(h) && LastFailure(h).Some?)
            && b.successes == SuccessRun(c, h)
    decreases |h|
  {
    if h == [] {
      assert forall k :: 0 <= k <= |h| ==> h[..k] == [];
    } else {
      HistoryTellsState(c, Init(h));
      OpenUnfolds(c, h);
    }
  }

  /** A request is refused exactly within Timeout of the last failure of an open breaker. */
  lemma RefusesIff(c: Settings, h: seq<Event>, now: Time)
    requires Sane(c)
    ensures Current(c, Replay(c, h), now) == Open <==>
            IsOpen(c, h) && LastFailure(h).Some? && now - LastFailure(h).value < c.timeout
  {
    HistoryTellsState(c, h);
  }

  /** A refusal needs a run of at least FailureThreshold failures since the last close or reset. */
  lemma RefusalNeedsFailures(c: Settings, h: seq<Event>, now: Time) returns (k: nat)
    requires Sane(c) && Current(c, Replay(c, h), now) == Open
    ensures k <= |h| && TrailingFailures(h[..k]) >= c.failureThreshold
    ensures forall m :: k < m <= |h| ==> !Heals(c, h[..m])
  {
    HistoryTellsState(c, h);
    k :| 0 <= k <= |h| && TrippedAt(c, h, k);
  }

  /** A success closes an open breaker exactly when the history says that it heals. */
  lemma SuccessClosesIff(c: Settings, h: seq<Event>, now: Time)
    requires Sane(c) && Replay(c, h).state.Open?
    ensures Replay(c, h + [Success(now)]).state.Closed? <==>
            LastFailure(h).Some? && now - LastFailure(h).value >= c.timeout
            && TrailingSuccesses(h) + 1 >= c.successThreshold
  {
    assert Init(h + [Success(now)]) == h && Last(h + [Success(now)]) == Success(now);
    HistoryTellsState(c, h);
  }

  // ---------------------------------------------------------------- the object

  class CircuitBreaker {
    var config: Settings
    var state: BreakerState
    var consecutiveFailures: nat
    var consecutiveSuccesses: nat
    var lastFailureTime: Time
    ghost var history: seq<Event>

    ghost predicate Valid()
      reads this
    {
      && Sane(config)
      && Breaker(state, consecutiveFailures, consecutiveSuccesses, lastFailureTime) == Replay(config, history)
    }

    constructor (config: Settings)
      ensures Valid() && history == []
      ensures this.config == Settings(
                if config.failureThreshold <= 0 then 5 else config.failureThreshold,
                if config.successThreshold <= 0 then 2 else config.successThreshold,
                if config.timeout <= 0 then 30 else config.timeout)
    {
      var resolved := config;
      if resolved.failureThreshold <= 0 {
        resolved := resolved.(failureThreshold := 5);
      }
      if resolved.successThreshold <= 0 {
        resolved := resolved.(successThreshold := 2);
      }
      if resolved.timeout <= 0 {
        resolved := resolved.(timeout := 30);
      }
      this.config := resolved;
      state, consecutiveFailures, consecutiveSuccesses, lastFailureTime := Closed, 0, 0, 0;
      history := [];
    }

    method CurrentState(now: Time) returns (s: BreakerState)
      ensures s == Current(config, Breaker(state, consecutiveFailures, consecutiveSuccesses, lastFailureTime), now)
    {
      if state == Open {
        if now - lastFailureTime >= config.timeout {
          return HalfOpen;
        }
      }
      return state;
    }

    method Allow(now: Time) returns (allowed: bool)
      requires Valid()
      ensures !allowed <==>
              IsOpen(config, history) && LastFailure(history).Some? && now - LastFailure(history).value < config.timeout
    {
      RefusesIff(config, history, now);
      var s := CurrentState(now);
      match s
      case Closed => return true;
      case Open => return false;
      case HalfOpen => return true;
    }

    method SetState(newState: BreakerState)
      modifies this`state
      ensures state == newState
    {
      if state == newState {
        return;
      }
      state := newState;
    }

    method RecordSuccess(now: Time)
      requires Valid()
      modifies this
      ensures Valid() && history == old(history) + [Success(now)] && config == old(config)
    {
      consecutiveFailures := 0;
      consecutiveSuccesses := consecutiveSuccesses + 1;
      var s := CurrentState(now);
      if s == HalfOpen {
        if consecutiveSuccesses >= config.successThreshold {
          SetState(Closed);
          consecutiveSuccesses := 0;
        }
      }
      Extended(history, Success(now));
      history := history + [Success(now)];
    }

    /** The clock is read twice: for the failure time, and again to find the current state. */
    method RecordFailure(now: Time, later: Time)
      requires Valid()
      modifies this
      ensures Valid() && history == old(history) + [Failure(now)] && config == old(config)
    {
      HistoryTellsState(config, history);
      consecutiveSuccesses := 0;
      consecutiveFailures := consecutiveFailures + 1;
      lastFailureTime := now;
      var s := CurrentState(later);
      match s {
        case Closed =>
          if consecutiveFailures >= config.failureThreshold {
            SetState(Open);
          }
        case HalfOpen => SetState(Open);
        case Open =>
      }
      Extended(history, Failure(now));
      history := history + [Failure(now)];
    }

    method Reset()
      requires Valid()
      modifies this
      ensures Valid() && history == old(history) + [Event.Reset] && config == old(config)
    {
      consecutiveFailures := 0;
      consecutiveSuccesses := 0;
      SetState(Closed);
      Extended(history, Event.Reset);
      history := history + [Event.Reset];
    }
  }

  lemma Extended(h: seq<Event>, e: Event)
    ensures Init(h + [e]) == h && Last(h + [e]) == e
  {
  }
}
