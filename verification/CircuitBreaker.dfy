/** The circuit breaker of src/services/resilience.py.

    The class updates its three fields in place; the lemma `StateIsHistory` says what they mean: the
    whole state is a function of the log of checks and reports, whatever order they arrived in. */
module Breakers {

  datatype CircuitState = Closed | Open | HalfOpen

  datatype Config = Config(threshold: int, resetTimeout: real) {
    /** The number of consecutive failures that opens the circuit: a threshold below one acts as one,
        because only a recorded failure compares the count. */
    function Limit(): (n: nat)
      ensures n >= 1
    {
      if threshold < 1 then 1 else threshold
    }
  }

  datatype Breaker = Breaker(state: CircuitState, failures: nat, openedAt: real)

  const FRESH := Breaker(Closed, 0, 0.0)

  function Admits(c: Config, b: Breaker, now: real): bool {
    b.state != Open || now - b.openedAt >= c.resetTimeout
  }

  function Checked(c: Config, b: Breaker, now: real): Breaker {
    if b.state == Open && Admits(c, b, now) then b.(state := HalfOpen) else b
  }

  function Succeeded(b: Breaker): Breaker {
    b.(state := Closed, failures := 0)
  }

  function Failed(c: Config, b: Breaker, now: real): Breaker {
    var n := b.failures + 1;
    if b.state == HalfOpen || n >= c.threshold then Breaker(Open, n, now) else b.(failures := n)
  }

  // ---------------------------------------------------------------------------------------
  // History
  // ---------------------------------------------------------------------------------------

  /** What the breaker is told, with the clock reading at that moment: a request asked to pass, a call
      succeeded, a call failed retryably. */
  datatype Event = Ask(at: real) | Success(at: real) | Failure(at: real)

  function Apply(c: Config, b: Breaker, e: Event): Breaker {
    match e
    case Ask(t) => Checked(c, b, t)
    case Success(_) => Succeeded(b)
    case Failure(t) => Failed(c, b, t)
  }

  function Replay(c: Config, h: seq<Event>): Breaker {
    if h == [] then FRESH else Apply(c, Replay(c, h[..|h| - 1]), h[|h| - 1])
  }

  /** Failures recorded since the last recorded success. */
  function FailuresSince(h: seq<Event>): nat {
    if h == [] then 0
    else match h[|h| - 1]
      case Ask(_) => FailuresSince(h[..|h| - 1])
      case Success(_) => 0
      case Failure(_) => FailuresSince(h[..|h| - 1]) + 1
  }

  /** When the last failure since the last success was recorded. */
  function LastFailure(h: seq<Event>): real
    requires FailuresSince(h) > 0
  {
    if h[|h| - 1].Failure? then h[|h| - 1].at else LastFailure(h[..|h| - 1])
  }

  /** Some request asked to pass at or after time `t`, since the last report. */
  function AskedSince(h: seq<Event>, t: real): bool {
    h != [] && h[|h| - 1].Ask? && (h[|h| - 1].at >= t || AskedSince(h[..|h| - 1], t))
  }

  ghost predicate Ordered(h: seq<Event>) {
    forall i, j | 0 <= i < j < |h| :: h[i].at <= h[j].at
  }

  ghost predicate NotAfter(h: seq<Event>, now: real) {
    forall i | 0 <= i < |h| :: h[i].at <= now
  }

  lemma StillNotAfter(h: seq<Event>, now: real, later: real)
    requires NotAfter(h, now) && now <= later
    ensures NotAfter(h, later)
  {
  }

  /** The admission rule a reader of the log alone would apply. */
  function HistoryAdmits(c: Config, h: seq<Event>, now: real): bool {
    FailuresSince(h) < c.Limit() || now - LastFailure(h) >= c.resetTimeout
  }

  /** The state a reader of the log alone would assign. */
  function HistoryState(c: Config, h: seq<Event>): CircuitState {
    if FailuresSince(h) < c.Limit() then Closed
    else if AskedSince(h, LastFailure(h) + c.resetTimeout) then HalfOpen
    else Open
  }

  lemma {:induction false} StateIsHistory(c: Config, h: seq<Event>)
    requires Ordered(h)
    ensures var b := Replay(c, h);
            && b.failures == FailuresSince(h)
            && b.state == HistoryState(c, h)
            && (b.state != Closed ==> b.openedAt == LastFailure(h))
    decreases |h|
  {
    if h != [] {
      StateIsHistory(c, h[..|h| - 1]);
    }
  }

  lemma {:induction false} AskedInThePast(h: seq<Event>, t: real, now: real)
    requires AskedSince(h, t) && NotAfter(h, now)
    ensures now >= t
    decreases |h|
  {
    if h[|h| - 1].at < t {
      AskedInThePast(h[..|h| - 1], t, now);
    }
  }

  /** Whatever order the reports of overlapping calls came in, the three-state machine admits a request
      exactly when fewer than `threshold` failures were recorded since the last success or at least
      `reset_timeout` has passed since the last failure. */
  lemma AdmissionIsHistory(c: Config, h: seq<Event>, now: real)
    requires Ordered(h) && NotAfter(h, now)
    ensures Admits(c, Replay(c, h), now) <==> HistoryAdmits(c, h, now)
  {
    StateIsHistory(c, h);
    if Replay(c, h).state == HalfOpen {
      AskedInThePast(h, LastFailure(h) + c.resetTimeout, now);
    }
  }

  // ---------------------------------------------------------------------------------------
  // The object
  // ---------------------------------------------------------------------------------------

  class CircuitBreaker {
    const config: Config
    var state: CircuitState
    var failures: nat
    var openedAt: real
    ghost var history: seq<Event>

    ghost function View(): Breaker
      reads this
    {
      Breaker(state, failures, openedAt)
    }

    ghost predicate Valid()
      reads this
    {
      Ordered(history) && View() == Replay(config, history)
    }

    constructor (config: Config)
      ensures Valid() && this.config == config && history == [] && View() == FRESH
    {
      this.config := config;
      state, failures, openedAt := Closed, 0, 0.0;
      history := [];
    }

    /** Passing and refusing are decided by the log alone. `false` stands for UpstreamCircuitOpen. */
    method BeforeCall(now: real) returns (admitted: bool)
      requires Valid() && NotAfter(history, now)
      modifies this`state, this`history
      ensures Valid() && history == old(history) + [Ask(now)]
      ensures admitted <==> HistoryAdmits(config, old(history), now)
      ensures admitted == Admits(config, old(View()), now)
      ensures View() == Checked(config, old(View()), now)
    {
      hide Replay, HistoryAdmits;
      AdmissionIsHistory(config, history, now);
      ReplayOne(config, history, Ask(now));
      history := history + [Ask(now)];
      if state != Open {
        return true;
      }
      if now - openedAt < config.resetTimeout {
        return false;
      }
      state := HalfOpen;
      return true;
    }

    method RecordSuccess(ghost now: real)
      requires Valid() && NotAfter(history, now)
      modifies this`state, this`failures, this`history
      ensures Valid() && history == old(history) + [Success(now)]
      ensures View() == Succeeded(old(View()))
    {
      hide Replay;
      ReplayOne(config, history, Success(now));
      history := history + [Success(now)];
      state := Closed;
      failures := 0;
    }

    method RecordFailure(now: real)
      requires Valid() && NotAfter(history, now)
      modifies this
      ensures Valid() && history == old(history) + [Failure(now)]
      ensures View() == Failed(config, old(View()), now)
    {
      hide Replay;
      ReplayOne(config, history, Failure(now));
      history := history + [Failure(now)];
      failures := failures + 1;
      if state == HalfOpen || failures >= config.threshold {
        Trip(now);
      }
    }

    method Trip(now: real)
      modifies this`state, this`openedAt
      ensures state == Open && openedAt == now
    {
      state := Open;
      openedAt := now;
    }
  }

  lemma ReplayOne(c: Config, h: seq<Event>, e: Event)
    ensures Replay(c, h + [e]) == Apply(c, Replay(c, h), e)
  {
    assert (h + [e])[..|h|] == h;
  }

  // ---------------------------------------------------------------------------------------
  // The half-open disjunct is redundant
  // ---------------------------------------------------------------------------------------

  /** The machine whose `record_failure` only compares the count. */
  function FailedByCount(c: Config, b: Breaker, now: real): Breaker {
    var n := b.failures + 1;
    if n >= c.threshold then Breaker(Open, n, now) else b.(failures := n)
  }

  function ReplayByCount(c: Config, h: seq<Event>): Breaker {
    if h == [] then FRESH
    else
      var b, e := ReplayByCount(c, h[..|h| - 1]), h[|h| - 1];
      if e.Failure? then FailedByCount(c, b, e.at) else Apply(c, b, e)
  }

  /** The two machines agree on every run, so "a failed probe reopens at once" is already implied by the
      count never having been reset. */
  lemma {:induction false} HalfOpenDisjunctIsRedundant(c: Config, h: seq<Event>)
    ensures ReplayByCount(c, h) == Replay(c, h)
    ensures Replay(c, h).state == Closed <==> Replay(c, h).failures < c.Limit()
    decreases |h|
  {
    if h != [] {
      HalfOpenDisjunctIsRedundant(c, h[..|h| - 1]);
    }
  }
}
