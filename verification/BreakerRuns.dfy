/** The circuit breaker shared by every request in flight: `_guarded_call` of src/services/completion.py
    asks, awaits the provider, and reports - and the awaits of different requests interleave freely.

    A run is a sequence of atomic steps of many calls. The theorems hold for every run. */
module BreakerRuns {
  import opened Breakers

  /** `Arrive` is the check before the call; the three others are the ways an admitted call ends. A call
      that ends in a non-retryable error (or is torn down) reports nothing. */
  datatype Step =
    | Arrive(id: nat, at: real)
    | Succeed(id: nat, at: real)
    | FailRetryably(id: nat, at: real)
    | FailOtherwise(id: nat, at: real)

  /** `admitted` counts the calls that reached the provider. */
  datatype System = System(breaker: Breaker, inFlight: set<nat>, admitted: nat)

  const INITIAL := System(FRESH, {}, 0)

  function Next(c: Config, s: System, step: Step): System {
    match step
    case Arrive(id, t) =>
      var b := Checked(c, s.breaker, t);
      if Admits(c, s.breaker, t) then System(b, s.inFlight + {id}, s.admitted + 1) else s.(breaker := b)
    case Succeed(id, _) => s.(breaker := Succeeded(s.breaker), inFlight := s.inFlight - {id})
    case FailRetryably(id, t) => s.(breaker := Failed(c, s.breaker, t), inFlight := s.inFlight - {id})
    case FailOtherwise(id, _) => s.(inFlight := s.inFlight - {id})
  }

  ghost predicate Enabled(s: System, step: Step) {
    step.Arrive? <==> step.id !in s.inFlight
  }

  function Exec(c: Config, run: seq<Step>): System {
    if run == [] then INITIAL else Next(c, Exec(c, run[..|run| - 1]), run[|run| - 1])
  }

  function Last(run: seq<Step>, start: real): real {
    if run == [] then start else run[|run| - 1].at
  }

  /** Every step is one its call can take, and the clock never runs backwards from `start`. */
  ghost predicate Legal(c: Config, run: seq<Step>, start: real) {
    run == [] ||
    (var before, step := run[..|run| - 1], run[|run| - 1];
     Legal(c, before, start) && Enabled(Exec(c, before), step) && Last(before, start) <= step.at)
  }

  /** At most `m` calls are ever in flight at once. */
  ghost predicate AtMostInFlight(c: Config, run: seq<Step>, m: nat) {
    |Exec(c, run).inFlight| <= m && (run == [] || AtMostInFlight(c, run[..|run| - 1], m))
  }

  lemma {:induction false} LegalPrefix(c: Config, run: seq<Step>, start: real, m: nat, k: nat)
    requires Legal(c, run, start) && k <= |run|
    ensures Legal(c, run[..k], start) && start <= Last(run[..k], start) <= Last(run, start)
    ensures k < |run| ==> Enabled(Exec(c, run[..k]), run[k]) && Last(run[..k], start) <= run[k].at
    ensures AtMostInFlight(c, run, m) ==> AtMostInFlight(c, run[..k], m)
    decreases |run|
  {
    hide Exec, Enabled;
    if k == |run| {
      assert run[..k] == run;
      if run != [] {
        LegalPrefix(c, run[..k - 1], start, m, k - 1);
      }
    } else {
      var before := run[..|run| - 1];
      LegalPrefix(c, before, start, m, k);
      assert before[..k] == run[..k];
    }
  }

  lemma {:induction false} InOrder(c: Config, run: seq<Step>, start: real)
    requires Legal(c, run, start)
    ensures forall i | 0 <= i < |run| :: start <= run[i].at <= Last(run, start)
    ensures forall i, j | 0 <= i < j < |run| :: run[i].at <= run[j].at
    decreases |run|
  {
    if run != [] {
      InOrder(c, run[..|run| - 1], start);
    }
  }

  // ---------------------------------------------------------------------------------------
  // Every interleaving obeys the history rule
  // ---------------------------------------------------------------------------------------

  /** What the breaker saw of a run. */
  function Seen(run: seq<Step>): seq<Event> {
    if run == [] then []
    else
      var before, step := Seen(run[..|run| - 1]), run[|run| - 1];
      match step
      case Arrive(_, t) => before + [Ask(t)]
      case Succeed(_, t) => before + [Success(t)]
      case FailRetryably(_, t) => before + [Failure(t)]
      case FailOtherwise(_, _) => before
  }

  lemma {:induction false} SeenIsOrdered(c: Config, run: seq<Step>, start: real, until: real)
    requires Legal(c, run, start) && Last(run, start) <= until
    ensures Ordered(Seen(run)) && NotAfter(Seen(run), until)
    decreases |run|
  {
    if run != [] {
      SeenIsOrdered(c, run[..|run| - 1], start, run[|run| - 1].at);
    }
  }

  lemma {:induction false} SeenIsReplayed(c: Config, run: seq<Step>)
    ensures Exec(c, run).breaker == Replay(c, Seen(run))
    decreases |run|
  {
    hide Checked, Succeeded, Failed, Admits, Replay;
    if run == [] {
      EmptyReplay(c);
    } else {
      var before := run[..|run| - 1];
      SeenIsReplayed(c, before);
      if !run[|run| - 1].FailOtherwise? {
        ReplayOne(c, Seen(before), Seen(run)[|Seen(run)| - 1]);
        assert Seen(run) == Seen(before) + [Seen(run)[|Seen(run)| - 1]];
      }
    }
  }

  lemma EmptyReplay(c: Config)
    ensures Replay(c, []) == FRESH
  {
  }

  /** In every interleaving of admissions and late outcomes, an arriving call is admitted exactly when
      fewer than `threshold` failures were recorded since the last success or `reset_timeout` has passed
      since the last of them; and the breaker's state is the one the history assigns. */
  lemma {:induction false} EveryInterleavingObeysHistory(c: Config, run: seq<Step>, start: real, id: nat, now: real)
    requires Legal(c, run + [Arrive(id, now)], start)
    ensures Exec(c, run + [Arrive(id, now)]).admitted
         == Exec(c, run).admitted + (if HistoryAdmits(c, Seen(run), now) then 1 else 0)
    ensures id in Exec(c, run + [Arrive(id, now)]).inFlight <==> HistoryAdmits(c, Seen(run), now)
    ensures Exec(c, run).breaker.state == HistoryState(c, Seen(run))
  {
    assert (run + [Arrive(id, now)])[..|run|] == run;
    SeenIsReplayed(c, run);
    SeenIsOrdered(c, run, start, now);
    AdmissionIsHistory(c, Seen(run), now);
    StateIsHistory(c, Seen(run));
  }

  // ---------------------------------------------------------------------------------------
  // Load during an outage
  // ---------------------------------------------------------------------------------------

  ghost predicate Outage(run: seq<Step>) {
    forall i | 0 <= i < |run| :: run[i].Arrive? || run[i].FailRetryably?
  }

  /** How many whole reset periods fit between two instants. */
  function Periods(c: Config, from: real, to: real): int
    requires c.resetTimeout > 0.0
  {
    ((to - from) / c.resetTimeout).Floor
  }

  lemma PeriodsGrow(c: Config, from: real, t: real, u: real)
    requires c.resetTimeout > 0.0 && t <= u
    ensures Periods(c, from, t) <= Periods(c, from, u)
    ensures from <= t ==> Periods(c, from, t) >= 0
    ensures t + c.resetTimeout <= u ==> Periods(c, from, t) + 1 <= Periods(c, from, u)
  {
    var r := c.resetTimeout;
    Quotient(t - from, u - from, r);
    Quotient(0.0, t - from, r);
    Quotient(t - from + r, u - from, r);
    OneMore((t - from) / r, t - from, r);
  }

  lemma ZeroProduct(a: real, r: real)
    requires r > 0.0 && a * r == 0.0
    ensures a == 0.0
  {
  }

  lemma OneMore(q: real, x: real, r: real)
    requires r > 0.0 && q == x / r
    ensures (x + r) / r == q + 1.0
  {
    var z := (x + r) / r;
    assert z * r == x + r && q * r == x;
    assert (z - (q + 1.0)) * r == 0.0;
    ZeroProduct(z - (q + 1.0), r);
  }

  lemma Quotient(x: real, y: real, r: real)
    requires r > 0.0
    ensures x <= y ==> x / r <= y / r
  {
    if x <= y {
      var d := y - x;
      assert d / r >= 0.0;
      assert y / r == x / r + d / r;
    }
  }

  /** What has been admitted so far, phase by phase. While closed, nothing but failures below the threshold
      and calls in flight; once open, at most `m` more per reset period completed before the last failure;
      while half-open, the probes are all still in flight. */
  ghost predicate LoadInvariant(c: Config, m: nat, s: System, start: real, now: real)
    requires c.resetTimeout > 0.0
  {
    var base := c.Limit() - 1 + m;
    && |s.inFlight| <= s.admitted
    && (s.breaker.state == Closed ==> s.admitted == s.breaker.failures + |s.inFlight| && s.breaker.failures < c.Limit())
    && (s.breaker.state != Closed ==> s.breaker.failures >= c.Limit() && start <= s.breaker.openedAt <= now)
    && (s.breaker.state == Open ==> s.admitted <= base + m * Periods(c, start, s.breaker.openedAt))
    && (s.breaker.state == HalfOpen ==>
          && s.breaker.openedAt + c.resetTimeout <= now
          && s.admitted - |s.inFlight| <= base + m * Periods(c, start, s.breaker.openedAt))
  }

  lemma Scale(m: nat, a: int, b: int)
    requires a <= b
    ensures m * a <= m * b
    ensures m * (a + 1) == m * a + m
  {
  }

  lemma {:induction false} LoadStep(c: Config, m: nat, s: System, step: Step, start: real, now: real)
    requires c.resetTimeout > 0.0 && LoadInvariant(c, m, s, start, now)
    requires now <= step.at && start <= step.at && Enabled(s, step) && (step.Arrive? || step.FailRetryably?)
    requires |s.inFlight| <= m && |Next(c, s, step).inFlight| <= m
    ensures LoadInvariant(c, m, Next(c, s, step), start, step.at)
  {
    var b, p := s.breaker, Periods(c, start, s.breaker.openedAt);
    var p' := Periods(c, start, step.at);
    PeriodsGrow(c, start, step.at, step.at);
    Scale(m, 0, p');
    if b.state != Closed {
      PeriodsGrow(c, start, b.openedAt, step.at);
      Scale(m, p, p');
      if b.openedAt + c.resetTimeout <= step.at {
        Scale(m, p + 1, p');
        Scale(m, p, p);
      }
    }
    hide Periods;
    if step.FailRetryably? {
      assert |s.inFlight - {step.id}| == |s.inFlight| - 1;
    } else {
      assert |s.inFlight + {step.id}| == |s.inFlight| + 1;
    }
  }

  lemma {:induction false} LoadHolds(c: Config, m: nat, run: seq<Step>, start: real)
    requires c.resetTimeout > 0.0 && Legal(c, run, start) && Outage(run) && AtMostInFlight(c, run, m)
    ensures LoadInvariant(c, m, Exec(c, run), start, Last(run, start))
    decreases |run|
  {
    if run != [] {
      var before := run[..|run| - 1];
      LoadHolds(c, m, before, start);
      LegalPrefix(c, run, start, m, |run| - 1);
      LoadStep(c, m, Exec(c, before), run[|run| - 1], start, Last(before, start));
    }
  }

  /** Calls that reached the provider no later than `until`. */
  function AdmittedBy(c: Config, run: seq<Step>, until: real): nat {
    if run == [] then 0
    else
      var n := |run| - 1;
      AdmittedBy(c, run[..n], until)
      + (if run[n].at <= until then Exec(c, run).admitted - Exec(c, run[..n]).admitted else 0)
  }

  lemma {:induction false} AdmittedByPrefix(c: Config, run: seq<Step>, start: real, until: real) returns (k: nat)
    requires Legal(c, run, start)
    ensures k <= |run| && AdmittedBy(c, run, until) == Exec(c, run[..k]).admitted
    ensures k > 0 ==> run[k - 1].at <= until
    ensures k < |run| ==> run[k].at > until
    decreases |run|
  {
    hide Next, Enabled;
    InOrder(c, run, start);
    k := 0;
    if run == [] {
      assert run[..0] == run;
    } else {
      var n := |run| - 1;
      k := AdmittedByPrefix(c, run[..n], start, until);
      assert run[..n][..k] == run[..k];
      if run[n].at <= until {
        k := n + 1;
        assert run[..k] == run;
      }
    }
  }

  /** The outage bound: with at most `m` calls in flight and every call failing retryably, at most
      `(threshold - 1 + m) + m * floor(length / reset_timeout)` calls reach the provider in the first
      `length` seconds of any run from a fresh breaker. */
  lemma {:induction false} OutageLoadBound(c: Config, m: nat, run: seq<Step>, start: real, length: real)
    requires c.resetTimeout > 0.0 && length >= 0.0
    requires Legal(c, run, start) && Outage(run) && AtMostInFlight(c, run, m)
    ensures AdmittedBy(c, run, start + length) <= c.Limit() - 1 + m + m * (length / c.resetTimeout).Floor
  {
    hide Next, Exec, AdmittedBy, LoadInvariant;
    var k := AdmittedByPrefix(c, run, start, start + length);
    LegalPrefix(c, run, start, m, k);
    LoadHolds(c, m, run[..k], start);
    LoadSoFar(c, m, Exec(c, run[..k]), start, Last(run[..k], start), start + length);
    assert start + length - start == length;
  }

  lemma LoadSoFar(c: Config, m: nat, s: System, start: real, now: real, until: real)
    requires c.resetTimeout > 0.0 && LoadInvariant(c, m, s, start, now) && |s.inFlight| <= m
    requires start <= now <= until
    ensures s.admitted <= c.Limit() - 1 + m + m * Periods(c, start, until)
  {
    var p, q := Periods(c, start, until), Periods(c, start, s.breaker.openedAt);
    PeriodsGrow(c, start, start, until);
    Scale(m, 0, p);
    if s.breaker.state != Closed {
      PeriodsGrow(c, start, s.breaker.openedAt, until);
      Scale(m, q, p);
      if s.breaker.state == HalfOpen {
        Scale(m, q + 1, p);
        Scale(m, q, q);
      }
    }
  }
}
