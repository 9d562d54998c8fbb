/** How far the circuit breaker follows the textbook diagram: always while calls do not overlap, and
    otherwise exactly until a success is recorded late, against an open circuit. */
module BreakerDiagram {
  import opened Breakers
  import opened BreakerRuns

  /** The arrows of the textbook diagram, and staying put. */
  predicate Textbook(from: CircuitState, to: CircuitState) {
    || from == to
    || (from == Closed && to == Open)
    || (from == Open && to == HalfOpen)
    || (from == HalfOpen && to != HalfOpen)
  }

  /** A step leaves the diagram iff it records a success while the circuit is open. */
  lemma OffDiagramOnlyByLateSuccess(c: Config, s: System, step: Step)
    ensures Textbook(s.breaker.state, Next(c, s, step).breaker.state)
       <==> !(step.Succeed? && s.breaker.state == Open)
  {
  }

  lemma {:induction false} OpenMeansIdle(c: Config, run: seq<Step>, start: real)
    requires Legal(c, run, start) && AtMostInFlight(c, run, 1)
    ensures Exec(c, run).breaker.state == Open ==> Exec(c, run).inFlight == {}
    decreases |run|
  {
    if run != [] {
      var before, step := run[..|run| - 1], run[|run| - 1];
      OpenMeansIdle(c, before, start);
      var s := Exec(c, before);
      if step.id in s.inFlight {
        assert |s.inFlight - {step.id}| == |s.inFlight| - 1;
      }
    }
  }

  /** While calls do not overlap, every step follows the textbook diagram. */
  lemma SequentialRunsFollowDiagram(c: Config, run: seq<Step>, start: real, k: nat)
    requires Legal(c, run, start) && AtMostInFlight(c, run, 1) && k < |run|
    ensures Textbook(Exec(c, run[..k]).breaker.state, Exec(c, run[..k + 1]).breaker.state)
  {
    LegalPrefix(c, run, start, 1, k);
    OpenMeansIdle(c, run[..k], start);
    assert run[..k + 1][..k] == run[..k];
    OffDiagramOnlyByLateSuccess(c, Exec(c, run[..k]), run[k]);
  }

  lemma ClosedMeansBelow(c: Config, run: seq<Step>)
    ensures Exec(c, run).breaker.state == Closed <==> Exec(c, run).breaker.failures < c.Limit()
  {
    SeenIsReplayed(c, run);
    HalfOpenDisjunctIsRedundant(c, Seen(run));
  }

  /** A failure since the last success is no later than the moment the circuit opened, and a half-open
      circuit has cooled off. */
  lemma {:induction false} OpenedLastAndCooled(c: Config, run: seq<Step>, start: real, i: nat)
    requires Legal(c, run, start) && i < |run| && run[i].FailRetryably?
    requires forall k | i < k < |run| :: !run[k].Succeed?
    ensures var b := Exec(c, run).breaker;
            && (b.state == Closed <==> b.failures < c.Limit())
            && (b.state != Closed ==> run[i].at <= b.openedAt)
            && (b.state == HalfOpen ==> b.openedAt + c.resetTimeout <= run[|run| - 1].at)
    decreases |run|
  {
    var n := |run| - 1;
    var before := run[..n];
    ClosedMeansBelow(c, before);
    InOrder(c, run, start);
    if i < n {
      OpenedLastAndCooled(c, before, start, i);
    }
  }

  /** While calls do not overlap, retryable failures beyond the threshold-th are at least `reset_timeout`
      apart from every earlier failure, as long as no success comes between. */
  lemma FailuresBeyondThresholdAreSpaced(c: Config, run: seq<Step>, start: real, i: nat, j: nat)
    requires Legal(c, run, start) && AtMostInFlight(c, run, 1)
    requires i < j < |run| && run[i].FailRetryably? && run[j].FailRetryably?
    requires forall k | i < k < j :: !run[k].Succeed?
    requires Exec(c, run[..j]).breaker.failures >= c.Limit()
    ensures run[j].at - run[i].at >= c.resetTimeout
  {
    LegalPrefix(c, run, start, 1, j);
    OpenMeansIdle(c, run[..j], start);
    OpenedLastAndCooled(c, run[..j], start, i);
  }

  // ---------------------------------------------------------------------------------------
  // Trials
  // ---------------------------------------------------------------------------------------

  function Arrivals(run: seq<Step>): nat {
    if run == [] then 0 else Arrivals(run[..|run| - 1]) + (if run[|run| - 1].Arrive? then 1 else 0)
  }

  /** The breaker is told nothing: a call arrives, or ends without a verdict on the provider. */
  predicate Silent(step: Step) {
    step.Arrive? || step.FailOtherwise?
  }

  lemma SilentStep(c: Config, s: System, step: Step)
    requires s.breaker.state == HalfOpen
    ensures Silent(step) ==> Next(c, s, step).breaker == s.breaker
    ensures !Silent(step) ==> Next(c, s, step).breaker.state != HalfOpen
    ensures Next(c, s, step).admitted == s.admitted + (if step.Arrive? then 1 else 0)
  {
  }

  lemma {:induction false} EveryArrivalIsATrial(c: Config, run: seq<Step>, h: nat, k: nat)
    requires h < k <= |run|
    requires Exec(c, run[..h]).breaker.state == Open && Exec(c, run[..h + 1]).breaker.state == HalfOpen
    requires forall i | h < i < k :: Silent(run[i])
    ensures Exec(c, run[..k]).breaker.state == HalfOpen
    ensures Exec(c, run[..k]).admitted == Exec(c, run[..h]).admitted + Arrivals(run[h..k])
    ensures Arrivals(run[h..k]) >= 1
    ensures Arrivals(run[h..k]) == 1 <==> forall i | h < i < k :: !run[i].Arrive?
    decreases k
  {
    assert run[..k][..k - 1] == run[..k - 1] && run[h..k][..k - h - 1] == run[h..k - 1];
    if k == h + 1 {
      assert run[h..h] == [];
    } else {
      EveryArrivalIsATrial(c, run, h, k - 1);
      SilentStep(c, Exec(c, run[..k - 1]), run[k - 1]);
      hide Next;
      assert Exec(c, run[..k]) == Next(c, Exec(c, run[..k - 1]), run[k - 1]);
    }
  }

  /** How many trials an open circuit lets through once it has cooled off at step `h`, up to step `k` with
      nothing reported in between: every call that arrives. So exactly one passes iff no second call arrives
      before the first report - and that report, whichever it is, ends the half-open phase. */
  lemma OneTrialIffAlone(c: Config, run: seq<Step>, h: nat, k: nat)
    requires h < k <= |run|
    requires Exec(c, run[..h]).breaker.state == Open && Exec(c, run[..h + 1]).breaker.state == HalfOpen
    requires forall i | h < i < k :: Silent(run[i])
    ensures var trials := Exec(c, run[..k]).admitted - Exec(c, run[..h]).admitted;
            && trials == Arrivals(run[h..k])
            && (trials == 1 <==> forall i | h < i < k :: !run[i].Arrive?)
    ensures Exec(c, run[..k]).breaker.state == HalfOpen
    ensures k < |run| ==> (Exec(c, run[..k + 1]).breaker.state == HalfOpen <==> Silent(run[k]))
  {
    EveryArrivalIsATrial(c, run, h, k);
    if k < |run| {
      assert run[..k + 1][..k] == run[..k];
      SilentStep(c, Exec(c, run[..k]), run[k]);
    }
  }

  // ---------------------------------------------------------------------------------------
  // Runs that exist
  // ---------------------------------------------------------------------------------------

  /** A number no call of `s` uses. */
  ghost function Unused(s: set<nat>): (n: nat)
    ensures forall x | x in s :: x < n
  {
    if s == {} then 0
    else
      var x :| x in s;
      assert s == s - {x} + {x};
      var n := Unused(s - {x});
      if n <= x then x + 1 else n
  }

  /** A run that can be going on at `now`. */
  ghost predicate Reached(c: Config, run: seq<Step>, start: real, m: nat, now: real) {
    Legal(c, run, start) && AtMostInFlight(c, run, m) && Last(run, start) <= now
  }

  lemma Extend(c: Config, run: seq<Step>, start: real, m: nat, step: Step)
    requires Reached(c, run, start, m, step.at) && Enabled(Exec(c, run), step)
    requires |Next(c, Exec(c, run), step).inFlight| <= m
    ensures Reached(c, run + [step], start, m, step.at)
    ensures Exec(c, run + [step]) == Next(c, Exec(c, run), step)
  {
    hide Next, Enabled;
    assert (run + [step])[..|run|] == run;
  }

  lemma ExtendBy(c: Config, run: seq<Step>, all: seq<Step>, step: Step)
    requires |run| < |all| && all[..|run| + 1] == run + [step]
    ensures all[..|run|] == run && all[|run|] == step
  {
    assert all[..|run| + 1][..|run|] == all[..|run|];
    assert all[..|run| + 1][|run|] == all[|run|];
  }

  /** If one call may pass at `now`, any number may, with no time passing. */
  lemma {:induction false} ArriveMany(c: Config, run: seq<Step>, start: real, m: nat, now: real, n: nat)
    returns (all: seq<Step>)
    requires Reached(c, run, start, m, now) && Admits(c, Exec(c, run).breaker, now)
    requires |Exec(c, run).inFlight| + n <= m
    ensures Reached(c, all, start, m, now) && |all| == |run| + n && all[..|run|] == run
    ensures forall i | |run| <= i < |all| :: all[i].Arrive? && all[i].at == now
    ensures Exec(c, all).admitted == Exec(c, run).admitted + n
    ensures |Exec(c, all).inFlight| == |Exec(c, run).inFlight| + n
    ensures Exec(c, all).breaker == if n == 0 then Exec(c, run).breaker else Checked(c, Exec(c, run).breaker, now)
    decreases n
  {
    hide Exec, Reached;
    all := run;
    if n > 0 {
      var s := Exec(c, run);
      var step := Arrive(Unused(s.inFlight), now);
      assert |s.inFlight + {step.id}| == |s.inFlight| + 1;
      Extend(c, run, start, m, step);
      all := ArriveMany(c, run + [step], start, m, now, n - 1);
      ExtendBy(c, run, all, step);
    }
  }

  function FailTimes(c: Config, b: Breaker, now: real, n: nat): Breaker
    decreases n
  {
    if n == 0 then b else FailTimes(c, Failed(c, b, now), now, n - 1)
  }

  lemma {:induction false} FailTimesOpens(c: Config, b: Breaker, now: real, n: nat)
    requires b.failures + n >= c.Limit() && n > 0
    requires b.state == Closed <==> b.failures < c.Limit()
    ensures FailTimes(c, b, now, n) == Breaker(Open, b.failures + n, now)
    decreases n
  {
    if n > 1 {
      FailTimesOpens(c, Failed(c, b, now), now, n - 1);
    }
  }

  /** A dead provider failing `n` calls one after another at `start`. */
  lemma {:induction false} FailInTurn(c: Config, start: real, m: nat, n: nat) returns (run: seq<Step>)
    requires m >= 1 && n < c.Limit()
    ensures Reached(c, run, start, m, start) && Outage(run)
    ensures Exec(c, run) == System(Breaker(Closed, n, FRESH.openedAt), {}, n)
    decreases n
  {
    run := [];
    if n > 0 {
      run := FailInTurn(c, start, m, n - 1);
      hide Exec, Reached;
      assert Exec(c, run) == System(Breaker(Closed, n - 1, FRESH.openedAt), {}, n - 1);
      var arrive, fail := Arrive(0, start), FailRetryably(0, start);
      Extend(c, run, start, m, arrive);
      Extend(c, run + [arrive], start, m, fail);
      assert {0} - {0} == {};
      run := run + [arrive] + [fail];
    }
  }

  /** `m` calls arrive at once and all fail. */
  lemma Wave(c: Config, before: seq<Step>, start: real, m: nat, now: real) returns (run: seq<Step>)
    requires m >= 1 && Reached(c, before, start, m, now) && Outage(before)
    requires var s := Exec(c, before);
             s.inFlight == {} && Admits(c, s.breaker, now) && s.breaker.failures + m >= c.Limit()
    ensures Reached(c, run, start, m, now) && Outage(run)
    ensures var s := Exec(c, before);
            Exec(c, run) == System(Breaker(Open, s.breaker.failures + m, now), {}, s.admitted + m)
  {
    hide Exec, Reached;
    ClosedMeansBelow(c, before);
    var arrived := ArriveMany(c, before, start, m, now, m);
    run := FailMost(c, arrived, start, m, now, m);
    FailTimesOpens(c, Exec(c, arrived).breaker, now, m);
    forall i | 0 <= i < |run| ensures run[i].Arrive? || run[i].FailRetryably? {
      if i < |arrived| {
        assert run[i] == run[..|arrived|][i];
        assert i < |before| ==> arrived[i] == arrived[..|before|][i];
      }
    }
  }

  /** The worst outage of `k` reset periods: everything the breaker lets through at once, each time it
      lets anything through. */
  lemma {:induction false} WorstOutage(c: Config, start: real, m: nat, k: nat) returns (run: seq<Step>)
    requires m >= 1 && c.resetTimeout > 0.0
    ensures Reached(c, run, start, m, start + k as real * c.resetTimeout) && Outage(run)
    ensures Exec(c, run).admitted == c.Limit() - 1 + m + m * k && Exec(c, run).inFlight == {}
    ensures var b := Exec(c, run).breaker;
            b.state == Open && b.failures >= c.Limit() && b.openedAt == start + k as real * c.resetTimeout
    decreases k
  {
    hide Exec;
    var now := start + k as real * c.resetTimeout;
    var before;
    if k == 0 {
      before := FailInTurn(c, start, m, c.Limit() - 1);
    } else {
      before := WorstOutage(c, start, m, k - 1);
      Scale(m, k - 1, k - 1);
      assert now == start + (k - 1) as real * c.resetTimeout + c.resetTimeout;
    }
    run := Wave(c, before, start, m, now);
  }

  /** The outage bound is exact: for every number of periods some run reaches it. */
  lemma OutageBoundIsAttained(c: Config, start: real, m: nat, k: nat)
    returns (run: seq<Step>, length: real)
    requires m >= 1 && c.resetTimeout > 0.0
    ensures Legal(c, run, start) && Outage(run) && AtMostInFlight(c, run, m)
    ensures length >= 0.0 && (length / c.resetTimeout).Floor == k
    ensures AdmittedBy(c, run, start + length) == c.Limit() - 1 + m + m * (length / c.resetTimeout).Floor
  {
    run := WorstOutage(c, start, m, k);
    length := k as real * c.resetTimeout;
    var until := start + length;
    Multiple(k, c.resetTimeout, length);
    hide Exec, AdmittedBy;
    InOrder(c, run, start);
    var j := AdmittedByPrefix(c, run, start, until);
    assert run[..j] == run;
  }

  lemma Multiple(k: nat, r: real, length: real)
    requires r > 0.0 && length == k as real * r
    ensures (length / r).Floor == k
  {
    var z := length / r;
    assert z * r == length;
    assert (z - k as real) * r == 0.0;
    ZeroProduct(z - k as real, r);
  }

  /** Half-open caps nothing: for every n some run sends n probes through at the same instant, the first
      moving the circuit to half-open and all of them still unanswered. */
  lemma ProbesAreNotCapped(c: Config, start: real, n: nat) returns (run: seq<Step>)
    requires n >= 1 && c.resetTimeout > 0.0
    ensures Legal(c, run, start) && |run| >= n
    ensures Exec(c, run[..|run| - n]).breaker.state == Open && Exec(c, run[..|run| - n]).inFlight == {}
    ensures Exec(c, run).breaker.state == HalfOpen && |Exec(c, run).inFlight| == n
    ensures forall i | |run| - n <= i < |run| :: run[i].at == run[|run| - 1].at
  {
    hide Exec;
    var before := WorstOutage(c, start, n, 0);
    run := ArriveMany(c, before, start, n, start + c.resetTimeout, n);
  }

  /** A late success closes an open circuit directly, at every threshold: `threshold` calls fail while one
      more is still in flight, and then that one succeeds. */
  lemma LateSuccessClosesOpenCircuit(c: Config, start: real) returns (run: seq<Step>, late: Step)
    ensures Legal(c, run + [late], start) && late.Succeed?
    ensures Exec(c, run).breaker.state == Open && Exec(c, run + [late]).breaker.state == Closed
  {
    hide Exec, Reached;
    var m := c.Limit() + 1;
    var empty := [];
    EmptyRun(c, start, m);
    var arrived := ArriveMany(c, empty, start, m, start, m);
    run := FailMost(c, arrived, start, m, start, c.Limit());
    FailTimesOpens(c, FRESH, start, c.Limit());
    var id :| id in Exec(c, run).inFlight;
    late := Succeed(id, start);
    Extend(c, run, start, m, late);
    assert Legal(c, run + [late], start) by { ReachedIsLegal(c, run + [late], start, m, start); }
  }

  lemma EmptyRun(c: Config, start: real, m: nat)
    ensures Reached(c, [], start, m, start) && Exec(c, []) == INITIAL
  {
  }

  lemma ReachedIsLegal(c: Config, run: seq<Step>, start: real, m: nat, now: real)
    requires Reached(c, run, start, m, now)
    ensures Legal(c, run, start) && |Exec(c, run).inFlight| <= m
  {
  }

  /** `n` of the calls in flight fail retryably at `now`. */
  lemma {:induction false} FailMost(c: Config, run: seq<Step>, start: real, m: nat, now: real, n: nat)
    returns (all: seq<Step>)
    requires Reached(c, run, start, m, now) && n <= |Exec(c, run).inFlight|
    ensures Reached(c, all, start, m, now) && |all| == |run| + n && all[..|run|] == run
    ensures forall i | |run| <= i < |all| :: all[i].FailRetryably?
    ensures Exec(c, all).admitted == Exec(c, run).admitted
    ensures |Exec(c, all).inFlight| == |Exec(c, run).inFlight| - n
    ensures Exec(c, all).breaker == FailTimes(c, Exec(c, run).breaker, now, n)
    decreases n
  {
    hide Exec, Reached;
    var s := Exec(c, run);
    all := run;
    if n > 0 {
      var id :| id in s.inFlight;
      assert |s.inFlight - {id}| == |s.inFlight| - 1;
      var step := FailRetryably(id, now);
      ReachedIsLegal(c, run, start, m, now);
      Extend(c, run, start, m, step);
      all := FailMost(c, run + [step], start, m, now, n - 1);
      ExtendBy(c, run, all, step);
    }
  }
}
