/** The retry policy of src/services/resilience.py.

    The operation, the sleep, the clock and the jitter are injected: a `World` steps an arbitrary state, and a
    sleep may be cut short because the caller is torn down.
    `Attempts` is the loop as a recursion over that state, the method `Run` is the loop itself, and the
    lemmas bound its length, its outcome and its waits in every world. */
module Retrying {
  import opened Errors
  import opened Reals

  datatype Policy = Policy(maxAttempts: int, initialBackoff: real, maxBackoff: real, budget: real) {
    /** At least one attempt is always made. */
    function Cap(): (n: nat)
      ensures n >= 1
    {
      if maxAttempts < 1 then 1 else maxAttempts
    }
  }

  function Pow2(n: nat): (p: nat)
    ensures p >= 1
  {
    if n == 0 then 1 else 2 * Pow2(n - 1)
  }

  /** `k` times the first backoff. */
  function Ramp(p: Policy, k: int): real {
    p.initialBackoff * k as real
  }

  /** `n` times the largest backoff. */
  function Ceiling(p: Policy, n: int): real {
    n as real * p.maxBackoff
  }

  /** Full jitter: a random part of the whole. */
  function Portion(whole: real, jitter: real): real {
    whole * jitter
  }

  /** The wait between attempt number `attempt`, which failed, and the next. */
  function DelayFor(p: Policy, attempt: nat, retryAfter: Option<real>, jitter: real): real
    requires attempt >= 1
  {
    match retryAfter
    case Some(seconds) => Min(seconds, p.maxBackoff)
    case None => Portion(Min(Ramp(p, Pow2(attempt - 1)), p.maxBackoff), jitter)
  }

  /** Why a loop ended: the last one is the teardown of its caller, in a sleep of `asked` seconds. */
  datatype Why = Answered | Broke | NotRetryable | OutOfAttempts | OverBudget | TornDown(asked: real)

  datatype Verdict = Stop(why: Why) | Wait(delay: real)

  /** What follows attempt number `attempt`, `elapsed` seconds after the start. */
  function Judge<T>(p: Policy, attempt: nat, o: Outcome<T>, elapsed: real, jitter: real): (v: Verdict)
    requires attempt >= 1
    ensures v.Wait? ==> o.Retryable() && attempt < p.maxAttempts
    ensures v.Stop? ==> !v.why.TornDown?
  {
    match o
    case Success(_) => Stop(Answered)
    case Crashed => Stop(Broke)
    case Failed(e) =>
      if !e.retryable then Stop(NotRetryable)
      else if attempt >= p.maxAttempts then Stop(OutOfAttempts)
      else
        var delay := DelayFor(p, attempt, e.retryAfter, jitter);
        if elapsed + delay > p.budget then Stop(OverBudget) else Wait(delay)
  }

  /** A sleep comes with whether it ran to its end. */
  datatype World<!S, !T> = World(
    attempt: S -> (S, Outcome<T>),
    sleep: (S, real) -> (S, bool),
    clock: S -> real,
    jitter: S -> real)

  /** How long a sleep really lasted, and whether it ran to its end. */
  datatype Nap = Nap(length: real, whole: bool)

  /** The clock never runs backwards, in the n-th call or in a sleep after it. */
  ghost predicate Forward(latency: nat -> real, nap: (nat, real) -> Nap) {
    && (forall n :: latency(n) >= 0.0)
    && (forall n, d :: nap(n, d).length >= 0.0)
  }

  /** A finished loop: the state it left, the state in which each attempt began, the outcome of each, the
      wait after each but the last. */
  datatype Loop<S, T> = Loop(final: S, starts: seq<S>, outcomes: seq<Outcome<T>>, waits: seq<real>, why: Why) {
    /** How the loop ends for its caller: as its last attempt did, unless it was torn down. */
    function Result(): Outcome<T>
      requires outcomes != []
    {
      if why.TornDown? then Crashed else outcomes[|outcomes| - 1]
    }

    /** The length of every sleep the loop went into. */
    function Asked(): seq<real> {
      waits + if why.TornDown? then [why.asked] else []
    }
  }

  /** The loop after `done` attempts. */
  function Attempts<S, T>(p: Policy, w: World<S, T>, started: real, done: nat, s: S): (r: Loop<S, T>)
    ensures r.outcomes != [] && |r.starts| == |r.outcomes|
    decreases p.maxAttempts - done
  {
    var (s1, o) := w.attempt(s);
    match Judge(p, done + 1, o, w.clock(s1) - started, w.jitter(s1))
    case Stop(why) => Loop(s1, [s], [o], [], why)
    case Wait(delay) =>
      var (s2, whole) := w.sleep(s1, delay);
      if !whole then Loop(s2, [s], [o], [], TornDown(delay))
      else
        var rest := Attempts(p, w, started, done + 1, s2);
        Loop(rest.final, [s] + rest.starts, [o] + rest.outcomes, [delay] + rest.waits, rest.why)
  }

  function Retry<S, T>(p: Policy, w: World<S, T>, s: S): Loop<S, T> {
    Attempts(p, w, w.clock(s), 0, s)
  }

  /** One turn of the loop. */
  lemma Turn<S, T>(p: Policy, w: World<S, T>, started: real, done: nat, s: S)
    ensures var (s1, o) := w.attempt(s);
            var v := Judge(p, done + 1, o, w.clock(s1) - started, w.jitter(s1));
            var r := Attempts(p, w, started, done, s);
            if v.Stop? then r == Loop(s1, [s], [o], [], v.why)
            else if !w.sleep(s1, v.delay).1 then r == Loop(w.sleep(s1, v.delay).0, [s], [o], [], TornDown(v.delay))
            else
              var rest := Attempts(p, w, started, done + 1, w.sleep(s1, v.delay).0);
              r == Loop(rest.final, [s] + rest.starts, [o] + rest.outcomes, [v.delay] + rest.waits, rest.why)
  {
  }

  /** A wait follows exactly a retryable failure with attempts and budget left. */
  lemma Judgement<T>(p: Policy, attempt: nat, o: Outcome<T>, elapsed: real, jitter: real)
    requires attempt >= 1
    ensures var v := Judge(p, attempt, o, elapsed, jitter);
            && (v.Wait? <==> o.Retryable() && attempt < p.maxAttempts
                             && elapsed + DelayFor(p, attempt, o.error.retryAfter, jitter) <= p.budget)
            && (v.Wait? ==> v.delay == DelayFor(p, attempt, o.error.retryAfter, jitter))
            && (v == Stop(OutOfAttempts) <==> o.Retryable() && attempt >= p.maxAttempts)
            && (v == Stop(OverBudget) <==> o.Retryable() && attempt < p.maxAttempts
                                           && elapsed + DelayFor(p, attempt, o.error.retryAfter, jitter) > p.budget)
            && (v == Stop(Answered) <==> o.Success?)
            && (v == Stop(Broke) <==> o.Crashed?)
  {
    hide DelayFor;
  }

  /** The loop itself. It ends, in the state and with the result of the recursion. */
  method Run<S, T>(p: Policy, w: World<S, T>, s0: S) returns (s: S, o: Outcome<T>, attempts: nat)
    ensures var r := Retry(p, w, s0);
            && s == r.final
            && attempts == |r.outcomes|
            && o == r.Result()
  {
    hide Judge, Attempts;
    var started := w.clock(s0);
    s := s0;
    attempts := 0;
    ghost var all := Retry(p, w, s0);
    while true
      invariant var rest := Attempts(p, w, started, attempts, s);
                && rest.final == all.final
                && attempts + |rest.outcomes| == |all.outcomes|
                && rest.Result() == all.Result()
      decreases p.maxAttempts - attempts
    {
      Turn(p, w, started, attempts, s);
      attempts := attempts + 1;
      var (s1, o1) := w.attempt(s);
      s, o := s1, o1;
      var verdict := Judge(p, attempts, o, w.clock(s) - started, w.jitter(s));
      if verdict.Stop? {
        return;
      }
      var (s2, whole) := w.sleep(s, verdict.delay);
      s := s2;
      if !whole {
        o := Crashed;
        return;
      }
    }
  }

  // ---------------------------------------------------------------------------------------
  // Length and outcome
  // ---------------------------------------------------------------------------------------

  lemma {:induction false} AttemptsShape<S, T>(p: Policy, w: World<S, T>, started: real, done: nat, s: S)
    requires done < p.Cap()
    ensures var r := Attempts(p, w, started, done, s);
            var n := |r.outcomes|;
            && 1 <= n <= p.Cap() - done
            && |r.waits| == n - 1
            && (forall i | 0 <= i < n - 1 :: r.outcomes[i].Retryable())
            && (r.outcomes[n - 1].Retryable() <==> r.why == OutOfAttempts || r.why == OverBudget || r.why.TornDown?)
            && (r.why == OutOfAttempts ==> n == p.Cap() - done)
            && (r.why.TornDown? ==> n < p.Cap() - done)
            && (r.outcomes[n - 1].Success? <==> r.why == Answered)
            && (r.outcomes[n - 1].Crashed? <==> r.why == Broke)
    decreases p.maxAttempts - done
  {
    hide Attempts, Judge, DelayFor;
    Turn(p, w, started, done, s);
    var (s1, o) := w.attempt(s);
    Judgement(p, done + 1, o, w.clock(s1) - started, w.jitter(s1));
    var verdict := Judge(p, done + 1, o, w.clock(s1) - started, w.jitter(s1));
    if verdict.Wait? {
      AttemptsShape(p, w, started, done + 1, w.sleep(s1, verdict.delay).0);
    }
  }

  /** Between one and `max(1, max_attempts)` attempts; every one before the last failed retryably; the
      result is the last one's, unless the loop was torn down in a sleep after it; and a retryable failure is
      only handed back when the attempts ran out or the next wait would have overrun the budget. */
  lemma RetryShape<S, T>(p: Policy, w: World<S, T>, s: S)
    ensures var r := Retry(p, w, s);
            var n := |r.outcomes|;
            && 1 <= n <= p.Cap()
            && |r.waits| == n - 1
            && (forall i | 0 <= i < n - 1 :: r.outcomes[i].Retryable())
            && (r.Result().Retryable() <==> r.why == OutOfAttempts || r.why == OverBudget)
            && (r.Result().Crashed? <==> r.outcomes[n - 1].Crashed? || r.why.TornDown?)
            && (r.why == OutOfAttempts ==> n == p.Cap())
            && (r.why.TornDown? ==> n < p.Cap() && r.outcomes[n - 1].Retryable())
  {
    AttemptsShape(p, w, w.clock(s), 0, s);
  }

  /** Attempt number `k`, begun in `s`, leads to a sleep of `d` that ends in `s'`, `whole` or not. */
  ghost predicate Leads<S, T>(p: Policy, w: World<S, T>, started: real, k: nat, s: S, s': S, d: real, whole: bool)
    requires k >= 1
  {
    var (s1, o) := w.attempt(s);
    && o.Retryable() && k < p.maxAttempts
    && d == DelayFor(p, k, o.error.retryAfter, w.jitter(s1))
    && w.clock(s1) - started + d <= p.budget
    && (s', whole) == w.sleep(s1, d)
  }

  /** The wait after attempt number `k`, which ended in `s1` with `o`, would not fit the budget. */
  ghost predicate Overruns<S, T>(p: Policy, w: World<S, T>, started: real, k: nat, s1: S, o: Outcome<T>)
    requires k >= 1
  {
    o.Retryable() && w.clock(s1) - started + DelayFor(p, k, o.error.retryAfter, w.jitter(s1)) > p.budget
  }

  /** Every attempt begins where the sleep after the one before it ends, and the loop where the last one does,
      or the sleep it is torn down in; `k` counts the attempts made before. */
  ghost predicate IsTrace<S, T>(p: Policy, w: World<S, T>, started: real, k: nat, r: Loop<S, T>) {
    var n := |r.outcomes|;
    && n >= 1 && |r.starts| == n && |r.waits| == n - 1
    && (forall i | 0 <= i < n :: r.outcomes[i] == w.attempt(r.starts[i]).1)
    && (forall i | 0 <= i < n - 1 :: Leads(p, w, started, k + i + 1, r.starts[i], r.starts[i + 1], r.waits[i], true))
    && (if r.why.TornDown? then Leads(p, w, started, k + n, r.starts[n - 1], r.final, r.why.asked, false)
        else r.final == w.attempt(r.starts[n - 1]).0)
    && (r.why == OverBudget ==> Overruns(p, w, started, k + n, r.final, r.outcomes[n - 1]))
  }

  lemma TraceGrows<S, T>(
      p: Policy, w: World<S, T>, started: real, k: nat, s: S, d: real, r: Loop<S, T>, rest: Loop<S, T>)
    requires IsTrace(p, w, started, k + 1, rest) && Leads(p, w, started, k + 1, s, rest.starts[0], d, true)
    requires r == Loop(rest.final, [s] + rest.starts, [w.attempt(s).1] + rest.outcomes, [d] + rest.waits, rest.why)
    ensures IsTrace(p, w, started, k, r)
  {
    hide Leads, DelayFor;
    var n := |r.outcomes|;
    assert k + n == k + 1 + |rest.outcomes|;
    forall i | 0 <= i < n - 1
      ensures Leads(p, w, started, k + i + 1, r.starts[i], r.starts[i + 1], r.waits[i], true)
    {
      if i > 0 {
        assert Leads(p, w, started, k + 1 + (i - 1) + 1, rest.starts[i - 1], rest.starts[i], rest.waits[i - 1], true);
        assert k + 1 + (i - 1) + 1 == k + i + 1;
      }
    }
  }

  lemma {:induction false} AttemptsAreATrace<S, T>(p: Policy, w: World<S, T>, started: real, done: nat, s: S)
    requires done < p.Cap()
    ensures var r := Attempts(p, w, started, done, s);
            IsTrace(p, w, started, done, r) && r.starts[0] == s
    decreases p.maxAttempts - done
  {
    hide Attempts, Judge, DelayFor;
    Turn(p, w, started, done, s);
    var (s1, o) := w.attempt(s);
    Judgement(p, done + 1, o, w.clock(s1) - started, w.jitter(s1));
    var verdict := Judge(p, done + 1, o, w.clock(s1) - started, w.jitter(s1));
    if verdict.Wait? {
      var (s2, whole) := w.sleep(s1, verdict.delay);
      if whole {
        AttemptsAreATrace(p, w, started, done + 1, s2);
        hide IsTrace;
        TraceGrows(p, w, started, done, s, verdict.delay, Attempts(p, w, started, done, s),
                   Attempts(p, w, started, done + 1, s2));
      }
    }
  }

  /** The loop step by step: each attempt begins after the wait the policy chose for the failure before it,
      every sleep gone into fitted the budget, and giving up on the budget means the next one did not. */
  lemma RetryIsATrace<S, T>(p: Policy, w: World<S, T>, s: S)
    ensures var r := Retry(p, w, s);
            IsTrace(p, w, w.clock(s), 0, r) && r.starts[0] == s
  {
    AttemptsAreATrace(p, w, w.clock(s), 0, s);
  }

  // ---------------------------------------------------------------------------------------
  // Waits
  // ---------------------------------------------------------------------------------------

  function Sum(xs: seq<real>): real {
    if xs == [] then 0.0 else xs[0] + Sum(xs[1..])
  }

  /** The clock does not run backwards during an attempt, and a sleep that runs to its end lasts at least what
      was asked. */
  ghost predicate TimeFlows<S(!new), T(!new)>(w: World<S, T>) {
    && (forall s :: w.clock(s) <= w.clock(w.attempt(s).0))
    && (forall s, d :: w.sleep(s, d).1 ==> w.clock(s) + d <= w.clock(w.sleep(s, d).0))
  }

  lemma {:induction false} WaitsWithinBudgetFrom<S(!new), T(!new)>(
      p: Policy, w: World<S, T>, started: real, done: nat, s: S, slept: real)
    requires TimeFlows(w) && done < p.Cap()
    requires slept <= w.clock(s) - started
    ensures var r := Attempts(p, w, started, done, s);
            r.Asked() != [] ==> slept + Sum(r.Asked()) <= p.budget
    decreases p.maxAttempts - done
  {
    hide Attempts, Judge, DelayFor;
    Turn(p, w, started, done, s);
    var (s1, o) := w.attempt(s);
    assert w.clock(s) <= w.clock(w.attempt(s).0);
    Judgement(p, done + 1, o, w.clock(s1) - started, w.jitter(s1));
    var verdict := Judge(p, done + 1, o, w.clock(s1) - started, w.jitter(s1));
    if verdict.Wait? {
      var d := verdict.delay;
      var (s2, whole) := w.sleep(s1, d);
      var r := Attempts(p, w, started, done, s);
      var rest := r.Asked()[1..];
      assert r.Asked()[0] == d;
      assert rest == [] ==> Sum(rest) == 0.0;
      if whole {
        assert w.clock(s1) + d <= w.clock(w.sleep(s1, d).0);
        WaitsWithinBudgetFrom(p, w, started, done + 1, s2, slept + d);
        assert rest == Attempts(p, w, started, done + 1, s2).Asked();
      }
    }
  }

  /** If the loop sleeps at all, the sleeps it goes into add up to no more than the budget. */
  lemma WaitsWithinBudget<S(!new), T(!new)>(p: Policy, w: World<S, T>, s: S)
    requires TimeFlows(w)
    ensures Retry(p, w, s).Asked() != [] ==> Sum(Retry(p, w, s).Asked()) <= p.budget
  {
    WaitsWithinBudgetFrom(p, w, w.clock(s), 0, s, 0.0);
  }

  lemma HintIsTheWait(p: Policy, attempt: nat, hint: Option<real>, jitter: real)
    requires attempt >= 1
    ensures hint.Some? ==> DelayFor(p, attempt, hint, jitter) == Min(hint.value, p.maxBackoff)
  {
  }

  /** The provider's own Retry-After is the wait, capped. */
  lemma WaitsAreHonest<S, T>(p: Policy, w: World<S, T>, s: S)
    ensures var r := Retry(p, w, s);
            && |r.waits| == |r.outcomes| - 1
            && forall i | 0 <= i < |r.waits| :: r.outcomes[i].Failed? && (r.outcomes[i].error.retryAfter.Some? ==>
                 r.waits[i] == Min(r.outcomes[i].error.retryAfter.value, p.maxBackoff))
  {
    hide Retry, DelayFor;
    RetryIsATrace(p, w, s);
    var r := Retry(p, w, s);
    forall i | 0 <= i < |r.waits|
      ensures r.outcomes[i].Failed? && (r.outcomes[i].error.retryAfter.Some? ==>
                r.waits[i] == Min(r.outcomes[i].error.retryAfter.value, p.maxBackoff))
    {
      assert Leads(p, w, w.clock(s), 0 + i + 1, r.starts[i], r.starts[i + 1], r.waits[i], true);
      HintIsTheWait(p, i + 1, r.outcomes[i].error.retryAfter, w.jitter(w.attempt(r.starts[i]).0));
    }
  }

  /** The first backoff doubled `i` times, capped. */
  function Step(p: Policy, i: nat): real {
    Min(p.initialBackoff * Pow2(i) as real, p.maxBackoff)
  }

  lemma UnhintedWait(p: Policy, i: nat, hint: Option<real>, jitter: real)
    requires hint == None
    ensures DelayFor(p, i + 1, hint, jitter) == Step(p, i) * jitter
  {
    assert i + 1 - 1 == i;
  }

  /** Without a Retry-After the wait after attempt `i + 1` is the i-th doubling of the first backoff, capped, times
      the jitter drawn then. */
  lemma WaitsAreJittered<S, T>(p: Policy, w: World<S, T>, s: S, i: nat)
    requires i < |Retry(p, w, s).waits|
    ensures var r := Retry(p, w, s);
            && |r.starts| == |r.outcomes| == |r.waits| + 1 && r.outcomes[i].Failed?
            && (r.outcomes[i].error.retryAfter == None ==>
                  r.waits[i] == Step(p, i) * w.jitter(w.attempt(r.starts[i]).0))
  {
    hide Retry, DelayFor, Step;
    RetryIsATrace(p, w, s);
    var r := Retry(p, w, s);
    assert Leads(p, w, w.clock(s), 0 + i + 1, r.starts[i], r.starts[i + 1], r.waits[i], true);
    if r.outcomes[i].error.retryAfter == None {
      UnhintedWait(p, i, r.outcomes[i].error.retryAfter, w.jitter(w.attempt(r.starts[i]).0));
    }
  }

  ghost predicate FairJitter<S(!new), T(!new)>(w: World<S, T>) {
    forall s :: 0.0 <= w.jitter(s) <= 1.0
  }

  ghost predicate NoHints<T>(outcomes: seq<Outcome<T>>) {
    forall i | 0 <= i < |outcomes| :: outcomes[i].Failed? ==> outcomes[i].error.retryAfter == None
  }

  lemma NoHintsSplit<T>(o: Outcome<T>, rest: seq<Outcome<T>>)
    requires NoHints([o] + rest)
    ensures NoHints(rest) && (o.Failed? ==> o.error.retryAfter == None)
  {
    var all := [o] + rest;
    assert all[0] == o && forall i | 0 <= i < |rest| :: rest[i] == all[i + 1];
  }

  lemma Shrink(x: real, j: real)
    requires x >= 0.0 && 0.0 <= j <= 1.0
    ensures 0.0 <= Portion(x, j) <= x
  {
  }

  lemma Linear(p: Policy, n: int, k: nat)
    ensures Ceiling(p, n + 1) == Ceiling(p, n) + p.maxBackoff && Ceiling(p, 0) == 0.0
    ensures p.initialBackoff >= 0.0 ==> Ramp(p, k) >= 0.0
  {
  }

  lemma Telescope(p: Policy, x: int, y: int, z: int)
    requires y == 2 * x
    ensures Ramp(p, x) + Ramp(p, z - y) == Ramp(p, z - x)
  {
  }

  /** One jittered wait is at most its exponential step and at most the ceiling. */
  lemma DelayBounds(p: Policy, attempt: nat, jitter: real)
    requires attempt >= 1 && p.initialBackoff >= 0.0 && p.maxBackoff >= 0.0 && 0.0 <= jitter <= 1.0
    ensures 0.0 <= DelayFor(p, attempt, None, jitter) <= Min(p.maxBackoff, Ramp(p, Pow2(attempt - 1)))
  {
    hide Ramp, Pow2, Portion;
    Linear(p, 0, Pow2(attempt - 1));
    Shrink(Min(Ramp(p, Pow2(attempt - 1)), p.maxBackoff), jitter);
  }

  lemma DelayDoubles(p: Policy, attempt: nat)
    requires attempt >= 1 && p.initialBackoff >= 0.0 && p.maxBackoff >= 0.0
    ensures DelayFor(p, 1, None, 1.0) == Min(p.initialBackoff, p.maxBackoff)
    ensures DelayFor(p, attempt + 1, None, 1.0) == Min(2.0 * DelayFor(p, attempt, None, 1.0), p.maxBackoff)
  {
    var x, y := Ramp(p, Pow2(attempt - 1)), Ramp(p, Pow2(attempt));
    assert Pow2(attempt) == 2 * Pow2(attempt - 1);
    Telescope(p, Pow2(attempt - 1), Pow2(attempt), Pow2(attempt));
    Linear(p, 0, Pow2(attempt - 1));
    FirstStep(p);
    hide Ramp, Pow2;
    assert y == 2.0 * x;
  }

  /** At full jitter and without Retry-After, the waits of any loop start at the first backoff and double from
      one attempt to the next, each capped. */
  lemma BackoffDoubles<S(!new), T(!new)>(p: Policy, w: World<S, T>, s: S, i: nat)
    requires (forall x :: w.jitter(x) == 1.0) && p.initialBackoff >= 0.0 && p.maxBackoff >= 0.0
    requires NoHints(Retry(p, w, s).outcomes) && i < |Retry(p, w, s).waits|
    ensures var waits := Retry(p, w, s).waits;
            waits[i] == Min(if i == 0 then p.initialBackoff else 2.0 * waits[i - 1], p.maxBackoff)
  {
    hide Retry, DelayFor;
    RetryIsATrace(p, w, s);
    var r := Retry(p, w, s);
    assert Leads(p, w, w.clock(s), 0 + i + 1, r.starts[i], r.starts[i + 1], r.waits[i], true);
    assert r.waits[i] == DelayFor(p, i + 1, None, 1.0);
    DelayDoubles(p, if i == 0 then 1 else i);
    if i > 0 {
      assert Leads(p, w, w.clock(s), 0 + (i - 1) + 1, r.starts[i - 1], r.starts[i], r.waits[i - 1], true);
      assert r.waits[i - 1] == DelayFor(p, i, None, 1.0);
    }
  }

  lemma FirstStep(p: Policy)
    ensures Ramp(p, Pow2(0)) == p.initialBackoff && Ramp(p, 0) == 0.0
  {
    assert Pow2(0) == 1;
  }

  lemma {:induction false} BackoffIsGeometricFrom<S(!new), T(!new)>(
      p: Policy, w: World<S, T>, started: real, done: nat, s: S)
    requires FairJitter(w) && done < p.Cap() && p.initialBackoff >= 0.0 && p.maxBackoff >= 0.0
    requires NoHints(Attempts(p, w, started, done, s).outcomes)
    ensures var r := Attempts(p, w, started, done, s);
            var n := |r.outcomes|;
            && Sum(r.waits) <= Ceiling(p, n - 1)
            && Sum(r.waits) <= Ramp(p, Pow2(done + n - 1) - Pow2(done))
    decreases p.maxAttempts - done
  {
    hide Attempts, Judge, Ramp, Ceiling, DelayFor, NoHints;
    Turn(p, w, started, done, s);
    var (s1, o) := w.attempt(s);
    Judgement(p, done + 1, o, w.clock(s1) - started, w.jitter(s1));
    var verdict := Judge(p, done + 1, o, w.clock(s1) - started, w.jitter(s1));
    Linear(p, 0, 0);
    if verdict.Wait? {
      var d, s2 := verdict.delay, w.sleep(s1, verdict.delay).0;
      var rest := Attempts(p, w, started, done + 1, s2);
      assert 0.0 <= w.jitter(s1) <= 1.0;
      if !w.sleep(s1, d).1 {
        return;
      }
      NoHintsSplit(o, rest.outcomes);
      DelayBounds(p, done + 1, w.jitter(s1));
      BackoffIsGeometricFrom(p, w, started, done + 1, s2);
      assert ([d] + rest.waits)[1..] == rest.waits;
      var n := |rest.outcomes|;
      Linear(p, n - 1, 0);
      assert done + 1 + n - 1 == done + n && Pow2(done + 1) == 2 * Pow2(done);
      Telescope(p, Pow2(done), Pow2(done + 1), Pow2(done + n));
      hide Pow2;
    }
  }

  /** Without Retry-After, n attempts wait at most `(n-1) * max_backoff` and at most
      `initial_backoff * (2^(n-1) - 1)` in total. */
  lemma BackoffIsGeometric<S(!new), T(!new)>(p: Policy, w: World<S, T>, s: S)
    requires FairJitter(w) && p.initialBackoff >= 0.0 && p.maxBackoff >= 0.0
    requires NoHints(Retry(p, w, s).outcomes)
    ensures var r := Retry(p, w, s);
            var n := |r.outcomes|;
            Sum(r.waits) <= Min(Ceiling(p, n - 1), Ramp(p, Pow2(n - 1) - 1))
  {
    hide Attempts, Ramp, Ceiling;
    BackoffIsGeometricFrom(p, w, w.clock(s), 0, s);
    assert Pow2(0) == 1;
  }

  lemma DelayUnderCeiling(p: Policy, attempt: nat, hint: Option<real>, jitter: real)
    requires attempt >= 1 && p.initialBackoff >= 0.0 && p.maxBackoff >= 0.0 && 0.0 <= jitter <= 1.0
    ensures DelayFor(p, attempt, hint, jitter) <= p.maxBackoff
  {
    if hint == None {
      DelayBounds(p, attempt, jitter);
    }
  }
}
