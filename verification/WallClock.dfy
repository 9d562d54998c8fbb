/** What the retry budget of src/services/resilience.py bounds in wall-clock time: the moment each sleep should
    end, and hence when the last attempt begins and when the loop ends. `BudgetIsKeptIff` says for which policies,
    attempts and sleeps that keeps every loop within the budget. */
module WallClock {
  import opened Errors
  import opened Reals
  import opened Retrying

  /** How long the attempt begun in `s` lasts. */
  function Length<S, T>(w: World<S, T>, s: S): real {
    w.clock(w.attempt(s).0) - w.clock(s)
  }

  /** When, after the start, attempt `i` of the loop begins. */
  function Begins<S, T>(w: World<S, T>, r: Loop<S, T>, i: nat): real
    requires r.starts != [] && i < |r.starts|
  {
    w.clock(r.starts[i]) - w.clock(r.starts[0])
  }

  /** When attempt `i` should begin: the moment the one before it failed, plus the wait chosen. */
  function Scheduled<S, T>(w: World<S, T>, r: Loop<S, T>, i: nat): real
    requires r.starts != [] && 0 < i < |r.starts| && |r.waits| == |r.starts| - 1
  {
    w.clock(w.attempt(r.starts[i - 1]).0) + r.waits[i - 1] - w.clock(r.starts[0])
  }

  /** By how much the sleep before attempt `i` outlasts what was asked. */
  function Overshoot<S, T>(w: World<S, T>, r: Loop<S, T>, i: nat): real
    requires r.starts != [] && 0 < i < |r.starts| && |r.waits| == |r.starts| - 1
  {
    Begins(w, r, i) - Scheduled(w, r, i)
  }

  /** How long the whole loop lasts. */
  function Elapsed<S, T>(w: World<S, T>, r: Loop<S, T>): real
    requires r.starts != []
  {
    w.clock(r.final) - w.clock(r.starts[0])
  }

  /** In every world, every attempt after the first is scheduled within the budget. */
  lemma EveryAttemptIsScheduledInBudget<S, T>(p: Policy, w: World<S, T>, s: S, i: nat)
    requires 0 < i < |Retry(p, w, s).starts|
    ensures var r := Retry(p, w, s);
            |r.waits| == |r.starts| - 1 && Scheduled(w, r, i) <= p.budget
  {
    hide Retry, DelayFor;
    RetryIsATrace(p, w, s);
    var r := Retry(p, w, s);
    assert Leads(p, w, w.clock(s), 0 + (i - 1) + 1, r.starts[i - 1], r.starts[i], r.waits[i - 1], true);
  }

  /** In every world, a loop outlasts the budget by at most the overshoot of its last sleep and the length of the
      attempt after it; only a single attempt may outlast it by more. */
  lemma OverrunIsOneSleepAndOneAttempt<S, T>(p: Policy, w: World<S, T>, s: S)
    ensures var r := Retry(p, w, s);
            var last := |r.starts| - 1;
            && |r.waits| == last
            && if r.why.TornDown? then
                 Elapsed(w, r) <= p.budget + (w.clock(r.final) - w.clock(w.attempt(r.starts[last]).0) - r.why.asked)
               else if last == 0 then Elapsed(w, r) == Length(w, s)
               else Elapsed(w, r) <= p.budget + Overshoot(w, r, last) + Length(w, r.starts[last])
  {
    RetryIsATrace(p, w, s);
    var r := Retry(p, w, s);
    if |r.starts| > 1 {
      EveryAttemptIsScheduledInBudget(p, w, s, |r.starts| - 1);
    }
  }

  // ---------------------------------------------------------------------------------------
  // Attempts of bounded length, sleeps of bounded overshoot
  // ---------------------------------------------------------------------------------------

  /** No attempt lasts longer than `longest`, no sleep overshoots by more than `late`, and failures may say how long
      to wait only if `hinted`. */
  datatype Bounds = Bounds(longest: real, late: real, hinted: bool)

  /** A wait that is asked for is allowed, and not negative. */
  predicate Asks<T>(o: Outcome<T>, hinted: bool) {
    o.Failed? && o.error.retryAfter.Some? ==> hinted && o.error.retryAfter.value >= 0.0
  }

  /** The world keeps within the bounds. */
  ghost predicate Paced<S(!new), T(!new)>(w: World<S, T>, b: Bounds) {
    && FairJitter(w)
    && (forall s :: Length(w, s) <= b.longest)
    && (forall s :: Asks(w.attempt(s).1, b.hinted))
    && (forall s, d :: d >= 0.0 ==> w.clock(w.sleep(s, d).0) <= w.clock(s) + d + b.late)
  }

  /** The clock never runs backwards. */
  ghost predicate Steady<S(!new), T(!new)>(w: World<S, T>) {
    && (forall s :: w.clock(s) <= w.clock(w.attempt(s).0))
    && (forall s, d :: w.clock(s) <= w.clock(w.sleep(s, d).0))
  }

  /** Nothing is negative. */
  predicate Sane(p: Policy, b: Bounds) {
    p.initialBackoff >= 0.0 && p.maxBackoff >= 0.0 && p.budget >= 0.0 && b.longest >= 0.0 && b.late >= 0.0
  }

  /** The largest wait after attempt number `k`: whatever may be asked for, or the exponential step. */
  function MostWait(p: Policy, b: Bounds, k: nat): real
    requires k >= 1
  {
    if b.hinted then p.maxBackoff else Min(Ramp(p, Pow2(k - 1)), p.maxBackoff)
  }

  /** How long the first `k` attempts take with their sleeps, all at their longest. */
  function Fill(p: Policy, b: Bounds, k: nat): real {
    if k == 0 then 0.0 else Fill(p, b, k - 1) + b.longest + MostWait(p, b, k) + b.late
  }

  lemma MostWaitIsAWait(p: Policy, b: Bounds, k: nat)
    requires k >= 1 && p.initialBackoff >= 0.0 && p.maxBackoff >= 0.0
    ensures 0.0 <= MostWait(p, b, k) <= p.maxBackoff
  {
    Linear(p, 0, Pow2(k - 1));
    hide Ramp, Pow2;
  }

  lemma {:induction false} FillGrows(p: Policy, b: Bounds, j: nat, k: nat)
    requires Sane(p, b) && j <= k
    ensures 0.0 <= Fill(p, b, j) <= Fill(p, b, k)
    decreases j + k
  {
    hide MostWait;
    if j < k {
      FillGrows(p, b, j, k - 1);
      MostWaitIsAWait(p, b, k);
    } else if k > 0 {
      FillGrows(p, b, k - 1, k - 1);
      MostWaitIsAWait(p, b, k);
    }
  }

  /** In closed form when waits may be asked for. */
  lemma {:induction false} FillIsLinear(p: Policy, b: Bounds, k: nat)
    requires b.hinted
    ensures Fill(p, b, k) == k as real * (b.longest + p.maxBackoff + b.late)
    decreases k
  {
    if k > 0 {
      var slice := b.longest + p.maxBackoff + b.late;
      FillIsLinear(p, b, k - 1);
      assert k as real * slice == (k - 1) as real * slice + slice;
    }
  }

  /** The latest an attempt can begin: one overshoot after the budget, or when every attempt before it and its
      sleep are as long as can be. */
  function LatestStart(p: Policy, b: Bounds): real {
    Min(p.budget + b.late, Fill(p, b, p.Cap() - 1))
  }

  /** The longest a loop can last. */
  function LongestLoop(p: Policy, b: Bounds): real {
    b.longest + LatestStart(p, b)
  }

  lemma WaitAtMost<S(!new), T(!new)>(
      p: Policy, w: World<S, T>, started: real, k: nat, s: S, s': S, d: real, whole: bool, b: Bounds)
    requires k >= 1 && Leads(p, w, started, k, s, s', d, whole)
    requires Paced(w, b) && p.initialBackoff >= 0.0 && p.maxBackoff >= 0.0
    ensures 0.0 <= d <= MostWait(p, b, k)
  {
    hide DelayFor, Ramp, Pow2;
    var (s1, o) := w.attempt(s);
    assert 0.0 <= w.jitter(s1) <= 1.0 && Asks(w.attempt(s).1, b.hinted);
    var hint := o.error.retryAfter;
    HintIsTheWait(p, k, hint, w.jitter(s1));
    if hint == None {
      DelayBounds(p, k, w.jitter(s1));
    }
  }

  /** One attempt and the sleep after it. */
  lemma LapTakes<S(!new), T(!new)>(
      p: Policy, w: World<S, T>, started: real, k: nat, s: S, s': S, d: real, whole: bool, b: Bounds)
    requires k >= 1 && Leads(p, w, started, k, s, s', d, whole)
    requires Paced(w, b) && p.initialBackoff >= 0.0 && p.maxBackoff >= 0.0
    ensures k < p.maxAttempts
    ensures w.clock(s') - started <= p.budget + b.late
    ensures w.clock(s') <= w.clock(s) + b.longest + MostWait(p, b, k) + b.late
  {
    WaitAtMost(p, w, started, k, s, s', d, whole, b);
    hide DelayFor, MostWait;
    assert Length(w, s) <= b.longest;
    var s1 := w.attempt(s).0;
    assert w.clock(w.sleep(s1, d).0) <= w.clock(s1) + d + b.late;
  }

  /** The budget bounds the loop: it plus one overshoot and one attempt, or one attempt alone. */
  lemma TotalTimeIsBounded<S(!new), T(!new)>(p: Policy, w: World<S, T>, s: S, b: Bounds)
    requires Paced(w, b) && p.initialBackoff >= 0.0 && p.maxBackoff >= 0.0
    ensures var r := Retry(p, w, s);
            Elapsed(w, r) <= if r.why.TornDown? then p.budget + b.late
                             else b.longest + (if |r.outcomes| > 1 then p.budget + b.late else 0.0)
    ensures var r := Retry(p, w, s);
            forall i | 0 < i < |r.starts| :: Begins(w, r, i) <= p.budget + b.late
  {
    RetryIsATrace(p, w, s);
    hide Attempts, Leads, MostWait, Paced;
    var r := Retry(p, w, s);
    hide Retry;
    var n := |r.starts|;
    forall i | 0 < i < n
      ensures Begins(w, r, i) <= p.budget + b.late
    {
      LapTakes(p, w, w.clock(s), 0 + (i - 1) + 1, r.starts[i - 1], r.starts[i], r.waits[i - 1], true, b);
    }
    if r.why.TornDown? {
      LapTakes(p, w, w.clock(s), 0 + n, r.starts[n - 1], r.final, r.why.asked, false, b);
    } else {
      NoAttemptIsLonger(w, r.starts[n - 1], b);
      assert n > 1 ==> Begins(w, r, n - 1) <= p.budget + b.late;
    }
  }

  lemma NoAttemptIsLonger<S(!new), T(!new)>(w: World<S, T>, s: S, b: Bounds)
    requires Paced(w, b)
    ensures Length(w, s) <= b.longest
  {
  }

  lemma {:induction false} BeginsBy<S(!new), T(!new)>(p: Policy, w: World<S, T>, s: S, b: Bounds, i: nat)
    requires Paced(w, b) && p.initialBackoff >= 0.0 && p.maxBackoff >= 0.0
    requires i < |Retry(p, w, s).starts|
    ensures Begins(w, Retry(p, w, s), i) <= Fill(p, b, i)
    decreases i
  {
    hide Retry, Leads, Paced, MostWait;
    if i > 0 {
      BeginsBy(p, w, s, b, i - 1);
      RetryIsATrace(p, w, s);
      var r := Retry(p, w, s);
      LapTakes(p, w, w.clock(s), 0 + (i - 1) + 1, r.starts[i - 1], r.starts[i], r.waits[i - 1], true, b);
    }
  }

  /** The attempts bound the loop too: all but the last, each with its longest sleep, and the last. */
  lemma TotalTimeIsBoundedByAttempts<S(!new), T(!new)>(p: Policy, w: World<S, T>, s: S, b: Bounds)
    requires Sane(p, b) && Paced(w, b)
    ensures var r, most := Retry(p, w, s), Fill(p, b, p.Cap() - 1);
            && Elapsed(w, r) <= (if r.why.TornDown? then most else b.longest + most)
            && forall i | 0 <= i < |r.starts| :: Begins(w, r, i) <= most
  {
    RetryShape(p, w, s);
    RetryIsATrace(p, w, s);
    var r := Retry(p, w, s);
    var n := |r.starts|;
    hide Retry, Leads, Paced, MostWait;
    forall i | 0 <= i < n
      ensures Begins(w, r, i) <= Fill(p, b, p.Cap() - 1)
    {
      BeginsBy(p, w, s, b, i);
      FillGrows(p, b, i, p.Cap() - 1);
    }
    NoAttemptIsLonger(w, r.starts[n - 1], b);
    assert Begins(w, r, n - 1) <= Fill(p, b, p.Cap() - 1);
    if r.why.TornDown? {
      LapTakes(p, w, w.clock(s), 0 + n, r.starts[n - 1], r.final, r.why.asked, false, b);
      BeginsBy(p, w, s, b, n - 1);
      FillGrows(p, b, n, p.Cap() - 1);
    }
  }

  /** Both bounds at once: no attempt begins after `LatestStart`, and no loop outlasts `LongestLoop`. */
  lemma NoLoopIsLonger<S(!new), T(!new)>(p: Policy, w: World<S, T>, s: S, b: Bounds)
    requires Sane(p, b) && Paced(w, b)
    ensures var r := Retry(p, w, s);
            && Elapsed(w, r) <= LongestLoop(p, b)
            && forall i | 0 <= i < |r.starts| :: Begins(w, r, i) <= LatestStart(p, b)
  {
    TotalTimeIsBounded(p, w, s, b);
    TotalTimeIsBoundedByAttempts(p, w, s, b);
    FillGrows(p, b, 0, p.Cap() - 1);
    RetryShape(p, w, s);
    RetryIsATrace(p, w, s);
    hide Retry, Leads, Paced, Fill;
  }

  // ---------------------------------------------------------------------------------------
  // Runs that exist
  // ---------------------------------------------------------------------------------------

  /** A world of attempts that all fail: the clock and the attempts made. */
  datatype Lap = Lap(now: real, made: nat)

  /** A failure that is worth repeating, with or without a wait to ask for. */
  function Failure(hint: Option<real>): Outcome<()> {
    Failed(AppError("upstream_rate_limited", "", 429, true, hint, map[]))
  }

  /** `n` failing attempts, then one that lasts its longest. The `n` and their waits take the same `share` of their
      longest, and so do the overshoots but the n-th, which is all it can be. */
  function Laps(p: Policy, b: Bounds, n: nat, share: real): World<Lap, ()> {
    var hint := if b.hinted then Some(Portion(p.maxBackoff, share)) else None;
    World(
      (s: Lap) =>
        (Lap(s.now + (if s.made < n then Portion(b.longest, share) else b.longest), s.made + 1), Failure(hint)),
      (s: Lap, d: real) =>
        (Lap(s.now + Max(d, 0.0) + (if s.made < n then Portion(b.late, share) else b.late), s.made), true),
      (s: Lap) => s.now,
      (s: Lap) => share)
  }

  /** When the attempt after `k` others begins. */
  function LapStart(p: Policy, b: Bounds, n: nat, share: real, k: nat): real {
    if k == 0 || k < n then Portion(Fill(p, b, k), share) else Portion(Fill(p, b, k) - b.late, share) + b.late
  }

  lemma PortionAdds(x: real, y: real, share: real)
    ensures Portion(x + y, share) == Portion(x, share) + Portion(y, share)
    ensures Portion(0.0, share) == 0.0 && Portion(x, 1.0) == x && Portion(x, 0.0) == 0.0
    ensures share >= 0.0 && y >= 0.0 ==> Portion(y, share) >= 0.0
  {
  }

  lemma LapsArePaced(p: Policy, b: Bounds, n: nat, share: real)
    requires Sane(p, b) && 0.0 <= share <= 1.0
    ensures Paced(Laps(p, b, n, share), b) && Steady(Laps(p, b, n, share))
    ensures forall s: Lap :: Laps(p, b, n, share).clock(s) == s.now
  {
    Shrink(b.longest, share);
    Shrink(b.late, share);
    Shrink(p.maxBackoff, share);
    hide Portion;
  }

  lemma FirstLap(p: Policy, b: Bounds, n: nat, share: real)
    ensures LapStart(p, b, n, share, 0) == 0.0
  {
    PortionAdds(0.0, 0.0, share);
  }

  lemma LapStartGrows(p: Policy, b: Bounds, n: nat, share: real, k: nat)
    requires Sane(p, b) && 0.0 <= share <= 1.0 && k < n && Portion(Fill(p, b, n) - b.late, share) <= p.budget
    ensures var failed := LapStart(p, b, n, share, k) + Portion(b.longest, share);
            var wait := Portion(MostWait(p, b, k + 1), share);
            && failed + wait <= p.budget
            && LapStart(p, b, n, share, k + 1)
               == failed + wait + (if k + 1 < n then Portion(b.late, share) else b.late)
  {
    var most := MostWait(p, b, k + 1);
    var upTo := Fill(p, b, k) + b.longest + most;
    assert Fill(p, b, k + 1) == upTo + b.late;
    FillGrows(p, b, k + 1, n);
    hide Portion, Fill, MostWait;
    PortionAdds(Fill(p, b, k), b.longest, share);
    PortionAdds(Fill(p, b, k) + b.longest, most, share);
    PortionAdds(upTo, b.late, share);
    var more := Fill(p, b, n) - b.late - upTo;
    PortionAdds(upTo, more, share);
    assert upTo + more == Fill(p, b, n) - b.late;
  }

  lemma LapIsJudged(p: Policy, b: Bounds, share: real, k: nat, elapsed: real)
    requires Sane(p, b) && 0.0 <= share <= 1.0 && k >= 1
    ensures var wait := Portion(MostWait(p, b, k), share);
            && wait >= 0.0
            && Judge(p, k, Failure(if b.hinted then Some(Portion(p.maxBackoff, share)) else None), elapsed, share)
               == if k >= p.maxAttempts then Stop(OutOfAttempts)
                  else if elapsed + wait > p.budget then Stop(OverBudget)
                  else Wait(wait)
  {
    MostWaitIsAWait(p, b, k);
    Shrink(p.maxBackoff, share);
    Shrink(MostWait(p, b, k), share);
    hide Portion, Ramp, Pow2;
  }

  lemma LapTurn(p: Policy, b: Bounds, n: nat, share: real, start: real, s: Lap)
    requires Sane(p, b) && 0.0 <= share <= 1.0 && s.made <= n == p.Cap() - 1
    requires s.made < n ==>
               s.now + Portion(b.longest, share) + Portion(MostWait(p, b, s.made + 1), share) <= start + p.budget
    ensures var w := Laps(p, b, n, share);
            var r := Attempts(p, w, start, s.made, s);
            if s.made == n then
              && |r.outcomes| == 1 && r.starts == [s] && r.why == OutOfAttempts
              && r.final == Lap(s.now + b.longest, n + 1)
            else
              var over := if s.made + 1 < n then Portion(b.late, share) else b.late;
              var next := s.now + Portion(b.longest, share) + Portion(MostWait(p, b, s.made + 1), share) + over;
              var rest := Attempts(p, w, start, s.made + 1, Lap(next, s.made + 1));
              && r.final == rest.final && r.why == rest.why
              && r.starts == [s] + rest.starts && |r.outcomes| == 1 + |rest.outcomes|
  {
    hide Attempts, Judge, DelayFor, Portion, MostWait;
    var w := Laps(p, b, n, share);
    var length := if s.made < n then Portion(b.longest, share) else b.longest;
    var s1 := Lap(s.now + length, s.made + 1);
    Turn(p, w, start, s.made, s);
    LapIsJudged(p, b, share, s.made + 1, s1.now - start);
    assert w.clock(s1) == s1.now && w.jitter(s1) == share;
    if s.made < n {
      var wait := Portion(MostWait(p, b, s.made + 1), share);
      var over := if s.made + 1 < n then Portion(b.late, share) else b.late;
      assert w.sleep(s1, wait) == (Lap(s1.now + wait + over, s.made + 1), true);
    }
  }

  lemma {:induction false} LapsTake(p: Policy, b: Bounds, n: nat, share: real, k: nat, start: real)
    requires Sane(p, b) && 0.0 <= share <= 1.0 && k <= n == p.Cap() - 1
    requires n > 0 ==> Portion(Fill(p, b, n) - b.late, share) <= p.budget
    ensures var end := start + LapStart(p, b, n, share, n);
            var s := Lap(start + LapStart(p, b, n, share, k), k);
            var r := Attempts(p, Laps(p, b, n, share), start, k, s);
            && |r.outcomes| == n + 1 - k && r.starts[|r.starts| - 1] == Lap(end, n)
            && r.final.now == end + b.longest
    decreases n - k
  {
    hide Attempts, Laps, LapStart, Portion, Fill, MostWait;
    var s := Lap(start + LapStart(p, b, n, share, k), k);
    if k < n {
      LapStartGrows(p, b, n, share, k);
      LapsTake(p, b, n, share, k + 1, start);
    }
    LapTurn(p, b, n, share, start, s);
  }

  /** The share that makes the last attempt begin as late as can be. */
  lemma FillingShare(p: Policy, b: Bounds, n: nat) returns (share: real)
    requires Sane(p, b) && n == p.Cap() - 1
    ensures 0.0 <= share <= 1.0
    ensures n > 0 ==> Portion(Fill(p, b, n) - b.late, share) <= p.budget
    ensures LapStart(p, b, n, share, n) == LatestStart(p, b)
  {
    var most := Fill(p, b, n) - b.late;
    FillGrows(p, b, 0, n);
    if most <= p.budget {
      share := 1.0;
      PortionAdds(most, 0.0, 1.0);
      PortionAdds(0.0, 0.0, 1.0);
      hide Portion, Fill;
    } else {
      share := Quotient(p.budget, most);
      PortionAdds(0.0, 0.0, share);
      hide Portion, Fill;
    }
  }

  lemma Quotient(x: real, y: real) returns (q: real)
    requires 0.0 <= x < y
    ensures 0.0 <= q <= 1.0 && Portion(y, q) == x
  {
    q := x / y;
    assert y * q == x;
  }

  /** The loop of this world that begins its last attempt as late as can be, and lasts as long. */
  lemma LapsAttain(p: Policy, start: real, b: Bounds) returns (share: real)
    requires Sane(p, b)
    ensures 0.0 <= share <= 1.0
    ensures var w := Laps(p, b, p.Cap() - 1, share);
            var r := Retry(p, w, Lap(start, 0));
            && |r.outcomes| == p.Cap()
            && Begins(w, r, p.Cap() - 1) == LatestStart(p, b)
            && Elapsed(w, r) == LongestLoop(p, b)
  {
    hide Attempts, Laps, LapStart, Portion, Fill, LatestStart, Paced, Steady;
    var n := p.Cap() - 1;
    share := FillingShare(p, b, n);
    var w, s := Laps(p, b, n, share), Lap(start, 0);
    LapsArePaced(p, b, n, share);
    FirstLap(p, b, n, share);
    LapsTake(p, b, n, share, 0, start);
    RetryIsATrace(p, w, s);
  }

  /** And both bounds are attained, by one loop on a clock that never runs backwards, for every policy and all bounds
      on attempts and sleeps, whether or not waits can be asked for. */
  lemma LongestLoopIsAttained(p: Policy, start: real, b: Bounds) returns (w: World<Lap, ()>, s: Lap)
    requires Sane(p, b)
    ensures Paced(w, b) && Steady(w)
    ensures var r := Retry(p, w, s);
            && |r.outcomes| == p.Cap()
            && Begins(w, r, p.Cap() - 1) == LatestStart(p, b)
            && Elapsed(w, r) == LongestLoop(p, b)
  {
    hide Laps, Attempts, LatestStart, Paced, Steady;
    var share := LapsAttain(p, start, b);
    w, s := Laps(p, b, p.Cap() - 1, share), Lap(start, 0);
    LapsArePaced(p, b, p.Cap() - 1, share);
  }

  // ---------------------------------------------------------------------------------------
  // When the budget is kept
  // ---------------------------------------------------------------------------------------

  /** Which policies keep their budget, by numbers known before the call. Whatever the attempts and the sleeps within
      the bounds, on a clock that never runs backwards: every loop ends within the budget iff nothing takes any time
      of its own, or the attempts run out before the budget does. Stated over the worlds of `Lap`; `NoLoopIsLonger`
      holds in every world, so the condition suffices in all of them. */
  lemma BudgetIsKeptIff(p: Policy, b: Bounds)
    requires Sane(p, b)
    ensures (forall w: World<Lap, ()>, s: Lap :: Paced(w, b) && Steady(w) ==> Elapsed(w, Retry(p, w, s)) <= p.budget)
       <==> b.longest + b.late == 0.0 || b.longest + Fill(p, b, p.Cap() - 1) <= p.budget
  {
    hide Attempts, Fill, Paced, Steady, Elapsed;
    var w0, s0 := LongestLoopIsAttained(p, 0.0, b);
    assert Paced(w0, b) && Steady(w0);
    forall w: World<Lap, ()>, s: Lap | Paced(w, b) && Steady(w)
      ensures Elapsed(w, Retry(p, w, s)) <= LongestLoop(p, b)
    {
      NoLoopIsLonger(p, w, s, b);
    }
  }

  /** And every attempt begins within the budget iff no sleep overshoots, or the attempts run out before the
      budget does, as when there is only one. */
  lemma StartsAreKeptIff(p: Policy, b: Bounds)
    requires Sane(p, b)
    ensures (forall w: World<Lap, ()>, s: Lap, i: nat ::
               Paced(w, b) && Steady(w) && i < |Retry(p, w, s).starts| ==> Begins(w, Retry(p, w, s), i) <= p.budget)
       <==> b.late == 0.0 || Fill(p, b, p.Cap() - 1) <= p.budget
  {
    hide Attempts, Fill, Paced, Steady, Begins;
    var w0, s0 := LongestLoopIsAttained(p, 0.0, b);
    assert Paced(w0, b) && Steady(w0);
    var n: nat := p.Cap() - 1;
    assert n < |Retry(p, w0, s0).starts| && Begins(w0, Retry(p, w0, s0), n) == LatestStart(p, b);
    forall w: World<Lap, ()>, s: Lap, i: nat | Paced(w, b) && Steady(w) && i < |Retry(p, w, s).starts|
      ensures Begins(w, Retry(p, w, s), i) <= LatestStart(p, b)
    {
      NoLoopIsLonger(p, w, s, b);
    }
  }

  /** A world whose state is the clock: every attempt lasts `length`, every sleep `over` longer than asked. */
  function Clockwork(length: real, over: real, o: Outcome<()>): World<real, ()> {
    World((s: real) => (s + length, o), (s: real, d: real) => (s + d + over, true), (s: real) => s, (s: real) => 0.0)
  }

  /** The budget is no wall-clock limit: under every policy, one attempt may outlast it by any time. */
  lemma OneAttemptOutlastsTheBudget(p: Policy, start: real, length: real)
    requires length > p.budget
    ensures var w := Clockwork(length, 0.0, Success(()));
            var r := Retry(p, w, start);
            |r.outcomes| == 1 && Elapsed(w, r) == length > p.budget
  {
    Turn(p, Clockwork(length, 0.0, Success(())), start, 0, start);
  }

  /** Nor does it bound when an attempt begins if a sleep overshoots: asked to sleep 5 s under a budget of 10 s,
      a sleep of 20 s lets the second attempt begin after 20 s. */
  lemma OvershootStartsLate()
    ensures var p := Policy(2, 0.5, 8.0, 10.0);
            var w := Clockwork(0.0, 15.0, Failure(Some(5.0)));
            var r := Retry(p, w, 0.0);
            |r.starts| == 2 && Begins(w, r, 1) == 20.0 > p.budget
  {
    var p := Policy(2, 0.5, 8.0, 10.0);
    var w := Clockwork(0.0, 15.0, Failure(Some(5.0)));
    HintIsTheWait(p, 1, Some(5.0), 0.0);
    Turn(p, w, 0.0, 0, 0.0);
    Turn(p, w, 0.0, 1, 20.0);
  }
}
