/** What a caller may rely on from one token bucket: the numbers reported with each decision are exact,
    and no admission policy living on the same refill could have granted more. */
module BucketPromises {
  import opened TokenBuckets

  ghost predicate InRange(l: Limit, b: Bucket) {
    0.0 <= b.tokens <= l.capacity as real
  }

  function BackToBack(t: real, n: nat): (cs: seq<Check>)
    ensures |cs| == n && forall i | 0 <= i < n :: cs[i] == Check(t, 1.0)
  {
    seq(n, _ => Check(t, 1.0))
  }

  ghost predicate AllOf(amount: real, cs: seq<Check>) {
    forall i | 0 <= i < |cs| :: cs[i].amount == amount
  }

  /** Exactly the first `k` of these checks were granted. */
  ghost predicate GrantsFirst(ds: seq<Decision>, k: int) {
    forall i | 0 <= i < |ds| :: ds[i].allowed <==> i < k
  }

  /** The tokens stay between 0 and the capacity through any life of a bucket. */
  lemma {:induction false} StaysInRange(l: Limit, b: Bucket, cs: seq<Check>)
    requires l.rate > 0.0 && InRange(l, b) && Ordered(b.updatedAt, cs)
    requires forall i | 0 <= i < |cs| :: cs[i].amount >= 0.0
    ensures InRange(l, After(l, b, cs))
    decreases |cs|
  {
    hide Gain;
    if cs != [] {
      GainPositive(l, b.updatedAt, cs[0].at);
      StaysInRange(l, Charge(l, b, cs[0].at, cs[0].amount), cs[1..]);
    }
  }

  /** Waiting until `u` accrues `x` tokens iff `u` is at least `x / rate` later. */
  lemma GainReaches(l: Limit, t: real, u: real, x: real)
    requires l.rate > 0.0
    ensures Gain(l, t, u) >= x <==> u >= t + x / l.rate
  {
    var v := t + x / l.rate;
    assert Gain(l, t, v) == x / l.rate * l.rate == x;
    GainAdds(l, t, v, u);
    GainAdds(l, t, u, v);
    GainPositive(l, v, u);
    GainPositive(l, u, v);
  }

  lemma {:induction false} LogEndsNow(l: Limit, b: Bucket, cs: seq<Check>)
    ensures |Log(l, b, cs)| == |cs|
    ensures forall i | 0 <= i < |cs| :: Log(l, b, cs)[i].at == cs[i].at
    decreases |cs|
  {
    if cs != [] {
      LogEndsNow(l, Charge(l, b, cs[0].at, cs[0].amount), cs[1..]);
    }
  }

  /** The limit is the limit over every window, with no boundary to straddle: from any check (or the
      creation) up to any later one, no more is granted than the capacity plus what accrues in between. */
  lemma {:induction false} NoWindowIsOverdrawn(l: Limit, t0: real, cs: seq<Check>, i: nat)
    requires l.rate > 0.0 && l.capacity >= 0 && Ordered(t0, cs) && i <= |cs|
    requires forall k | 0 <= k < |cs| :: cs[k].amount >= 0.0
    ensures var log := [Entry(t0, 0.0)] + Log(l, Full(l, t0), cs);
            |log| == |cs| + 1 && Spent(log[i..]) <= l.capacity as real + Gain(l, log[i].at, log[|cs|].at)
  {
    var log := [Entry(t0, 0.0)] + Log(l, Full(l, t0), cs);
    SlidingWindow(l, t0, cs, t0, 0.0);
    StaysInRange(l, Full(l, t0), cs);
    LogEndsNow(l, Full(l, t0), cs);
    hide Gain, Log, Spent;
    var b := After(l, Full(l, t0), cs);
    assert b.tokens <= Slack(l, log, i, b.updatedAt);
  }

  lemma PositiveQuotient(x: real, r: real)
    requires r > 0.0
    ensures x > 0.0 ==> x / r > 0.0
    ensures x == 0.0 ==> x / r == 0.0
  {
  }

  // ---------------------------------------------------------------------------------------
  // retry_after
  // ---------------------------------------------------------------------------------------

  lemma GrantedFrom(l: Limit, b: Bucket, amount: real, u: real)
    requires l.rate > 0.0
    ensures Decide(l, b, u, amount).allowed
       <==> amount <= l.capacity as real && u >= b.updatedAt + (amount - b.tokens) / l.rate
  {
    hide Gain;
    GainReaches(l, b.updatedAt, u, amount - b.tokens);
  }

  lemma {:induction false} RefusedUntil(l: Limit, b: Bucket, base: Bucket, amount: real, cs: seq<Check>)
    requires l.rate > 0.0
    requires Catches(l, b, base) && Ordered(b.updatedAt, cs) && AllOf(amount, cs)
    requires forall i | 0 <= i < |cs| :: cs[i].at < base.updatedAt + (amount - base.tokens) / l.rate
    ensures forall i | 0 <= i < |cs| :: !Decisions(l, b, cs)[i].allowed
    ensures Catches(l, After(l, b, cs), base)
    ensures cs != [] ==> After(l, b, cs).updatedAt == cs[|cs| - 1].at
    decreases |cs|
  {
    hide Refill, Charge, Decide, Catches;
    if cs != [] {
      var next := Charge(l, b, cs[0].at, amount);
      CatchesStep(l, b, base, cs[0]);
      GrantedFrom(l, base, amount, cs[0].at);
      RefusedUntil(l, next, base, amount, cs[1..]);
    }
  }

  /** A refusal announces a wait; checks before it has passed are all refused, however many the caller makes,
      and the first one at or after it is granted - unless it asks for more than the bucket ever holds, which
      is never granted. */
  lemma RetryAfterIsExact(l: Limit, b: Bucket, t: real, amount: real, later: seq<Check>, u: real)
    requires l.rate > 0.0
    requires b.updatedAt <= t && !Decide(l, b, t, amount).allowed
    requires Ordered(t, later) && AllOf(amount, later)
    requires forall i | 0 <= i < |later| :: later[i].at < t + Decide(l, b, t, amount).retryAfter
    requires t <= u && (later != [] ==> later[|later| - 1].at <= u)
    ensures Decide(l, b, t, amount).retryAfter > 0.0
    ensures var refused := Charge(l, b, t, amount);
            && (forall i | 0 <= i < |later| :: !Decisions(l, refused, later)[i].allowed)
            && (Decide(l, After(l, refused, later), u, amount).allowed
                <==> amount <= l.capacity as real && u >= t + Decide(l, b, t, amount).retryAfter)
  {
    hide Gain;
    var refused := Charge(l, b, t, amount);
    assert Decide(l, b, t, amount).retryAfter == (amount - refused.tokens) / l.rate;
    PositiveQuotient(amount - refused.tokens, l.rate);
    RefusedUntil(l, refused, refused, amount, later);
    assert later == [] ==> After(l, refused, later) == refused;
    CatchesStep(l, After(l, refused, later), refused, Check(u, amount));
    GrantedFrom(l, refused, amount, u);
  }

  // ---------------------------------------------------------------------------------------
  // remaining and reset_after
  // ---------------------------------------------------------------------------------------

  lemma {:induction false} EnoughTokens(l: Limit, b: Bucket, cs: seq<Check>)
    requires l.rate > 0.0 && Ordered(b.updatedAt, cs) && AllOf(1.0, cs)
    requires |cs| as real <= b.tokens <= l.capacity as real
    ensures forall i | 0 <= i < |cs| :: Decisions(l, b, cs)[i].allowed
    decreases |cs|
  {
    hide Gain;
    if cs != [] {
      GainPositive(l, b.updatedAt, cs[0].at);
      var next := Charge(l, b, cs[0].at, 1.0);
      assert |cs[1..]| as real == |cs| as real - 1.0;
      EnoughTokens(l, next, cs[1..]);
      assert Decisions(l, b, cs)[1..] == Decisions(l, next, cs[1..]);
    }
  }

  /** With no time passing, exactly as many unit checks pass as there are whole tokens. */
  lemma {:induction false} Burst(l: Limit, b: Bucket, n: nat)
    requires l.rate > 0.0 && InRange(l, b)
    ensures GrantsFirst(Decisions(l, b, BackToBack(b.updatedAt, n)), b.tokens.Floor)
    decreases n
  {
    hide Gain;
    if n > 0 {
      GainAdds(l, b.updatedAt, b.updatedAt, b.updatedAt);
      assert Refill(l, b, b.updatedAt) == b;
      var next := Charge(l, b, b.updatedAt, 1.0);
      Burst(l, next, n - 1);
      assert BackToBack(b.updatedAt, n)[1..] == BackToBack(b.updatedAt, n - 1);
      assert b.tokens >= 1.0 ==> (b.tokens - 1.0).Floor == b.tokens.Floor - 1;
      var ds, rest := Decisions(l, b, BackToBack(b.updatedAt, n)), Decisions(l, next, BackToBack(b.updatedAt, n - 1));
      assert ds == [Decide(l, b, b.updatedAt, 1.0)] + rest;
      assert forall i | 1 <= i < n :: ds[i] == rest[i - 1];
    }
  }

  /** A reported `remaining` of n is n checks granted whenever they come, and not one more if no time
      passes; it never exceeds the reported limit, and a granted check announces no wait. */
  lemma {:induction false} RemainingIsExact(l: Limit, b: Bucket, t: real, amount: real, later: seq<Check>)
    requires l.rate > 0.0 && InRange(l, b) && b.updatedAt <= t && amount >= 0.0
    requires Ordered(t, later) && AllOf(1.0, later)
    requires |later| <= Decide(l, b, t, amount).remaining
    ensures var left := Charge(l, b, t, amount);
            var n := Decide(l, b, t, amount).remaining;
            && (forall i | 0 <= i < |later| :: Decisions(l, left, later)[i].allowed)
            && 0 <= n <= Decide(l, b, t, amount).limit
            && (Decide(l, b, t, amount).allowed ==> Decide(l, b, t, amount).retryAfter == 0.0)
            && GrantsFirst(Decisions(l, left, BackToBack(t, n + 1)), n)
  {
    hide Gain;
    GainPositive(l, b.updatedAt, t);
    var left := Charge(l, b, t, amount);
    assert InRange(l, left);
    assert |later| as real <= left.tokens.Floor as real <= left.tokens;
    EnoughTokens(l, left, later);
    Burst(l, left, Decide(l, b, t, amount).remaining + 1);
  }

  lemma RefillFirst(l: Limit, b: Bucket, t: real, n: nat)
    requires l.rate > 0.0
    ensures Decisions(l, b, BackToBack(t, n)) == Decisions(l, Refill(l, b, t), BackToBack(t, n))
  {
    if n > 0 {
      RefillTwice(l, b, t, t);
    }
  }

  /** Idling for `reset_after` is exactly what makes a burst of the reported `limit` pass: as many back-to-back
      checks are all granted iff at least that much time passed, and one more never is. It is zero iff the bucket
      is left full. */
  lemma {:induction false} ResetAfterIsExact(l: Limit, b: Bucket, t: real, amount: real, u: real)
    requires l.rate > 0.0 && InRange(l, b) && b.updatedAt <= t <= u && amount >= 0.0
    ensures Decide(l, b, t, amount).limit >= 0
    ensures Decide(l, b, t, amount).resetAfter >= 0.0
    ensures Decide(l, b, t, amount).resetAfter == 0.0 <==> Charge(l, b, t, amount) == Full(l, t)
    ensures var n := Decide(l, b, t, amount).limit;
            var ds := Decisions(l, Charge(l, b, t, amount), BackToBack(u, n + 1));
            && !ds[n].allowed
            && ((forall i | 0 <= i < n :: ds[i].allowed) <==> n == 0 || u >= t + Decide(l, b, t, amount).resetAfter)
  {
    hide Gain;
    GainPositive(l, b.updatedAt, t);
    GainPositive(l, t, u);
    var left := Charge(l, b, t, amount);
    var ready := Refill(l, left, u);
    RefillFirst(l, left, u, l.capacity + 1);
    Burst(l, ready, l.capacity + 1);
    GainReaches(l, t, u, l.capacity as real - left.tokens);
    PositiveQuotient(l.capacity as real - left.tokens, l.rate);
    var ds := Decisions(l, left, BackToBack(u, l.capacity + 1));
    if l.capacity > 0 {
      assert ds[l.capacity - 1].allowed <==> l.capacity - 1 < ready.tokens.Floor;
      assert ready.tokens.Floor >= l.capacity <==> ready.tokens == l.capacity as real;
    }
  }

  // ---------------------------------------------------------------------------------------
  // Greedy is optimal
  // ---------------------------------------------------------------------------------------

  /** A bucket with the same refill whose owner decides for itself whether to spend a token. */
  function Spend(l: Limit, b: Bucket, t: real, grant: bool): Bucket {
    var r := Refill(l, b, t);
    if grant then r.(tokens := r.tokens - 1.0) else r
  }

  /** The policy `grants` never overdraws its own bucket on the arrivals `times`. */
  ghost predicate Solvent(l: Limit, b: Bucket, times: seq<real>, grants: seq<bool>)
    requires |times| == |grants|
    decreases |times|
  {
    times == [] ||
    (var next := Spend(l, b, times[0], grants[0]);
     next.tokens >= 0.0 && Solvent(l, next, times[1..], grants[1..]))
  }

  function Count(grants: seq<bool>): nat {
    if grants == [] then 0 else (if grants[0] then 1 else 0) + Count(grants[1..])
  }

  /** What the bucket of this program grants on the same arrivals. */
  function Greedy(l: Limit, b: Bucket, times: seq<real>): (grants: seq<bool>)
    requires l.rate > 0.0
    ensures |grants| == |times|
    decreases |times|
  {
    if times == [] then []
    else [Decide(l, b, times[0], 1.0).allowed] + Greedy(l, Charge(l, b, times[0], 1.0), times[1..])
  }

  /** The other policy's spare tokens never exceed the grants it is behind by. */
  lemma {:induction false} GreedyStaysAhead(
      l: Limit, g: Bucket, o: Bucket, times: seq<real>, grants: seq<bool>, lead: nat)
    requires l.rate > 0.0 && |times| == |grants| && Solvent(l, o, times, grants)
    requires g.updatedAt == o.updatedAt && o.tokens - g.tokens <= lead as real
    ensures Count(grants) <= lead + Count(Greedy(l, g, times))
    decreases |times|
  {
    hide Gain;
    if times != [] {
      var mine, theirs := Decide(l, g, times[0], 1.0).allowed, grants[0];
      var g', o' := Charge(l, g, times[0], 1.0), Spend(l, o, times[0], theirs);
      assert Refill(l, o, times[0]).tokens - Refill(l, g, times[0]).tokens <= lead as real;
      var lead' := lead + (if mine then 1 else 0) - (if theirs then 1 else 0);
      assert !mine && theirs ==> lead > 0;
      GreedyStaysAhead(l, g', o', times[1..], grants[1..], lead');
      assert Greedy(l, g, times)[1..] == Greedy(l, g', times[1..]);
    }
  }

  lemma {:induction false} PrefixesAgree(l: Limit, b: Bucket, o: Bucket, times: seq<real>, grants: seq<bool>, k: nat)
    requires l.rate > 0.0 && |times| == |grants| && k <= |times| && Solvent(l, o, times, grants)
    ensures Greedy(l, b, times[..k]) == Greedy(l, b, times)[..k]
    ensures Solvent(l, o, times[..k], grants[..k])
    decreases k
  {
    hide Charge, Decide, Spend;
    if k > 0 {
      PrefixesAgree(l, Charge(l, b, times[0], 1.0), Spend(l, o, times[0], grants[0]), times[1..], grants[1..], k - 1);
      assert times[..k][1..] == times[1..][..k - 1] && grants[..k][1..] == grants[1..][..k - 1];
    }
  }

  /** No policy whose own bucket, with the same capacity and rate, never goes negative has granted more
      requests than `take` after any number of arrivals - even one that knows all arrivals in advance. */
  lemma {:induction false} GreedyIsOptimal(l: Limit, t0: real, times: seq<real>, grants: seq<bool>, k: nat)
    requires l.rate > 0.0 && |times| == |grants| && k <= |times|
    requires Solvent(l, Full(l, t0), times, grants)
    ensures Count(grants[..k]) <= Count(Greedy(l, Full(l, t0), times)[..k])
  {
    PrefixesAgree(l, Full(l, t0), Full(l, t0), times, grants, k);
    GreedyStaysAhead(l, Full(l, t0), Full(l, t0), times[..k], grants[..k], 0);
  }

  /** And `take` is itself such a policy, so the bound is attained. */
  lemma {:induction false} GreedyIsSolvent(l: Limit, b: Bucket, times: seq<real>)
    requires l.rate > 0.0 && InRange(l, b)
    requires Ordered(b.updatedAt, seq(|times|, i requires 0 <= i < |times| => Check(times[i], 1.0)))
    ensures Solvent(l, b, times, Greedy(l, b, times))
    decreases |times|
  {
    hide Gain;
    if times != [] {
      var cs := seq(|times|, i requires 0 <= i < |times| => Check(times[i], 1.0));
      var rest := seq(|times[1..]|, i requires 0 <= i < |times[1..]| => Check(times[1..][i], 1.0));
      assert cs[0].at == times[0] && forall i | 0 <= i < |rest| :: rest[i] == cs[i + 1];
      GainPositive(l, b.updatedAt, times[0]);
      GreedyIsSolvent(l, Charge(l, b, times[0], 1.0), times[1..]);
      assert Greedy(l, b, times)[1..] == Greedy(l, Charge(l, b, times[0], 1.0), times[1..]);
    }
  }
}
