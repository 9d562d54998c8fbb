/** The token bucket of src/services/rate_limiter.py: two numbers standing in for the whole
    log of past requests.

    `Take` is the arithmetic of one check on values, the class `TokenBucket` is the object that
    updates itself in place, and the lemmas say what the two numbers mean: they are exactly the
    tightest sliding-window constraint of the full log (`WindowStep`), and the figures reported
    to the caller are exact promises about future checks. */
module TokenBuckets {
  import opened Reals

  datatype Limit = Limit(capacity: int, rate: real)

  datatype Bucket = Bucket(tokens: real, updatedAt: real)

  datatype Decision = Decision(allowed: bool, limit: int, remaining: int, resetAfter: real, retryAfter: real)

  /** One call of `take(amount)` at clock reading `at`. */
  datatype Check = Check(at: real, amount: real)

  /** What accrues between two instants. */
  function Gain(l: Limit, from: real, to: real): real {
    (to - from) * l.rate
  }

  lemma GainAdds(l: Limit, t: real, u: real, v: real)
    ensures Gain(l, t, v) == Gain(l, t, u) + Gain(l, u, v)
    ensures Gain(l, t, t) == 0.0
  {
    assert (v - t) * l.rate == (u - t) * l.rate + (v - u) * l.rate;
  }

  lemma GainOver(l: Limit, t: real, d: real)
    requires l.rate > 0.0 && d > 0.0
    ensures Gain(l, t, t + d) > 0.0
  {
    assert Gain(l, t, t + d) == d * l.rate;
  }

  lemma GainPositive(l: Limit, t: real, u: real)
    requires l.rate > 0.0
    ensures t <= u ==> Gain(l, t, u) >= 0.0
    ensures t < u ==> Gain(l, t, u) > 0.0
  {
    if t < u {
      GainOver(l, t, u - t);
      assert t + (u - t) == u;
    }
  }

  function Full(l: Limit, now: real): Bucket {
    Bucket(l.capacity as real, now)
  }

  function Refill(l: Limit, b: Bucket, now: real): Bucket {
    Bucket(Min(l.capacity as real, b.tokens + Gain(l, b.updatedAt, now)), now)
  }

  function Charge(l: Limit, b: Bucket, now: real, amount: real): Bucket {
    var r := Refill(l, b, now);
    if r.tokens >= amount then r.(tokens := r.tokens - amount) else r
  }

  function Decide(l: Limit, b: Bucket, now: real, amount: real): Decision
    requires l.rate > 0.0
  {
    var allowed := Refill(l, b, now).tokens >= amount;
    var left := Charge(l, b, now, amount).tokens;
    Decision(
      allowed,
      l.capacity,
      left.Floor,
      (l.capacity as real - left) / l.rate,
      if allowed then 0.0 else Max(0.0, amount - left) / l.rate)
  }

  // ---------------------------------------------------------------------------------------
  // The log the two numbers stand for
  // ---------------------------------------------------------------------------------------

  /** A past instant the bucket was touched, and what was spent then (0 for the creation of the
      bucket and for a refused check). */
  datatype Entry = Entry(at: real, spent: real)

  ghost function Spent(log: seq<Entry>): real {
    if log == [] then 0.0 else log[0].spent + Spent(log[1..])
  }

  /** What the window opened by entry `i` still leaves at time `t`. */
  ghost function Slack(l: Limit, log: seq<Entry>, i: nat, t: real): real
    requires i < |log|
  {
    l.capacity as real + Gain(l, log[i].at, t) - Spent(log[i..])
  }

  /** `log` explains `b`: the stored tokens are the least slack of all the windows of the log. */
  ghost predicate Explains(l: Limit, log: seq<Entry>, b: Bucket) {
    && log != []
    && log[|log| - 1].at == b.updatedAt
    && (forall i | 0 <= i < |log| :: b.tokens <= Slack(l, log, i, b.updatedAt))
    && (exists i | 0 <= i < |log| :: b.tokens == Slack(l, log, i, b.updatedAt))
  }

  /** The sliding-window rule on the full log: spending `amount` at `t` overdraws no window, neither
      one opened by an earlier entry nor the one opened at `t` itself. */
  ghost predicate Fits(l: Limit, log: seq<Entry>, t: real, amount: real) {
    && amount <= l.capacity as real
    && forall i | 0 <= i < |log| :: Spent(log[i..]) + amount <= l.capacity as real + Gain(l, log[i].at, t)
  }

  lemma {:induction false} SpentAppend(log: seq<Entry>, e: Entry)
    ensures Spent(log + [e]) == Spent(log) + e.spent
  {
    if log == [] {
      assert log + [e] == [e];
    } else {
      assert (log + [e])[1..] == log[1..] + [e];
      SpentAppend(log[1..], e);
    }
  }

  /** How every window's slack moves when time passes and one more entry is logged. */
  lemma SlackStep(l: Limit, log: seq<Entry>, u: real, e: Entry, i: nat)
    requires i < |log|
    ensures Slack(l, log, i, e.at) == Slack(l, log, i, u) + Gain(l, u, e.at)
    ensures Slack(l, log + [e], i, e.at) == Slack(l, log, i, e.at) - e.spent
  {
    hide Gain;
    GainAdds(l, log[i].at, u, e.at);
    assert (log + [e])[i..] == log[i..] + [e];
    SpentAppend(log[i..], e);
  }

  lemma FitsIffSlack(l: Limit, log: seq<Entry>, t: real, amount: real)
    ensures Fits(l, log, t, amount)
       <==> amount <= l.capacity as real && forall i | 0 <= i < |log| :: amount <= Slack(l, log, i, t)
  {
    hide Gain;
    assert forall i | 0 <= i < |log| ::
        amount <= Slack(l, log, i, t) <==> Spent(log[i..]) + amount <= l.capacity as real + Gain(l, log[i].at, t);
  }

  /** Creation explains itself. */
  lemma WindowStart(l: Limit, now: real)
    ensures Explains(l, [Entry(now, 0.0)], Full(l, now))
  {
    var log := [Entry(now, 0.0)];
    assert log[0..] == log;
    assert Spent(log) == 0.0 + Spent(log[1..]);
    assert Slack(l, log, 0, now) == l.capacity as real;
  }

  /** The two fields equal the full log: a check is granted iff the sliding-window rule allows it, and
      after the check the fields are explained by the log extended with it. No sign or ordering
      assumption is needed, for any amount, rate or clock. */
  lemma {:induction false} WindowStep(l: Limit, log: seq<Entry>, b: Bucket, t: real, amount: real)
    requires Explains(l, log, b)
    ensures Refill(l, b, t).tokens >= amount <==> Fits(l, log, t, amount)
    ensures Explains(l, log + [Entry(t, if Fits(l, log, t, amount) then amount else 0.0)], Charge(l, b, t, amount))
  {
    hide Gain, Fits;
    var cap := l.capacity as real;
    var r := Refill(l, b, t).tokens;
    forall i | 0 <= i < |log|
      ensures Slack(l, log, i, t) == Slack(l, log, i, b.updatedAt) + Gain(l, b.updatedAt, t)
    {
      SlackStep(l, log, b.updatedAt, Entry(t, 0.0), i);
    }
    forall i | 0 <= i < |log|
      ensures r <= Slack(l, log, i, t)
    {
      assert b.tokens <= Slack(l, log, i, b.updatedAt);
    }
    var k :| 0 <= k < |log| && b.tokens == Slack(l, log, k, b.updatedAt);
    assert r == cap || r == Slack(l, log, k, t);
    FitsIffSlack(l, log, t, amount);
    var e := Entry(t, if Fits(l, log, t, amount) then amount else 0.0);
    var log' := log + [e];
    forall i | 0 <= i < |log|
      ensures Slack(l, log', i, t) == Slack(l, log, i, t) - e.spent
    {
      SlackStep(l, log, b.updatedAt, e, i);
    }
    GainAdds(l, t, t, t);
    assert log'[|log|..] == [e];
    assert Spent([e]) == e.spent + Spent([e][1..]);
    assert Slack(l, log', |log|, t) == cap - e.spent;
    assert Charge(l, b, t, amount).tokens == r - e.spent;
    assert r - e.spent == Slack(l, log', if r == cap then |log| else k, t);
  }

  // ---------------------------------------------------------------------------------------
  // The object
  // ---------------------------------------------------------------------------------------

  class TokenBucket {
    const limit: Limit
    var tokens: real
    var updatedAt: real
    ghost var log: seq<Entry>

    ghost function State(): Bucket
      reads this
    {
      Bucket(tokens, updatedAt)
    }

    ghost predicate Valid()
      reads this
    {
      limit.rate > 0.0 && Explains(limit, log, State())
    }

    constructor (limit: Limit, now: real)
      requires limit.rate > 0.0
      ensures Valid() && this.limit == limit
      ensures State() == Full(limit, now) && log == [Entry(now, 0.0)]
    {
      this.limit := limit;
      tokens := limit.capacity as real;
      updatedAt := now;
      log := [Entry(now, 0.0)];
      new;
      WindowStart(limit, now);
    }

    method RefillAt(now: real)
      modifies this`tokens, this`updatedAt
      ensures State() == Refill(limit, old(State()), now)
    {
      var elapsed := now - updatedAt;
      tokens := Min(limit.capacity as real, tokens + elapsed * limit.rate);
      updatedAt := now;
    }

    /** Granted iff the full log of everything this bucket ever granted leaves room for it. */
    method Take(now: real, amount: real) returns (d: Decision)
      requires Valid()
      modifies this
      ensures Valid()
      ensures d.allowed <==> Fits(limit, old(log), now, amount)
      ensures log == old(log) + [Entry(now, if d.allowed then amount else 0.0)]
      ensures d == Decide(limit, old(State()), now, amount)
      ensures State() == Charge(limit, old(State()), now, amount)
    {
      hide Explains, Fits;
      WindowStep(limit, log, State(), now, amount);
      RefillAt(now);
      var allowed := tokens >= amount;
      if allowed {
        tokens := tokens - amount;
      }
      var missing := Max(0.0, amount - tokens);
      d := Decision(
        allowed,
        limit.capacity,
        tokens.Floor,
        (limit.capacity as real - tokens) / limit.rate,
        if allowed then 0.0 else missing / limit.rate);
      log := log + [Entry(now, if allowed then amount else 0.0)];
    }
  }

  // ---------------------------------------------------------------------------------------
  // Traces of checks on one bucket
  // ---------------------------------------------------------------------------------------

  ghost predicate Ordered(from: real, cs: seq<Check>) {
    && (forall i | 0 <= i < |cs| :: from <= cs[i].at)
    && (forall i, j | 0 <= i < j < |cs| :: cs[i].at <= cs[j].at)
  }

  function After(l: Limit, b: Bucket, cs: seq<Check>): Bucket
    decreases |cs|
  {
    if cs == [] then b else After(l, Charge(l, b, cs[0].at, cs[0].amount), cs[1..])
  }

  function Decisions(l: Limit, b: Bucket, cs: seq<Check>): (ds: seq<Decision>)
    requires l.rate > 0.0
    ensures |ds| == |cs|
    decreases |cs|
  {
    if cs == [] then []
    else [Decide(l, b, cs[0].at, cs[0].amount)] + Decisions(l, Charge(l, b, cs[0].at, cs[0].amount), cs[1..])
  }

  /** The whole life of a bucket at once: whatever was checked, the log that a caller could have kept
      explains the two fields. */
  ghost function Log(l: Limit, b: Bucket, cs: seq<Check>): seq<Entry>
    decreases |cs|
  {
    if cs == [] then []
    else
      var c := cs[0];
      [Entry(c.at, if Refill(l, b, c.at).tokens >= c.amount then c.amount else 0.0)]
      + Log(l, Charge(l, b, c.at, c.amount), cs[1..])
  }

  lemma {:induction false} LogExplains(l: Limit, log: seq<Entry>, b: Bucket, cs: seq<Check>)
    requires Explains(l, log, b)
    ensures Explains(l, log + Log(l, b, cs), After(l, b, cs))
    decreases |cs|
  {
    hide Explains, Fits, Refill, Charge;
    if cs == [] {
      assert log + [] == log;
    } else {
      var c := cs[0];
      var e := Entry(c.at, if Refill(l, b, c.at).tokens >= c.amount then c.amount else 0.0);
      WindowStep(l, log, b, c.at, c.amount);
      LogExplains(l, log + [e], Charge(l, b, c.at, c.amount), cs[1..]);
      assert log + Log(l, b, cs) == (log + [e]) + Log(l, Charge(l, b, c.at, c.amount), cs[1..]);
    }
  }

  /** A bucket created at `t0` and then checked any number of times: the next check is granted iff it
      overdraws no window of the log, and the stored tokens are the least slack of those windows. */
  lemma {:induction false} SlidingWindow(l: Limit, t0: real, cs: seq<Check>, t: real, amount: real)
    requires l.rate > 0.0
    ensures var log := [Entry(t0, 0.0)] + Log(l, Full(l, t0), cs);
            var b := After(l, Full(l, t0), cs);
            Explains(l, log, b) && (Decide(l, b, t, amount).allowed <==> Fits(l, log, t, amount))
  {
    var log := [Entry(t0, 0.0)] + Log(l, Full(l, t0), cs);
    WindowStart(l, t0);
    LogExplains(l, [Entry(t0, 0.0)], Full(l, t0), cs);
    WindowStep(l, log, After(l, Full(l, t0), cs), t, amount);
  }

  // ---------------------------------------------------------------------------------------
  // Refused checks are free
  // ---------------------------------------------------------------------------------------

  /** The elements of `xs` whose position is not dropped. */
  function Keep<T>(xs: seq<T>, drop: seq<bool>): (kept: seq<T>)
    requires |xs| == |drop|
  {
    if xs == [] then []
    else (if drop[0] then [] else [xs[0]]) + Keep(xs[1..], drop[1..])
  }

  /** Refilling in pieces equals refilling once. */
  lemma RefillTwice(l: Limit, b: Bucket, t: real, u: real)
    requires l.rate > 0.0 && t <= u
    ensures Refill(l, Refill(l, b, t), u) == Refill(l, b, u)
  {
    hide Gain;
    GainAdds(l, b.updatedAt, t, u);
    GainPositive(l, t, u);
  }

  /** `b` is `other` or `other` refilled later: no check from now on can tell them apart. */
  ghost predicate Catches(l: Limit, b: Bucket, other: Bucket) {
    b == other || (other.updatedAt <= b.updatedAt && b == Refill(l, other, b.updatedAt))
  }

  /** Both answer the next check alike and end up alike; and if it is refused, the one that was not
      asked is still as good as the one that was. */
  lemma CatchesStep(l: Limit, b: Bucket, other: Bucket, c: Check)
    requires l.rate > 0.0 && Catches(l, b, other) && b.updatedAt <= c.at
    ensures Decide(l, b, c.at, c.amount) == Decide(l, other, c.at, c.amount)
    ensures Charge(l, b, c.at, c.amount) == Charge(l, other, c.at, c.amount)
    ensures Charge(l, b, c.at, c.amount).updatedAt == c.at
    ensures Catches(l, Charge(l, b, c.at, c.amount), Charge(l, b, c.at, c.amount))
    ensures !Decide(l, b, c.at, c.amount).allowed ==> Catches(l, Charge(l, b, c.at, c.amount), other)
  {
    if b != other {
      RefillTwice(l, other, b.updatedAt, c.at);
    }
    assert Refill(l, b, c.at) == Refill(l, other, c.at);
  }

  lemma {:induction false} DropRefused(l: Limit, b: Bucket, other: Bucket, cs: seq<Check>, drop: seq<bool>)
    requires l.rate > 0.0 && Catches(l, b, other) && Ordered(b.updatedAt, cs) && |drop| == |cs|
    requires forall i | 0 <= i < |cs| && drop[i] :: !Decisions(l, b, cs)[i].allowed
    ensures Decisions(l, other, Keep(cs, drop)) == Keep(Decisions(l, b, cs), drop)
    decreases |cs|
  {
    hide Refill, Charge, Decide, Catches;
    if cs != [] {
      var c := cs[0];
      var next := Charge(l, b, c.at, c.amount);
      var rest := Decisions(l, next, cs[1..]);
      assert Decisions(l, b, cs) == [Decide(l, b, c.at, c.amount)] + rest;
      CatchesStep(l, b, other, c);
      forall i | 0 <= i < |cs[1..]| && drop[1..][i] ensures !rest[i].allowed {
        assert drop[i + 1] && Decisions(l, b, cs)[i + 1] == rest[i];
      }
      var kept := Keep(cs[1..], drop[1..]);
      if drop[0] {
        assert !Decisions(l, b, cs)[0].allowed;
        DropRefused(l, next, other, cs[1..], drop[1..]);
        assert Keep(cs, drop) == kept;
      } else {
        DropRefused(l, next, next, cs[1..], drop[1..]);
        assert Keep(cs, drop) == [c] + kept;
      }
      assert Decisions(l, b, cs)[1..] == rest;
    }
  }

  /** Refused checks cost nothing: erase any of them from a trace (a caller who polls less often) and
      every field of every remaining decision stays the same. */
  lemma {:induction false} RefusedChecksAreFree(l: Limit, b: Bucket, cs: seq<Check>, drop: seq<bool>)
    requires l.rate > 0.0 && Ordered(b.updatedAt, cs) && |drop| == |cs|
    requires forall i | 0 <= i < |cs| && drop[i] :: !Decisions(l, b, cs)[i].allowed
    ensures Decisions(l, b, Keep(cs, drop)) == Keep(Decisions(l, b, cs), drop)
  {
    DropRefused(l, b, b, cs, drop);
  }
}
