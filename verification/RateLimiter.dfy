/** The per-caller limiter of src/services/rate_limiter.py: one bucket per key, created when the key is
    first seen. */
module RateLimiting {
  import opened TokenBuckets

  /** One call of `check(key)`. It reads the clock when it is charged, at `at`, and - if the key is new - before
      that when its bucket is created, at `seen`. */
  datatype Arrival = Arrival(key: string, seen: real, at: real)

  type Buckets = map<string, Bucket>

  /** The bucket a key is charged on: its own, or a full one created on first sight. */
  function BucketOf(l: Limit, m: Buckets, a: Arrival): Bucket {
    if a.key in m then m[a.key] else Full(l, a.seen)
  }

  function Charged(l: Limit, m: Buckets, a: Arrival): Buckets {
    m[a.key := Charge(l, BucketOf(l, m, a), a.at, 1.0)]
  }

  class InMemoryRateLimiter {
    const limit: Limit
    var buckets: map<string, TokenBucket>

    ghost predicate Valid()
      reads this, buckets.Values
    {
      && limit.rate > 0.0
      && (forall k | k in buckets :: buckets[k].limit == limit && buckets[k].Valid())
      && (forall j, k | j in buckets && k in buckets && j != k :: buckets[j] != buckets[k])
    }

    ghost function View(): Buckets
      reads this, buckets.Values
    {
      map k | k in buckets :: buckets[k].State()
    }

    constructor (limit: Limit)
      requires limit.rate > 0.0
      ensures Valid() && this.limit == limit && View() == map[]
    {
      this.limit := limit;
      buckets := map[];
    }

    /** Charges exactly one bucket, the caller's own; every other caller's is left alone. */
    method Check(key: string, seen: real, now: real) returns (d: Decision)
      requires Valid()
      modifies this, if key in buckets then {buckets[key]} else {}
      ensures Valid()
      ensures fresh(buckets.Values - old(buckets.Values))
      ensures key in buckets && buckets == old(buckets)[key := buckets[key]]
      ensures var log := if key in old(buckets) then old(buckets[key].log) else [Entry(seen, 0.0)];
              && d.allowed == Fits(limit, log, now, 1.0)
              && buckets[key].log == log + [Entry(now, if d.allowed then 1.0 else 0.0)]
      ensures d == Decide(limit, BucketOf(limit, old(View()), Arrival(key, seen, now)), now, 1.0)
      ensures View() == Charged(limit, old(View()), Arrival(key, seen, now))
    {
      hide Decide, Charge, Fits, Explains, Refill, Gain, Spent;
      var bucket;
      if key in buckets {
        bucket := buckets[key];
      } else {
        bucket := new TokenBucket(limit, seen);
        buckets := buckets[key := bucket];
      }
      ghost var before := bucket.State();
      d := bucket.Take(now, 1.0);
      assert before == BucketOf(limit, old(View()), Arrival(key, seen, now));
    }
  }

  // ---------------------------------------------------------------------------------------
  // Interleaved traces of many callers
  // ---------------------------------------------------------------------------------------

  /** The clock never runs backwards, from one check to the next and within a check. */
  ghost predicate InOrder(from: real, arrivals: seq<Arrival>)
    decreases |arrivals|
  {
    arrivals == [] || (from <= arrivals[0].seen <= arrivals[0].at && InOrder(arrivals[0].at, arrivals[1..]))
  }

  function Answers(l: Limit, m: Buckets, arrivals: seq<Arrival>): (ds: seq<Decision>)
    requires l.rate > 0.0
    ensures |ds| == |arrivals|
    decreases |arrivals|
  {
    if arrivals == [] then []
    else
      var a := arrivals[0];
      [Decide(l, BucketOf(l, m, a), a.at, 1.0)] + Answers(l, Charged(l, m, a), arrivals[1..])
  }

  /** The checks one caller made. */
  function ChecksOf(key: string, arrivals: seq<Arrival>): seq<Check> {
    if arrivals == [] then []
    else (if arrivals[0].key == key then [Check(arrivals[0].at, 1.0)] else []) + ChecksOf(key, arrivals[1..])
  }

  /** The decisions one caller got. */
  function AnswersTo(key: string, arrivals: seq<Arrival>, ds: seq<Decision>): seq<Decision>
    requires |arrivals| == |ds|
  {
    if arrivals == [] then []
    else (if arrivals[0].key == key then [ds[0]] else []) + AnswersTo(key, arrivals[1..], ds[1..])
  }

  /** Where a caller's bucket in the limiter stands against a private one: not created yet while the
      private one sits full, or indistinguishable from it. */
  ghost predicate Tracks(l: Limit, m: Buckets, key: string, own: Bucket, now: real) {
    if key in m then m[key] == own
    else own.updatedAt <= now && own.tokens == l.capacity as real
  }

  lemma {:induction false} PrivateBucket(
      l: Limit, m: Buckets, arrivals: seq<Arrival>, key: string, own: Bucket, now: real)
    requires l.rate > 0.0 && InOrder(now, arrivals) && Tracks(l, m, key, own, now)
    ensures AnswersTo(key, arrivals, Answers(l, m, arrivals)) == Decisions(l, own, ChecksOf(key, arrivals))
    decreases |arrivals|
  {
    hide Decide, Gain;
    if arrivals != [] {
      var a := arrivals[0];
      var m' := Charged(l, m, a);
      assert Answers(l, m, arrivals)[1..] == Answers(l, m', arrivals[1..]);
      if a.key == key {
        if key !in m {
          GainPositive(l, own.updatedAt, a.at);
          GainPositive(l, a.seen, a.at);
          assert Refill(l, own, a.at) == Refill(l, Full(l, a.seen), a.at);
          SameRefillSameAnswer(l, own, Full(l, a.seen), a.at);
        }
        var own' := Charge(l, own, a.at, 1.0);
        PrivateBucket(l, m', arrivals[1..], key, own', a.at);
        var c := Check(a.at, 1.0);
        assert ChecksOf(key, arrivals) == [c] + ChecksOf(key, arrivals[1..]);
        assert ([c] + ChecksOf(key, arrivals[1..]))[1..] == ChecksOf(key, arrivals[1..]);
      } else {
        PrivateBucket(l, m', arrivals[1..], key, own, a.at);
        assert ChecksOf(key, arrivals) == ChecksOf(key, arrivals[1..]);
      }
    }
  }

  lemma SameRefillSameAnswer(l: Limit, b: Bucket, other: Bucket, t: real)
    requires l.rate > 0.0 && Refill(l, b, t) == Refill(l, other, t)
    ensures Decide(l, b, t, 1.0) == Decide(l, other, t, 1.0)
    ensures Charge(l, b, t, 1.0) == Charge(l, other, t, 1.0)
  {
  }

  /** Caller isolation and lazy creation: in any interleaving, a caller's decisions are those of its own
      checks alone on a bucket that existed, full, from the start. Nothing other callers do, and not
      even the moment its bucket was created, can be observed. */
  lemma {:induction false} CallersAreIsolated(l: Limit, arrivals: seq<Arrival>, key: string, start: real)
    requires l.rate > 0.0 && InOrder(start, arrivals)
    ensures AnswersTo(key, arrivals, Answers(l, map[], arrivals))
         == Decisions(l, Full(l, start), ChecksOf(key, arrivals))
  {
    PrivateBucket(l, map[], arrivals, key, Full(l, start), start);
  }
}
