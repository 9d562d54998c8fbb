/** Completions as a whole: how an opening circuit cuts a retry loop short, and what many completions
    leave in the usage store. */
module CompletionRuns {
  import opened Errors
  import opened Reals
  import opened Retrying
  import opened Completing
  import Breakers

  // ---------------------------------------------------------------------------------------
  // Retry against the breaker
  // ---------------------------------------------------------------------------------------

  /** A provider whose infrastructure fails whenever it is asked. */
  ghost predicate Dead(weather: Weather) {
    forall n :: Infrastructure(weather.reply(n))
  }

  /** How long the sleep after attempt `i` of a loop begun in `s` lasted, while every attempt is a call. */
  function Slept(weather: Weather, s: Scene, waits: seq<real>, i: nat): real
    requires i < |waits|
  {
    weather.nap(s.calls + i + 1, waits[i]).length
  }

  /** How long the circuit had been open when attempt `i` began, if the failure before it opened it. */
  function Paused(weather: Weather, s: Scene, waits: seq<real>, i: nat): real
    requires i <= |waits|
  {
    if i == 0 then s.now - s.breaker.openedAt else Slept(weather, s, waits, i - 1)
  }

  /** Closed with `room` failures to go, or open when there is no room left. */
  ghost predicate Room(c: Breakers.Config, s: Scene, room: nat) {
    if room > 0 then s.breaker.state == Breakers.Closed && s.breaker.failures + room == c.Limit()
    else s.breaker.state == Breakers.Open && s.breaker.failures >= c.Limit()
  }

  lemma DeadAttempt(c: Breakers.Config, weather: Weather, s: Scene, room: nat)
    requires Dead(weather) && Room(c, s, room)
    ensures var (s1, o) := Guarded(c, weather, s);
            if room == 0 && s.now - s.breaker.openedAt < c.resetTimeout then s1 == s && o == Failed(CIRCUIT_OPEN)
            else
              var left := if room == 0 then 0 else room - 1;
              && s1.calls == s.calls + 1 && o.Retryable() && Room(c, s1, left)
              && (left == 0 ==> s1.breaker.openedAt == s1.now)
              && s1.breaker.failures == s.breaker.failures + 1
  {
    assert Infrastructure(weather.reply(s.calls));
    RetryableIsInfrastructure(weather.reply(s.calls));
    hide CallUpstream;
  }

  /** What a loop of `n` attempts against a dead provider, begun in `s` with `room` failures to go, comes to:
      every attempt is a call but a last one that found the circuit paused. */
  ghost predicate CutShort(
      c: Breakers.Config, p: Policy, weather: Weather, left: nat, s: Scene, room: nat, r: Loop<Scene, Response>)
  {
    var n := |r.outcomes|;
    var calls := r.final.calls - s.calls;
    n >= 1 && |r.waits| == n - 1 &&
    var refused := r.outcomes[n - 1] == Failed(CIRCUIT_OPEN);
    && n <= left
    && calls == (if refused then n - 1 else n)
    && r.final.breaker.failures == s.breaker.failures + calls
    && (refused <==> n > room && Paused(weather, s, r.waits, n - 1) < c.resetTimeout)
    && (forall i | room <= i < n - 1 :: Paused(weather, s, r.waits, i) >= c.resetTimeout)
    && (!refused && r.why != OverBudget && !r.why.TornDown? ==> n == left)
    && (r.why.TornDown? ==> r.outcomes[n - 1].Retryable())
  }

  lemma CutShortGrows(
      c: Breakers.Config, p: Policy, weather: Weather, left: nat, s: Scene, s2: Scene, room: nat, d: real,
      r: Loop<Scene, Response>, rest: Loop<Scene, Response>)
    requires left > 1 && s2.calls == s.calls + 1 && s2.breaker.failures == s.breaker.failures + 1
    requires room <= 1 ==> s2.now - s2.breaker.openedAt == weather.nap(s2.calls, d).length
    requires room == 0 ==> s.now - s.breaker.openedAt >= c.resetTimeout
    requires CutShort(c, p, weather, left - 1, s2, if room == 0 then 0 else room - 1, rest)
    requires r.final == rest.final && r.why == rest.why
    requires exists o :: r.outcomes == [o] + rest.outcomes
    requires r.waits == [d] + rest.waits
    ensures CutShort(c, p, weather, left, s, room, r)
  {
    var n := |r.outcomes|;
    forall i | 1 <= i < n && (i > 1 || room <= 1)
      ensures Paused(weather, s, r.waits, i) == Paused(weather, s2, rest.waits, i - 1)
    {
      if i > 1 {
        assert r.waits[i - 1] == rest.waits[i - 2];
        assert s.calls + (i - 1) + 1 == s2.calls + (i - 2) + 1;
      }
    }
    assert r.outcomes[n - 1] == rest.outcomes[n - 2];
  }

  lemma {:induction false} CutShortFrom(
      c: Breakers.Config, p: Policy, weather: Weather, started: real, done: nat, s: Scene, room: nat)
    requires Dead(weather) && done < p.Cap() && Room(c, s, room)
    ensures CutShort(c, p, weather, p.Cap() - done, s, room, Attempts(p, Provider(c, weather), started, done, s))
    decreases p.maxAttempts - done
  {
    hide Guarded, DelayFor, Judge, Attempts, Room, Provider;
    var w := Provider(c, weather);
    var (s1, o) := Guarded(c, weather, s);
    ProviderIs(c, weather, s);
    ProviderIs(c, weather, s1);
    DeadAttempt(c, weather, s, room);
    Turn(p, w, started, done, s);
    Judgement(p, done + 1, o, w.clock(s1) - started, w.jitter(s1));
    var verdict := Judge(p, done + 1, o, w.clock(s1) - started, w.jitter(s1));
    if verdict.Wait? {
      var d, left := verdict.delay, if room == 0 then 0 else room - 1;
      var (s2, whole) := w.sleep(s1, d);
      if !whole {
        return;
      }
      RoomSurvivesSleep(c, s1, s2.now, left);
      CutShortFrom(c, p, weather, started, done + 1, s2, left);
      hide CutShort;
      CutShortGrows(c, p, weather, p.Cap() - done, s, s2, room, d, Attempts(p, w, started, done, s),
                    Attempts(p, w, started, done + 1, s2));
    }
  }

  lemma RoomSurvivesSleep(c: Breakers.Config, s: Scene, now: real, room: nat)
    requires Room(c, s, room)
    ensures Room(c, s.(now := now), room)
  {
  }

  /** The same in terms of the sleeps alone, when there is room. */
  lemma CutShortMeans(
      c: Breakers.Config, p: Policy, weather: Weather, left: nat, s: Scene, room: nat, r: Loop<Scene, Response>)
    requires CutShort(c, p, weather, left, s, room, r) && room >= 1
    ensures var calls, refused := r.final.calls - s.calls, r.Result() == Failed(CIRCUIT_OPEN);
            && r.final.breaker.failures == s.breaker.failures + calls
            && calls == |r.outcomes| - (if refused then 1 else 0)
            && (refused <==> exists i | room - 1 <= i < |r.waits| :: Slept(weather, s, r.waits, i) < c.resetTimeout)
            && (refused ==> Slept(weather, s, r.waits, |r.waits| - 1) < c.resetTimeout)
            && (calls > room <==> |r.waits| >= room && Slept(weather, s, r.waits, room - 1) >= c.resetTimeout)
            && (!refused && r.why != OverBudget && !r.why.TornDown? ==> calls == left)
  {
    var n := |r.outcomes|;
    forall i | room - 1 <= i < |r.waits|
      ensures Slept(weather, s, r.waits, i) == Paused(weather, s, r.waits, i + 1)
    {
    }
    if n > room {
      assert Paused(weather, s, r.waits, room) == Slept(weather, s, r.waits, room - 1);
    }
    hide Slept;
  }

  /** One completion against a dead provider, starting closed with `f` recorded failures and not overlapped by
      others, whatever its sleeps, jitter and policy. It ends in UpstreamCircuitOpen iff one of the sleeps after
      `threshold - f` or more failures is under `reset_timeout` - which is then its last. It goes past
      `threshold - f` provider calls iff the sleep after the failure that opens the circuit is not. And if
      neither the circuit nor the budget nor its teardown stops it, it makes every attempt. */
  lemma OpeningCircuitCutsRetriesShort(c: Breakers.Config, p: Policy, weather: Weather, s: Scene)
    requires Dead(weather)
    requires s.breaker.state == Breakers.Closed && s.breaker.failures < c.Limit()
    ensures var r := Retry(p, Provider(c, weather), s);
            var room, calls := c.Limit() - s.breaker.failures, r.final.calls - s.calls;
            var refused := r.Result() == Failed(CIRCUIT_OPEN);
            && r.final.breaker.failures == s.breaker.failures + calls
            && calls == |r.outcomes| - (if refused then 1 else 0)
            && (refused <==> exists i | room - 1 <= i < |r.waits| :: Slept(weather, s, r.waits, i) < c.resetTimeout)
            && (refused ==> Slept(weather, s, r.waits, |r.waits| - 1) < c.resetTimeout)
            && (calls > room <==> |r.waits| >= room && Slept(weather, s, r.waits, room - 1) >= c.resetTimeout)
            && (!refused && r.why != OverBudget && !r.why.TornDown? ==> calls == p.Cap())
  {
    var room := c.Limit() - s.breaker.failures;
    ProviderIs(c, weather, s);
    hide Attempts, Provider, CutShort;
    CutShortFrom(c, p, weather, s.now, 0, s, room);
    RetryShape(p, Provider(c, weather), s);
    CutShortMeans(c, p, weather, p.Cap(), s, room, Retry(p, Provider(c, weather), s));
  }

  /** Hence, when the sleep after the failure that opens the circuit - if there is one - is under
      `reset_timeout`: at most `min(max(1, max_attempts), threshold - f)` provider calls, exactly that many
      unless the budget or its teardown stops it first, and then it ends in UpstreamCircuitOpen iff
      `threshold - f < max_attempts`. */
  lemma ShortSleepStaysShut(c: Breakers.Config, p: Policy, weather: Weather, s: Scene)
    requires Dead(weather)
    requires s.breaker.state == Breakers.Closed && s.breaker.failures < c.Limit()
    requires var r, room := Retry(p, Provider(c, weather), s), c.Limit() - s.breaker.failures;
             |r.waits| >= room ==> Slept(weather, s, r.waits, room - 1) < c.resetTimeout
    ensures var r := Retry(p, Provider(c, weather), s);
            var room, calls := c.Limit() - s.breaker.failures, r.final.calls - s.calls;
            var least := if p.Cap() <= room then p.Cap() else room;
            && calls <= least
            && (r.why != OverBudget && !r.why.TornDown? ==>
                  && calls == least
                  && (r.Result() == Failed(CIRCUIT_OPEN) <==> room < p.maxAttempts))
  {
    OpeningCircuitCutsRetriesShort(c, p, weather, s);
    RetryShape(p, Provider(c, weather), s);
    hide Retry, Provider;
  }

  /** The sleep after the failure that opens the circuit does not decide alone: here it is longer than
      `reset_timeout`, the trial it lets through fails, and the next, shorter sleep ends in UpstreamCircuitOpen. */
  lemma LaterShortSleepCutsShort()
    ensures var c, p := Breakers.Config(1, 5.0), Policy(3, 1.0, 10.0, 100.0);
            var weather := Weather(n => TimedOut, n => 0.0, (n, d) => Nap(if n == 1 then 7.0 else d, true), n => 1.0);
            var r := Retry(p, Provider(c, weather), Scene(Breakers.FRESH, 0.0, 0));
            && Dead(weather) && |r.waits| == 2 && r.final.calls == 2
            && Slept(weather, Scene(Breakers.FRESH, 0.0, 0), r.waits, 0) == 7.0 > c.resetTimeout
            && r.outcomes[2] == Failed(CIRCUIT_OPEN)
  {
    var c, p := Breakers.Config(1, 5.0), Policy(3, 1.0, 10.0, 100.0);
    var weather := Weather(n => TimedOut, n => 0.0, (n, d) => Nap(if n == 1 then 7.0 else d, true), n => 1.0);
    var w, s := Provider(c, weather), Scene(Breakers.FRESH, 0.0, 0);
    FirstStep(p);
    DelayDoubles(p, 1);
    var open := Breakers.Breaker(Breakers.Open, 1, 0.0);
    Turn(p, w, 0.0, 0, s);
    Turn(p, w, 0.0, 1, Scene(open, 7.0, 1));
    Turn(p, w, 0.0, 2, Scene(Breakers.Breaker(Breakers.Open, 2, 7.0), 9.0, 2));
  }

  // ---------------------------------------------------------------------------------------
  // What crashes a completion
  // ---------------------------------------------------------------------------------------

  lemma AttemptHears(c: Breakers.Config, weather: Weather, s: Scene)
    ensures var (s1, o) := Guarded(c, weather, s);
            if s1.calls == s.calls then o == Failed(CIRCUIT_OPEN)
            else s1.calls == s.calls + 1 && (o.Crashed? <==> weather.reply(s.calls).Unexpected?)
  {
    RetryableIsInfrastructure(weather.reply(s.calls));
    hide CallUpstream;
  }

  /** What the world did to a loop begun after `calls` provider calls: the last reply it heard made the client
      raise an exception outside the taxonomy, or one of the sleeps it went into was cut short. */
  ghost predicate Struck(weather: Weather, calls: nat, r: Loop<Scene, Response>) {
    || (r.final.calls > calls && weather.reply(r.final.calls - 1).Unexpected?)
    || exists i | 0 <= i < |r.Asked()| :: !weather.nap(calls + i + 1, r.Asked()[i]).whole
  }

  /** A loop ends outside the taxonomy iff that happened to it. */
  lemma CrashedIffStruck(c: Breakers.Config, p: Policy, weather: Weather, s: Scene)
    ensures var r := Retry(p, Provider(c, weather), s);
            r.Result().Crashed? <==> Struck(weather, s.calls, r)
  {
    hide Attempts, Guarded, DelayFor;
    var w, r := Provider(c, weather), Retry(p, Provider(c, weather), s);
    RetryIsATrace(p, w, s);
    RetryShape(p, w, s);
    hide Retry;
    var n := |r.starts|;
    CallsGrow(c, p, weather, s, n - 1);
    AttemptHears(c, weather, r.starts[n - 1]);
    if n > 1 {
      assert Leads(p, w, w.clock(s), 0 + (n - 2) + 1, r.starts[n - 2], r.starts[n - 1], r.waits[n - 2], true);
      AttemptHears(c, weather, r.starts[n - 2]);
    }
    forall i | 0 <= i < n - 1
      ensures weather.nap(s.calls + i + 1, r.waits[i]).whole
    {
      CallsGrow(c, p, weather, s, i);
      AttemptHears(c, weather, r.starts[i]);
      assert Leads(p, w, w.clock(s), 0 + i + 1, r.starts[i], r.starts[i + 1], r.waits[i], true);
    }
    if r.why.TornDown? {
      assert !weather.nap(s.calls + (n - 1) + 1, r.Asked()[n - 1]).whole;
    }
  }

  lemma {:induction false} CallsGrow(c: Breakers.Config, p: Policy, weather: Weather, s: Scene, i: nat)
    requires i < |Retry(p, Provider(c, weather), s).starts|
    ensures var r := Retry(p, Provider(c, weather), s);
            r.starts[i].calls == s.calls + i && r.starts[0] == s
    decreases i
  {
    hide Retry, Guarded, DelayFor;
    var w, r := Provider(c, weather), Retry(p, Provider(c, weather), s);
    RetryIsATrace(p, w, s);
    if i > 0 {
      CallsGrow(c, p, weather, s, i - 1);
      assert Leads(p, w, w.clock(s), 0 + (i - 1) + 1, r.starts[i - 1], r.starts[i], r.waits[i - 1], true);
      AttemptHears(c, weather, r.starts[i - 1]);
    }
  }

  // ---------------------------------------------------------------------------------------
  // What a completion meets, and what it returns
  // ---------------------------------------------------------------------------------------

  /** The i-th attempt of a loop over the provider, begun in `from` and ended in `to` with `o`: either the circuit is
      paused, nothing happens and no time passes, or the reply, the latency and the jitter are those of the next
      provider call. */
  ghost predicate Meets(c: Breakers.Config, weather: Weather, from: Scene, to: Scene, o: Outcome<Response>) {
    if to.calls == from.calls then o == Failed(CIRCUIT_OPEN) && to.now == from.now
    else
      var reply := weather.reply(from.calls);
      && to.calls == from.calls + 1 && to.now == from.now + weather.latency(from.calls)
      && (reply.Completed? ==> o == Success(reply.response))
      && (reply.Unexpected? ==> o == Crashed)
      && (!reply.Completed? && !reply.Unexpected? ==>
            && o.Failed? && Names(reply, o.error) && Speaks(reply, o.error)
            && (o.error.retryable <==> Infrastructure(reply)))
  }

  lemma AttemptMeets(c: Breakers.Config, weather: Weather, s: Scene)
    ensures var (s1, o) := Guarded(c, weather, s);
            Meets(c, weather, s, s1, o)
  {
    var reply := weather.reply(s.calls);
    RetryableIsInfrastructure(reply);
    if CallUpstream(reply).Failed? {
      EveryFailureIsNamed(reply);
      EveryFailureSpeaks(reply);
    } else {
      assert reply.Completed? ==> CallUpstream(reply) == Success(reply.response);
    }
    hide CallUpstream, Names, Speaks, Infrastructure;
  }

  /** Every completion, attempt by attempt: the k-th provider call meets the k-th reply, lasts as long as it took, and
      ends as that kind of reply does; the jitter drawn and the sleep after it are the next ones. */
  lemma CompletionMeetsItsProvider(c: Breakers.Config, p: Policy, weather: Weather, s: Scene, i: nat)
    requires i < |Retry(p, Provider(c, weather), s).starts|
    ensures var r := Retry(p, Provider(c, weather), s);
            var from, n := r.starts[i], |r.starts|;
            && r.starts[0] == s && from.calls == s.calls + i && |r.outcomes| == n && |r.waits| == n - 1
            && exists to: Scene ::
                 && Meets(c, weather, from, to, r.outcomes[i])
                 && (i < n - 1 ==>
                       && to.calls == from.calls + 1
                       && r.starts[i + 1] == to.(now := to.now + weather.nap(to.calls, r.waits[i]).length)
                       && weather.nap(to.calls, r.waits[i]).whole
                       && r.outcomes[i].Failed?
                       && r.waits[i] == DelayFor(p, i + 1, r.outcomes[i].error.retryAfter, weather.jitter(to.calls)))
                 && (i == n - 1 && r.why.TornDown? ==>
                       && r.final == to.(now := to.now + weather.nap(to.calls, r.why.asked).length)
                       && !weather.nap(to.calls, r.why.asked).whole)
                 && (i == n - 1 && !r.why.TornDown? ==> r.final == to)
  {
    hide Retry, Guarded, DelayFor, Meets;
    var w, r := Provider(c, weather), Retry(p, Provider(c, weather), s);
    RetryIsATrace(p, w, s);
    CallsGrow(c, p, weather, s, i);
    var (to, o) := Guarded(c, weather, r.starts[i]);
    AttemptMeets(c, weather, r.starts[i]);
    if i < |r.starts| - 1 {
      assert Leads(p, w, w.clock(s), 0 + i + 1, r.starts[i], r.starts[i + 1], r.waits[i], true);
      CallsGrow(c, p, weather, s, i + 1);
    }
    assert Meets(c, weather, r.starts[i], to, r.outcomes[i]);
  }

  /** What a failed completion returns says what stopped it: a paused circuit, or the kind of the last reply it
      heard, in that reply's own words where they are meant for the caller. */
  lemma FailureSaysWhy(c: Breakers.Config, p: Policy, weather: Weather, s: Scene)
    requires Retry(p, Provider(c, weather), s).Result().Failed?
    ensures var r := Retry(p, Provider(c, weather), s);
            var e := r.Result().error;
            if e.code == "upstream_circuit_open" then e.statusCode == 503 && r.final.calls == s.calls + |r.outcomes| - 1
            else
              var n := r.final.calls;
              && n == s.calls + |r.outcomes| && n > 0
              && Names(weather.reply(n - 1), e) && Speaks(weather.reply(n - 1), e)
  {
    hide Attempts, Provider, Speaks, Infrastructure;
    var r := Retry(p, Provider(c, weather), s);
    RetryIsATrace(p, Provider(c, weather), s);
    CompletionMeetsItsProvider(c, p, weather, s, |r.starts| - 1);
    CircuitOpenIsNamed();
  }

  // ---------------------------------------------------------------------------------------
  // What the provider says and the caller never sees
  // ---------------------------------------------------------------------------------------

  /** The same reply, but for the text of one about our credentials, throttling or a failing provider. */
  predicate Alike(x: Reply, y: Reply) {
    x == y || (x.Status? && y.Status? && x.status == y.status && x.retryAfter == y.retryAfter
               && (x.status in {401, 403, 429} || 500 <= x.status <= 599))
  }

  ghost predicate SameButForText(x: Weather, y: Weather) {
    x == y.(reply := x.reply) && forall n :: Alike(x.reply(n), y.reply(n))
  }

  lemma AttemptIgnoresText(c: Breakers.Config, x: Weather, y: Weather, s: Scene)
    requires SameButForText(x, y)
    ensures Guarded(c, x, s) == Guarded(c, y, s)
  {
    var a, b := x.reply(s.calls), y.reply(s.calls);
    assert Alike(a, b);
    if a != b {
      UpstreamTextIsWithheld(a.status, a.message, b.message, a.retryAfter);
    }
    hide CallUpstream;
  }

  lemma {:induction false} LoopIgnoresText(
      c: Breakers.Config, p: Policy, x: Weather, y: Weather, started: real, done: nat, s: Scene)
    requires SameButForText(x, y)
    ensures Attempts(p, Provider(c, x), started, done, s) == Attempts(p, Provider(c, y), started, done, s)
    decreases p.maxAttempts - done
  {
    hide Attempts, Guarded, Judge, Provider;
    AttemptIgnoresText(c, x, y, s);
    var (s1, o) := Guarded(c, x, s);
    ProviderIs(c, x, s);
    ProviderIs(c, y, s);
    ProviderIs(c, x, s1);
    ProviderIs(c, y, s1);
    Turn(p, Provider(c, x), started, done, s);
    Turn(p, Provider(c, y), started, done, s);
    var v := Judge(p, done + 1, o, s1.now - started, x.jitter(s1.calls));
    if v.Wait? && x.nap(s1.calls, v.delay).whole {
      LoopIgnoresText(c, p, x, y, started, done + 1, s1.(now := s1.now + x.nap(s1.calls, v.delay).length));
    }
  }

  /** Whatever the provider writes in a reply about our credentials, in a throttling one or in a 5xx, no part of
      any completion depends on it: not the outcome, nor the attempts, the waits and the breaker. */
  lemma ProviderTextStaysInside(c: Breakers.Config, p: Policy, x: Weather, y: Weather, s: Scene)
    requires SameButForText(x, y)
    ensures Retry(p, Provider(c, x), s) == Retry(p, Provider(c, y), s)
  {
    hide Attempts, Provider;
    ProviderIs(c, x, s);
    ProviderIs(c, y, s);
    LoopIgnoresText(c, p, x, y, s.now, 0, s);
  }

  // ---------------------------------------------------------------------------------------
  // Conservation of usage
  // ---------------------------------------------------------------------------------------

  /** One completion to serve `pause` seconds after the one before it, with what the provider will do to it
      and what will become of its write to the usage store. */
  datatype Request = Request(
    caller: string, model: Option<string>, pause: real, weather: Weather, write: Write)

  function Served(c: Breakers.Config, p: Policy, b: Breakers.Breaker, now: real, q: Request)
    : (r: Loop<Scene, Response>)
    ensures r.outcomes != []
  {
    Retry(p, Provider(c, q.weather), Scene(b, now + q.pause, 0))
  }

  /** The retry loop of each request, served one after another on one breaker. */
  function Loops(c: Breakers.Config, p: Policy, b: Breakers.Breaker, now: real, requests: seq<Request>)
    : (rs: seq<Loop<Scene, Response>>)
    ensures |rs| == |requests|
    decreases |requests|
  {
    if requests == [] then []
    else
      var r := Served(c, p, b, now, requests[0]);
      [r] + Loops(c, p, r.final.breaker, r.final.now, requests[1..])
  }

  /** What the loop of each of these requests comes to. */
  function Results(c: Breakers.Config, p: Policy, b: Breakers.Breaker, now: real, requests: seq<Request>)
    : (os: seq<Outcome<Response>>)
    ensures |os| == |requests|
    decreases |requests|
  {
    if requests == [] then []
    else
      var r := Served(c, p, b, now, requests[0]);
      [r.Result()] + Results(c, p, r.final.breaker, r.final.now, requests[1..])
  }

  /** What is written for requests that came to these results. */
  function Book(defaultModel: string, requests: seq<Request>, os: seq<Outcome<Response>>): seq<UsageEntry>
    requires |requests| == |os|
  {
    if os == [] then []
    else
      var q := requests[0];
      Metered(q.caller, OrElse(q.model, defaultModel), os[0], q.write) + Book(defaultModel, requests[1..], os[1..])
  }

  /** A service that serves the requests one after another leaves exactly their book in the store. */
  method Serve(service: CompletionService, requests: seq<Request>, start: real)
    returns (os: seq<Outcome<Response>>, now: real)
    requires service.breaker.Valid() && Breakers.NotAfter(service.breaker.history, start)
    requires forall i | 0 <= i < |requests| ::
               Forward(requests[i].weather.latency, requests[i].weather.nap) && requests[i].pause >= 0.0
    modifies service.breaker, service.usage
    ensures service.breaker.Valid() && Breakers.NotAfter(service.breaker.history, now) && start <= now
    ensures var rs := Results(service.breaker.config, service.policy, old(service.breaker.View()), start, requests);
            && service.usage.entries == old(service.usage.entries) + Book(service.defaultModel, requests, rs)
            && |os| == |requests| && forall i | 0 <= i < |os| :: os[i] == Written(rs[i], requests[i].write)
  {
    hide Retry, Provider, Metered, Results, Book, Forward, Breakers.Replay, Breakers.NotAfter;
    os, now := [], start;
    ghost var c, p := service.breaker.config, service.policy;
    ghost var all := Results(c, p, service.breaker.View(), start, requests);
    ghost var before, whole := service.usage.entries, Book(service.defaultModel, requests, all);
    assert requests[0..] == requests;
    for i := 0 to |requests|
      invariant service.breaker.Valid() && Breakers.NotAfter(service.breaker.history, now) && start <= now
      invariant var rest := Results(c, p, service.breaker.View(), now, requests[i..]);
                && |os| == i && i + |rest| == |all| && all[i..] == rest
                && before + whole == service.usage.entries + Book(service.defaultModel, requests[i..], rest)
      invariant forall j | 0 <= j < i :: os[j] == Written(all[j], requests[j].write)
    {
      var q := requests[i];
      ghost var b, from := service.breaker.View(), now;
      ServeFirst(c, p, b, from, requests[i..], service.defaultModel);
      assert requests[i..][1..] == requests[i + 1..];
      Breakers.StillNotAfter(service.breaker.history, now, now + q.pause);
      var o, later, calls := service.Complete(q.weather, q.caller, q.model, now + q.pause, q.write);
      assert all[i..][0] == all[i] && all[i..][1..] == all[i + 1..];
      assert o == Written(Served(c, p, b, from, q).Result(), q.write);
      os, now := os + [o], later;
    }
    NothingToServe(c, p, service.breaker.View(), now, service.defaultModel);
  }

  lemma NothingToServe(c: Breakers.Config, p: Policy, b: Breakers.Breaker, now: real, defaultModel: string)
    ensures Results(c, p, b, now, []) == [] && Book(defaultModel, [], []) == []
  {
  }

  lemma ServeFirst(
      c: Breakers.Config, p: Policy, b: Breakers.Breaker, now: real, requests: seq<Request>, defaultModel: string)
    requires requests != []
    ensures var q := requests[0];
            var r := Served(c, p, b, now, q);
            var rest := Results(c, p, r.final.breaker, r.final.now, requests[1..]);
            && Results(c, p, b, now, requests) == [r.Result()] + rest
            && Book(defaultModel, requests, Results(c, p, b, now, requests))
               == Metered(q.caller, OrElse(q.model, defaultModel), r.Result(), q.write)
                  + Book(defaultModel, requests[1..], rest)
  {
    hide Served, Metered, OrElse;
  }

  function TotalTokens(entries: seq<UsageEntry>): (int, int) {
    if entries == [] then (0, 0)
    else
      var (prompt, completion) := TotalTokens(entries[1..]);
      (entries[0].promptTokens + prompt, entries[0].completionTokens + completion)
  }

  /** What the successful completions whose entry was stored really used. */
  function TokensUsed(requests: seq<Request>, os: seq<Outcome<Response>>): (int, int)
    requires |requests| == |os|
  {
    if os == [] then (0, 0)
    else
      var (prompt, completion) := TokensUsed(requests[1..], os[1..]);
      if os[0].Success? && requests[0].write.Stored()
      then (os[0].value.promptTokens + prompt, os[0].value.completionTokens + completion)
      else (prompt, completion)
  }

  predicate Recorded(q: Request, o: Outcome<Response>) {
    q.write.Stored() && !o.Crashed?
  }

  ghost predicate AllRecorded(requests: seq<Request>, os: seq<Outcome<Response>>)
    requires |requests| == |os|
  {
    forall i | 0 <= i < |os| :: Recorded(requests[i], os[i])
  }

  predicate EntryOf(e: UsageEntry, q: Request, defaultModel: string, o: Outcome<Response>) {
    && e.caller == q.caller
    && (q.model.Some? && q.model.value != "" ==> e.model == q.model.value)
    && (q.model == None || q.model == Some("") ==> e.model == defaultModel)
    && (e.statusCode == 200 <==> o.Success?)
    && (o.Failed? ==> e.statusCode == o.error.statusCode)
  }

  /** A failure is never recorded with the status of a success. */
  predicate HasOwnStatus(o: Outcome<Response>) {
    o.Failed? ==> o.error.statusCode in {400, 429, 502, 503, 504}
  }

  lemma AttemptHasOwnStatus(c: Breakers.Config, weather: Weather, s: Scene)
    ensures HasOwnStatus(Guarded(c, weather, s).1)
  {
    RetryableIsInfrastructure(weather.reply(s.calls));
    hide CallUpstream;
  }

  lemma {:induction false} ResultsHaveOwnStatus(
      c: Breakers.Config, p: Policy, b: Breakers.Breaker, now: real, requests: seq<Request>)
    ensures forall i | 0 <= i < |requests| :: HasOwnStatus(Results(c, p, b, now, requests)[i])
    decreases |requests|
  {
    hide Retry, Guarded, Leads;
    if requests != [] {
      var q := requests[0];
      var s, r := Scene(b, now + q.pause, 0), Served(c, p, b, now, q);
      RetryIsATrace(p, Provider(c, q.weather), s);
      AttemptHasOwnStatus(c, q.weather, r.starts[|r.starts| - 1]);
      ResultsHaveOwnStatus(c, p, r.final.breaker, r.final.now, requests[1..]);
    }
  }

  lemma AllRecordedSplit(requests: seq<Request>, os: seq<Outcome<Response>>)
    requires |requests| == |os| > 0
    ensures AllRecorded(requests, os) <==> Recorded(requests[0], os[0]) && AllRecorded(requests[1..], os[1..])
  {
    hide Recorded;
    forall i | 0 < i < |os|
      ensures os[i] == os[1..][i - 1] && requests[i] == requests[1..][i - 1]
    {
    }
  }

  lemma BookFirst(defaultModel: string, requests: seq<Request>, os: seq<Outcome<Response>>)
    requires |requests| == |os| > 0
    ensures var book, rest := Book(defaultModel, requests, os), Book(defaultModel, requests[1..], os[1..]);
            if !Recorded(requests[0], os[0]) then book == rest
            else
              && book != [] && book[1..] == rest
              && book[0].promptTokens == (if os[0].Success? then os[0].value.promptTokens else 0)
              && book[0].completionTokens == (if os[0].Success? then os[0].value.completionTokens else 0)
  {
    hide OrElse;
    var e := Metered(requests[0].caller, OrElse(requests[0].model, defaultModel), os[0], requests[0].write);
    assert Book(defaultModel, requests, os) == e + Book(defaultModel, requests[1..], os[1..]);
  }

  lemma {:induction false} BookIsFair(defaultModel: string, requests: seq<Request>, os: seq<Outcome<Response>>)
    requires |requests| == |os|
    ensures var book := Book(defaultModel, requests, os);
            && TotalTokens(book) == TokensUsed(requests, os)
            && |book| <= |requests|
            && (|book| == |requests| <==> AllRecorded(requests, os))
    decreases |os|
  {
    if os != [] {
      BookIsFair(defaultModel, requests[1..], os[1..]);
      BookFirst(defaultModel, requests, os);
      AllRecordedSplit(requests, os);
      hide Book, AllRecorded;
      var book := Book(defaultModel, requests, os);
      if Recorded(requests[0], os[0]) {
        assert |book| == 1 + |book[1..]|;
      }
    }
  }

  lemma {:induction false} BookNamesEach(
      defaultModel: string, requests: seq<Request>, os: seq<Outcome<Response>>, i: nat)
    requires |requests| == |os| && AllRecorded(requests, os) && i < |os| && HasOwnStatus(os[i])
    ensures |Book(defaultModel, requests, os)| == |os|
    ensures EntryOf(Book(defaultModel, requests, os)[i], requests[i], defaultModel, os[i])
    decreases |os|
  {
    BookIsFair(defaultModel, requests, os);
    assert Recorded(requests[0], os[0]);
    var q := requests[0];
    var e := Metered(q.caller, OrElse(q.model, defaultModel), os[0], q.write);
    assert |e| == 1 && Book(defaultModel, requests, os) == e + Book(defaultModel, requests[1..], os[1..]);
    if i > 0 {
      forall j | 0 <= j < |os[1..]| ensures Recorded(requests[1..][j], os[1..][j]) {
        assert Recorded(requests[j + 1], os[j + 1]);
      }
      BookNamesEach(defaultModel, requests[1..], os[1..], i - 1);
    }
  }

  lemma {:induction false} ResultsOfLoops(
      c: Breakers.Config, p: Policy, b: Breakers.Breaker, now: real, requests: seq<Request>)
    ensures var rs, loops := Results(c, p, b, now, requests), Loops(c, p, b, now, requests);
            forall i | 0 <= i < |requests| ::
              && loops[i].outcomes != [] && rs[i] == loops[i].Result()
              && (rs[i].Crashed? <==> Struck(requests[i].weather, 0, loops[i]))
    decreases |requests|
  {
    hide Attempts, Struck;
    if requests != [] {
      var q, r := requests[0], Served(c, p, b, now, requests[0]);
      CrashedIffStruck(c, p, q.weather, Scene(b, now + q.pause, 0));
      ResultsOfLoops(c, p, r.final.breaker, r.final.now, requests[1..]);
    }
  }

  /** Over any requests that are entered, served one after another: the token totals of the store equal what the
      successful completions used whose entry was stored; there is one entry per completion iff none met an
      unexpected reply or had a sleep cut short, and every write was stored; and then they are in order, each with
      the caller, the requested model - or the default one if none was named - and the status of what its loop came
      to, 200 iff that is a success. */
  lemma {:induction false} UsageIsConserved(
      c: Breakers.Config, p: Policy, b: Breakers.Breaker, start: real, requests: seq<Request>, defaultModel: string)
    ensures var rs, loops := Results(c, p, b, start, requests), Loops(c, p, b, start, requests);
            var book := Book(defaultModel, requests, rs);
            && TotalTokens(book) == TokensUsed(requests, rs)
            && |book| <= |requests|
            && (|book| == |requests| <==>
                  forall i | 0 <= i < |requests| ::
                    !Struck(requests[i].weather, 0, loops[i]) && requests[i].write.Stored())
            && (|book| == |requests| ==>
                  forall i | 0 <= i < |requests| :: EntryOf(book[i], requests[i], defaultModel, rs[i]))
  {
    hide Results, Loops, Book, EntryOf, HasOwnStatus, Struck;
    var rs := Results(c, p, b, start, requests);
    BookIsFair(defaultModel, requests, rs);
    ResultsOfLoops(c, p, b, start, requests);
    ResultsHaveOwnStatus(c, p, b, start, requests);
    if AllRecorded(requests, rs) {
      forall i | 0 <= i < |requests|
        ensures EntryOf(Book(defaultModel, requests, rs)[i], requests[i], defaultModel, rs[i])
      {
        BookNamesEach(defaultModel, requests, rs, i);
      }
    }
  }

  /** A request to a provider that always does `reply`, under sleeps that are whole or not. */
  function OneCall(reply: Reply, whole: bool, write: Write): Request {
    Request("caller", None, 0.0, Weather(n => reply, n => 1.0, (n, d) => Nap(d, whole), n => 1.0), write)
  }

  lemma ServedOnce(c: Breakers.Config, p: Policy, start: real, reply: Reply, whole: bool, write: Write)
    requires !Infrastructure(reply) || reply.TimedOut?
    requires reply.TimedOut? ==> !whole && p.maxAttempts >= 2 && p.budget >= 1.0 + Min(p.initialBackoff, p.maxBackoff)
    ensures var r := Served(c, p, Breakers.FRESH, start, OneCall(reply, whole, write));
            && |r.outcomes| == 1
            && r.Result() == if reply.TimedOut? then Crashed else CallUpstream(reply)
  {
    RetryableIsInfrastructure(reply);
    assert reply.TimedOut? ==> CallUpstream(reply).Retryable() && CallUpstream(reply).error.retryAfter == None;
    hide CallUpstream, Infrastructure;
    var q := OneCall(reply, whole, write);
    FirstStep(p);
    Turn(p, Provider(c, q.weather), start + q.pause, 0, Scene(Breakers.FRESH, start + q.pause, 0));
  }

  lemma ServedAlone(c: Breakers.Config, p: Policy, start: real, q: Request, defaultModel: string)
    ensures var rs := Results(c, p, Breakers.FRESH, start, [q]);
            && rs == [Served(c, p, Breakers.FRESH, start, q).Result()]
            && Book(defaultModel, [q], rs) == Metered(q.caller, OrElse(q.model, defaultModel), rs[0], q.write)
  {
    hide Served, Metered, OrElse;
    var r := Served(c, p, Breakers.FRESH, start, q);
    NothingToServe(c, p, r.final.breaker, r.final.now, defaultModel);
    ServeFirst(c, p, Breakers.FRESH, start, [q], defaultModel);
    assert [q][1..] == [];
  }

  /** One request with this fate ends for its caller as said, and leaves so many entries. */
  ghost predicate Leaves(
      c: Breakers.Config, p: Policy, start: real, defaultModel: string, q: Request, o: Outcome<Response>, entries: nat)
  {
    var rs := Results(c, p, Breakers.FRESH, start, [q]);
    Written(rs[0], q.write) == o && |Book(defaultModel, [q], rs)| == entries
  }

  lemma ServedLeaves(
      c: Breakers.Config, p: Policy, start: real, defaultModel: string, reply: Reply, whole: bool, write: Write)
    requires !Infrastructure(reply) || reply.TimedOut?
    requires reply.TimedOut? ==> !whole && p.maxAttempts >= 2 && p.budget >= 1.0 + Min(p.initialBackoff, p.maxBackoff)
    ensures Leaves(c, p, start, defaultModel, OneCall(reply, whole, write),
                   if reply.TimedOut? then Crashed else Written(CallUpstream(reply), write),
                   if reply.TimedOut? || reply.Unexpected? || !write.Stored() then 0 else 1)
  {
    ServedOnce(c, p, start, reply, whole, write);
    ServedAlone(c, p, start, OneCall(reply, whole, write), defaultModel);
    RetryableIsInfrastructure(reply);
    hide Served, Results, Book, OrElse, Infrastructure, CallUpstream;
  }

  /** All four ways to go unmetered happen: an exception outside the taxonomy, the teardown of a completion that
      sleeps between two attempts, a store that is down although the completion succeeded, and teardown in the
      write before it is committed. After that it is metered, though its caller never hears of it. */
  lemma WaysToGoUnmetered(c: Breakers.Config, p: Policy, start: real, defaultModel: string, response: Response)
    ensures Leaves(c, p, start, defaultModel, OneCall(Unexpected, true, Kept), Crashed, 0)
    ensures p.maxAttempts >= 2 && p.budget >= 1.0 + Min(p.initialBackoff, p.maxBackoff) ==>
              Leaves(c, p, start, defaultModel, OneCall(TimedOut, false, Kept), Crashed, 0)
    ensures Leaves(c, p, start, defaultModel, OneCall(Completed(response), true, Lost), Success(response), 0)
    ensures Leaves(c, p, start, defaultModel, OneCall(Completed(response), true, Cut(false)), Crashed, 0)
    ensures Leaves(c, p, start, defaultModel, OneCall(Completed(response), true, Cut(true)), Crashed, 1)
  {
    hide Leaves, OneCall;
    ServedLeaves(c, p, start, defaultModel, Unexpected, true, Kept);
    if p.maxAttempts >= 2 && p.budget >= 1.0 + Min(p.initialBackoff, p.maxBackoff) {
      ServedLeaves(c, p, start, defaultModel, TimedOut, false, Kept);
    }
    ServedLeaves(c, p, start, defaultModel, Completed(response), true, Lost);
    ServedLeaves(c, p, start, defaultModel, Completed(response), true, Cut(false));
    ServedLeaves(c, p, start, defaultModel, Completed(response), true, Cut(true));
  }
}
