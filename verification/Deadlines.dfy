/** The worst case of `WallClock` for the two loops of the program: completions, whose provider may say how long to
    wait, and deliveries, whose receiver never does. */
module Deadlines {
  import opened Errors
  import opened Reals
  import opened Retrying
  import opened WallClock
  import Breakers
  import Completing
  import Signing
  import Webhooks

  /** Calls within the bounds, sleeps that overshoot by at most `late`, and fair jitter. */
  ghost predicate Timely(latency: nat -> real, nap: (nat, real) -> Nap, jitter: nat -> real, b: Bounds) {
    && (forall n :: latency(n) <= b.longest)
    && (forall n, d :: d >= 0.0 ==> nap(n, d).length <= d + b.late)
    && (forall n :: 0.0 <= jitter(n) <= 1.0)
  }

  /** The provider never says how long to wait. */
  ghost predicate Silent(weather: Completing.Weather) {
    forall n :: weather.reply(n).Status? ==> weather.reply(n).retryAfter == None
  }

  lemma ReplyAsks(reply: Completing.Reply, hinted: bool)
    requires hinted || (reply.Status? ==> reply.retryAfter == None)
    ensures Asks(Completing.CallUpstream(reply), hinted)
  {
  }

  lemma CompletionIsPaced(c: Breakers.Config, weather: Completing.Weather, b: Bounds)
    requires Forward(weather.latency, weather.nap) && Timely(weather.latency, weather.nap, weather.jitter, b)
    requires b.longest >= 0.0 && (b.hinted || Silent(weather))
    ensures Paced(Completing.Provider(c, weather), b) && Steady(Completing.Provider(c, weather))
  {
    var w := Completing.Provider(c, weather);
    forall s: Completing.Scene
      ensures 0.0 <= w.jitter(s) <= 1.0 && 0.0 <= Length(w, s) <= b.longest && Asks(w.attempt(s).1, b.hinted)
      ensures w.clock(s) <= w.clock(w.attempt(s).0)
    {
      var reply := weather.reply(s.calls);
      assert 0.0 <= weather.latency(s.calls) <= b.longest && 0.0 <= weather.jitter(s.calls) <= 1.0;
      assert weather.reply(s.calls).Status? && !b.hinted ==> weather.reply(s.calls).retryAfter == None;
      ReplyAsks(reply, b.hinted);
      hide Completing.CallUpstream;
    }
    forall s: Completing.Scene, d: real
      ensures d >= 0.0 ==> w.clock(w.sleep(s, d).0) <= w.clock(s) + d + b.late
      ensures w.clock(s) <= w.clock(w.sleep(s, d).0)
    {
      assert weather.nap(s.calls, d).length >= 0.0;
      assert d >= 0.0 ==> weather.nap(s.calls, d).length <= d + b.late;
    }
  }

  lemma DeliveryIsPaced(mac: Signing.Mac, secret: Signing.Bytes, url: string, body: Signing.Bytes,
                        receiver: Webhooks.Receiver, b: Bounds)
    requires Forward(receiver.latency, receiver.nap) && Timely(receiver.latency, receiver.nap, receiver.jitter, b)
    ensures Paced(Webhooks.Courier(mac, secret, url, body, receiver), b)
    ensures Steady(Webhooks.Courier(mac, secret, url, body, receiver))
  {
    var w := Webhooks.Courier(mac, secret, url, body, receiver);
    hide Signing.Sign;
    forall s: Webhooks.Desk
      ensures 0.0 <= w.jitter(s) <= 1.0 && 0.0 <= Length(w, s) <= b.longest && Asks(w.attempt(s).1, b.hinted)
      ensures w.clock(s) <= w.clock(w.attempt(s).0)
    {
      assert 0.0 <= receiver.latency(|s.posts|) <= b.longest && 0.0 <= receiver.jitter(|s.posts|) <= 1.0;
    }
    forall s: Webhooks.Desk, d: real
      ensures d >= 0.0 ==> w.clock(w.sleep(s, d).0) <= w.clock(s) + d + b.late
      ensures w.clock(s) <= w.clock(w.sleep(s, d).0)
    {
      assert receiver.nap(|s.posts|, d).length >= 0.0;
      assert d >= 0.0 ==> receiver.nap(|s.posts|, d).length <= d + b.late;
    }
  }

  /** A completion ends within the worst case of its policy and no attempt of it begins after the latest start,
      whatever the breaker does meanwhile. */
  lemma CompletionEndsInTime(
      c: Breakers.Config, p: Policy, weather: Completing.Weather, s: Completing.Scene, b: Bounds)
    requires Sane(p, b) && (b.hinted || Silent(weather))
    requires Forward(weather.latency, weather.nap) && Timely(weather.latency, weather.nap, weather.jitter, b)
    ensures var w := Completing.Provider(c, weather);
            var r := Retry(p, w, s);
            && Elapsed(w, r) <= LongestLoop(p, b)
            && forall i | 0 <= i < |r.starts| :: Begins(w, r, i) <= LatestStart(p, b)
  {
    CompletionIsPaced(c, weather, b);
    NoLoopIsLonger(p, Completing.Provider(c, weather), s, b);
  }

  /** So does a delivery, whose waits are its own. */
  lemma DeliveryEndsInTime(mac: Signing.Mac, secret: Signing.Bytes, url: string, body: Signing.Bytes, p: Policy,
                           receiver: Webhooks.Receiver, start: real, b: Bounds)
    requires Sane(p, b)
    requires Forward(receiver.latency, receiver.nap) && Timely(receiver.latency, receiver.nap, receiver.jitter, b)
    ensures var w := Webhooks.Courier(mac, secret, url, body, receiver);
            var r := Retry(p, w, Webhooks.Desk(start, []));
            && Elapsed(w, r) <= LongestLoop(p, b)
            && forall i | 0 <= i < |r.starts| :: Begins(w, r, i) <= LatestStart(p, b)
  {
    DeliveryIsPaced(mac, secret, url, body, receiver, b);
    NoLoopIsLonger(p, Webhooks.Courier(mac, secret, url, body, receiver), Webhooks.Desk(start, []), b);
  }

  // ---------------------------------------------------------------------------------------
  // One world in another
  // ---------------------------------------------------------------------------------------

  /** The retry policy cannot tell these outcomes apart. */
  predicate Alike<T, V>(o: Outcome<T>, o': Outcome<V>) {
    && (o.Success? <==> o'.Success?) && (o.Crashed? <==> o'.Crashed?)
    && (o.Failed? && o'.Failed? ==>
          o.error.retryable == o'.error.retryable && o.error.retryAfter == o'.error.retryAfter)
  }

  lemma AlikeIsJudgedAlike<T, V>(p: Policy, k: nat, o: Outcome<T>, o': Outcome<V>, elapsed: real, jitter: real)
    requires k >= 1 && Alike(o, o')
    ensures Judge(p, k, o, elapsed, jitter) == Judge(p, k, o', elapsed, jitter)
  {
    hide DelayFor;
  }

  /** One attempt and any sleep after it, in `w` and in `v`, seen through `f`. */
  ghost predicate StepMirrors<S, T, U, V>(
      p: Policy, w: World<S, T>, v: World<U, V>, f: S -> U, inv: (nat, S) -> bool, k: nat, s: S)
  {
    var (s1, o) := w.attempt(s);
    var (u1, o') := v.attempt(f(s));
    && u1 == f(s1) && Alike(o, o') && v.clock(u1) == w.clock(s1) && v.jitter(u1) == w.jitter(s1)
    && forall d: real ::
         && v.sleep(u1, d) == (f(w.sleep(s1, d).0), w.sleep(s1, d).1)
         && (k + 1 < p.Cap() ==> inv(k + 1, w.sleep(s1, d).0))
  }

  ghost predicate Mirrors<S(!new), T, U, V>(
      p: Policy, w: World<S, T>, v: World<U, V>, f: S -> U, inv: (nat, S) -> bool)
  {
    forall k: nat, s: S :: k < p.Cap() && inv(k, s) ==> StepMirrors(p, w, v, f, inv, k, s)
  }

  /** A loop in one world is the loop in the other. */
  lemma {:induction false} LoopMirrors<S(!new), T, U, V>(
      p: Policy, w: World<S, T>, v: World<U, V>, f: S -> U, inv: (nat, S) -> bool, started: real, k: nat, s: S)
    requires Mirrors(p, w, v, f, inv) && k < p.Cap() && inv(k, s)
    ensures var r, q := Attempts(p, w, started, k, s), Attempts(p, v, started, k, f(s));
            && |r.starts| == |q.starts| && q.final == f(r.final)
            && forall i | 0 <= i < |r.starts| :: q.starts[i] == f(r.starts[i])
    decreases p.maxAttempts - k
  {
    hide Attempts, Judge, Mirrors, Alike;
    assert StepMirrors(p, w, v, f, inv, k, s) by { MirrorsAt(p, w, v, f, inv, k, s); }
    var (s1, o) := w.attempt(s);
    var (u1, o') := v.attempt(f(s));
    Turn(p, w, started, k, s);
    Turn(p, v, started, k, f(s));
    AlikeIsJudgedAlike(p, k + 1, o, o', w.clock(s1) - started, w.jitter(s1));
    var verdict := Judge(p, k + 1, o, w.clock(s1) - started, w.jitter(s1));
    if verdict.Wait? {
      var (s2, whole) := w.sleep(s1, verdict.delay);
      assert v.sleep(u1, verdict.delay) == (f(s2), whole);
      if whole {
        LoopMirrors(p, w, v, f, inv, started, k + 1, s2);
      }
    }
  }

  lemma MirrorsAt<S(!new), T, U, V>(
      p: Policy, w: World<S, T>, v: World<U, V>, f: S -> U, inv: (nat, S) -> bool, k: nat, s: S)
    requires Mirrors(p, w, v, f, inv) && k < p.Cap() && inv(k, s)
    ensures StepMirrors(p, w, v, f, inv, k, s)
  {
  }

  // ---------------------------------------------------------------------------------------
  // The longest completion and the longest delivery
  // ---------------------------------------------------------------------------------------

  /** The times of `Laps`. */
  function LapLatency(b: Bounds, n: nat, share: real): nat -> real {
    k => if k < n then Portion(b.longest, share) else b.longest
  }

  function LapNap(b: Bounds, n: nat, share: real): (nat, real) -> Nap {
    (k, d) => Nap(Max(d, 0.0) + (if k < n then Portion(b.late, share) else b.late), true)
  }

  function LapJitter(share: real): nat -> real {
    k => share
  }

  lemma LapsAreTimely(b: Bounds, n: nat, share: real)
    requires b.longest >= 0.0 && b.late >= 0.0 && 0.0 <= share <= 1.0
    ensures Forward(LapLatency(b, n, share), LapNap(b, n, share))
    ensures Timely(LapLatency(b, n, share), LapNap(b, n, share), LapJitter(share), b)
  {
    Shrink(b.longest, share);
    Shrink(b.late, share);
    hide Portion;
    var latency, nap := LapLatency(b, n, share), LapNap(b, n, share);
    forall k: nat
      ensures 0.0 <= latency(k) <= b.longest
    {
    }
    forall k: nat, d: real
      ensures nap(k, d).length >= 0.0 && (d >= 0.0 ==> nap(k, d).length <= d + b.late)
    {
      var over := if k < n then Portion(b.late, share) else b.late;
      assert 0.0 <= over <= b.late;
      assert nap(k, d) == Nap(Max(d, 0.0) + over, true);
    }
  }

  function LapWeather(p: Policy, b: Bounds, n: nat, share: real): Completing.Weather {
    var hint := if b.hinted then Some(Portion(p.maxBackoff, share)) else None;
    Completing.Weather(
      k => Completing.Status(429, None, hint), LapLatency(b, n, share), LapNap(b, n, share), LapJitter(share))
  }

  function LapReceiver(b: Bounds, n: nat, share: real): Webhooks.Receiver {
    Webhooks.Receiver(k => Webhooks.Lost, LapLatency(b, n, share), LapNap(b, n, share), LapJitter(share), k => 0)
  }

  function LapOfScene(s: Completing.Scene): Lap {
    Lap(s.now, s.calls)
  }

  function LapOfDesk(s: Webhooks.Desk): Lap {
    Lap(s.now, |s.posts|)
  }

  /** A closed circuit that has seen `k` calls fail. */
  predicate Failing(k: nat, s: Completing.Scene) {
    s.calls == k && s.breaker.state == Breakers.Closed && s.breaker.failures == k
  }

  predicate Posted(k: nat, s: Webhooks.Desk) {
    |s.posts| == k
  }

  lemma ThrottledAttempt(c: Breakers.Config, p: Policy, b: Bounds, n: nat, share: real, s: Completing.Scene)
    requires Failing(s.calls, s) && s.calls < c.Limit() && p.maxBackoff >= 0.0 && 0.0 <= share <= 1.0
    ensures var weather := LapWeather(p, b, n, share);
            var (s1, o) := Completing.Guarded(c, weather, s);
            && s1.now == s.now + weather.latency(s.calls) && s1.calls == s.calls + 1
            && (s.calls + 1 < c.Limit() ==> Failing(s.calls + 1, s1))
            && Alike(o, Failure(if b.hinted then Some(Portion(p.maxBackoff, share)) else None))
  {
    Shrink(p.maxBackoff, share);
    hide Portion, LapLatency, LapNap, LapJitter;
  }

  lemma WeatherMirrors(c: Breakers.Config, p: Policy, b: Bounds, n: nat, share: real)
    requires Sane(p, b) && 0.0 <= share <= 1.0 && p.Cap() <= c.Limit()
    ensures Mirrors(p, Completing.Provider(c, LapWeather(p, b, n, share)), Laps(p, b, n, share), LapOfScene, Failing)
  {
    hide Portion, Completing.Guarded, Alike, Failure;
    var w, v := Completing.Provider(c, LapWeather(p, b, n, share)), Laps(p, b, n, share);
    forall k: nat, s: Completing.Scene | k < p.Cap() && Failing(k, s)
      ensures StepMirrors(p, w, v, LapOfScene, Failing, k, s)
    {
      ThrottledAttempt(c, p, b, n, share, s);
    }
  }

  lemma ReceiverMirrors(mac: Signing.Mac, secret: Signing.Bytes, url: string, body: Signing.Bytes, p: Policy,
                        b: Bounds, n: nat, share: real)
    requires !b.hinted
    ensures Mirrors(p, Webhooks.Courier(mac, secret, url, body, LapReceiver(b, n, share)), Laps(p, b, n, share),
                    LapOfDesk, Posted)
  {
    hide Portion, Signing.Sign;
    var w, v := Webhooks.Courier(mac, secret, url, body, LapReceiver(b, n, share)), Laps(p, b, n, share);
    forall k: nat, s: Webhooks.Desk | k < p.Cap() && Posted(k, s)
      ensures StepMirrors(p, w, v, LapOfDesk, Posted, k, s)
    {
    }
  }

  /** This loop attains both bounds. */
  ghost predicate Attains<S, T>(p: Policy, w: World<S, T>, s: S, b: Bounds) {
    var r := Retry(p, w, s);
    |r.outcomes| == p.Cap() && Begins(w, r, p.Cap() - 1) == LatestStart(p, b) && Elapsed(w, r) == LongestLoop(p, b)
  }

  lemma MirrorAttains<S(!new), T>(
      p: Policy, w: World<S, T>, f: S -> Lap, inv: (nat, S) -> bool, s: S, b: Bounds, share: real)
    requires Mirrors(p, w, Laps(p, b, p.Cap() - 1, share), f, inv) && inv(0, s) && f(s) == Lap(w.clock(s), 0)
    requires forall x :: f(x).now == w.clock(x)
    requires Attains(p, Laps(p, b, p.Cap() - 1, share), f(s), b)
    ensures Attains(p, w, s, b)
  {
    var v := Laps(p, b, p.Cap() - 1, share);
    assert forall x: Lap :: v.clock(x) == x.now;
    hide Attempts, Laps, Mirrors, LatestStart;
    LoopMirrors(p, w, v, f, inv, w.clock(s), 0, s);
  }

  /** A provider and sleeps that make a completion, begun on a closed circuit with no failures, as long as any can be -
      if the circuit does not open before the last attempt. */
  lemma LongestCompletion(c: Breakers.Config, p: Policy, b: Bounds, s: Completing.Scene)
    returns (weather: Completing.Weather)
    requires Sane(p, b) && Failing(0, s) && p.Cap() <= c.Limit()
    ensures Forward(weather.latency, weather.nap) && Timely(weather.latency, weather.nap, weather.jitter, b)
    ensures b.hinted || Silent(weather)
    ensures Attains(p, Completing.Provider(c, weather), s, b)
  {
    hide Laps, Attempts, Mirrors, Completing.Guarded, LatestStart, Portion;
    var n := p.Cap() - 1;
    var share := LapsAttain(p, s.now, b);
    weather := LapWeather(p, b, n, share);
    LapsAreTimely(b, n, share);
    WeatherMirrors(c, p, b, n, share);
    MirrorAttains(p, Completing.Provider(c, weather), LapOfScene, Failing, s, b, share);
  }

  /** A receiver and sleeps that make a delivery as long as any can be. */
  lemma LongestDelivery(mac: Signing.Mac, secret: Signing.Bytes, url: string, body: Signing.Bytes, p: Policy,
                        b: Bounds, start: real) returns (receiver: Webhooks.Receiver)
    requires Sane(p, b) && !b.hinted
    ensures Forward(receiver.latency, receiver.nap) && Timely(receiver.latency, receiver.nap, receiver.jitter, b)
    ensures Attains(p, Webhooks.Courier(mac, secret, url, body, receiver), Webhooks.Desk(start, []), b)
  {
    hide Laps, Attempts, Mirrors, Webhooks.PostOnce, LatestStart, Portion;
    var n := p.Cap() - 1;
    var share := LapsAttain(p, start, b);
    receiver := LapReceiver(b, n, share);
    LapsAreTimely(b, n, share);
    ReceiverMirrors(mac, secret, url, body, p, b, n, share);
    MirrorAttains(p, Webhooks.Courier(mac, secret, url, body, receiver), LapOfDesk, Posted, Webhooks.Desk(start, []), b,
                  share);
  }

  // ---------------------------------------------------------------------------------------
  // When completions and deliveries keep their budget
  // ---------------------------------------------------------------------------------------

  /** Every completion begun in `s` with times within the bounds ends within its budget. */
  ghost predicate CompletionsKeepBudget(c: Breakers.Config, p: Policy, b: Bounds, s: Completing.Scene) {
    forall weather: Completing.Weather ::
      && Forward(weather.latency, weather.nap) && Timely(weather.latency, weather.nap, weather.jitter, b)
      && (b.hinted || Silent(weather)) ==>
        Elapsed(Completing.Provider(c, weather), Retry(p, Completing.Provider(c, weather), s)) <= p.budget
  }

  /** Every delivery begun at `start` with times within the bounds ends within its budget. */
  ghost predicate DeliveriesKeepBudget(mac: Signing.Mac, secret: Signing.Bytes, url: string, body: Signing.Bytes,
                                       p: Policy, b: Bounds, start: real)
  {
    forall receiver: Webhooks.Receiver ::
      Forward(receiver.latency, receiver.nap) && Timely(receiver.latency, receiver.nap, receiver.jitter, b) ==>
        Elapsed(Webhooks.Courier(mac, secret, url, body, receiver),
                Retry(p, Webhooks.Courier(mac, secret, url, body, receiver), Webhooks.Desk(start, []))) <= p.budget
  }

  /** The settings with which a loop always ends within its budget. */
  predicate Affordable(p: Policy, b: Bounds) {
    b.longest + b.late == 0.0 || b.longest + Fill(p, b, p.Cap() - 1) <= p.budget
  }

  lemma AffordableIff(p: Policy, b: Bounds)
    requires Sane(p, b)
    ensures Affordable(p, b) <==> LongestLoop(p, b) <= p.budget
  {
    FillGrows(p, b, 0, p.Cap() - 1);
    hide Fill;
  }

  /** Which settings keep every completion within its budget: it suffices that all attempts with their longest sleeps
      fit in it, on any circuit; and on a closed one that stays closed until the last attempt nothing less will do. */
  lemma CompletionBudgetIff(c: Breakers.Config, p: Policy, b: Bounds, s: Completing.Scene)
    requires Sane(p, b)
    ensures Affordable(p, b) ==> CompletionsKeepBudget(c, p, b, s)
    ensures Failing(0, s) && p.Cap() <= c.Limit() ==> (CompletionsKeepBudget(c, p, b, s) <==> Affordable(p, b))
  {
    hide Attempts, Completing.Provider, Fill, LongestLoop, Elapsed, Forward, Timely, Silent;
    AffordableIff(p, b);
    hide Affordable;
    forall weather: Completing.Weather |
      && Forward(weather.latency, weather.nap) && Timely(weather.latency, weather.nap, weather.jitter, b)
      && (b.hinted || Silent(weather))
      ensures Elapsed(Completing.Provider(c, weather), Retry(p, Completing.Provider(c, weather), s))
              <= LongestLoop(p, b)
    {
      CompletionEndsInTime(c, p, weather, s, b);
    }
    if Failing(0, s) && p.Cap() <= c.Limit() {
      var weather := LongestCompletion(c, p, b, s);
      assert Elapsed(Completing.Provider(c, weather), Retry(p, Completing.Provider(c, weather), s))
             == LongestLoop(p, b);
    }
  }

  /** And which keep every completion within its budget whatever its circuit is set to and has seen. */
  lemma AnyCircuitBudgetIff(p: Policy, b: Bounds)
    requires Sane(p, b)
    ensures (forall c: Breakers.Config, s: Completing.Scene :: CompletionsKeepBudget(c, p, b, s)) <==> Affordable(p, b)
  {
    hide CompletionsKeepBudget, Affordable;
    forall c: Breakers.Config, s: Completing.Scene
      ensures Affordable(p, b) ==> CompletionsKeepBudget(c, p, b, s)
    {
      CompletionBudgetIff(c, p, b, s);
    }
    var c, s := Breakers.Config(p.Cap(), 0.0), Completing.Scene(Breakers.FRESH, 0.0, 0);
    CompletionBudgetIff(c, p, b, s);
  }

  /** Which settings keep every delivery within its budget, its waits being its own exponential steps. */
  lemma DeliveryBudgetIff(mac: Signing.Mac, secret: Signing.Bytes, url: string, body: Signing.Bytes, p: Policy,
                          b: Bounds, start: real)
    requires Sane(p, b) && !b.hinted
    ensures DeliveriesKeepBudget(mac, secret, url, body, p, b, start) <==> Affordable(p, b)
  {
    hide Attempts, Webhooks.Courier, Fill, LongestLoop, Elapsed, Forward, Timely;
    AffordableIff(p, b);
    hide Affordable;
    forall receiver: Webhooks.Receiver |
      Forward(receiver.latency, receiver.nap) && Timely(receiver.latency, receiver.nap, receiver.jitter, b)
      ensures Elapsed(Webhooks.Courier(mac, secret, url, body, receiver),
                      Retry(p, Webhooks.Courier(mac, secret, url, body, receiver), Webhooks.Desk(start, [])))
              <= LongestLoop(p, b)
    {
      DeliveryEndsInTime(mac, secret, url, body, p, receiver, start, b);
    }
    var receiver := LongestDelivery(mac, secret, url, body, p, b, start);
    assert Elapsed(Webhooks.Courier(mac, secret, url, body, receiver),
                   Retry(p, Webhooks.Courier(mac, secret, url, body, receiver), Webhooks.Desk(start, [])))
           == LongestLoop(p, b);
  }
}
