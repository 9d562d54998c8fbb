/** The completion service of src/services/completion.py: one attempt guarded by the circuit breaker,
    repeated under the retry policy, and metered once. The provider is an oracle. */
module Completing {
  import opened Errors
  import opened Retrying
  import Breakers

  datatype Response = Response(id: string, model: string, content: string, promptTokens: int, completionTokens: int)

  /** What the provider did: nothing in time, nothing at all, an HTTP status (with the delay-seconds of
      Retry-After if there were any), a body that is not a completion, a completion, or something that
      made the client raise any other exception. */
  datatype Reply =
    | TimedOut
    | Unreachable
    | Status(status: int, message: Option<string>, retryAfter: Option<real>)
    | Unreadable
    | Completed(response: Response)
    | Unexpected

  // ---------------------------------------------------------------------------------------
  // Error mapping
  // ---------------------------------------------------------------------------------------

  const CIRCUIT_OPEN := AppError(
    "upstream_circuit_open", "The provider is failing; calls are paused. Retry shortly.", 503, false, None, map[])

  function Upstream(code: string, message: string, status: int, retryable: bool): AppError {
    AppError(code, message, status, retryable, None, map[])
  }

  const UNPARSABLE := Upstream(
    "invalid_upstream_response", "The provider returned a response we could not parse.", 502, false)

  /** A missing or empty string gives way to the default. */
  function OrElse(given: Option<string>, otherwise: string): string {
    if given.Some? && given.value != "" then given.value else otherwise
  }

  /** A negative delay is no delay. */
  function RetryAfterSeconds(header: Option<real>): Option<real> {
    match header
    case None => None
    case Some(seconds) => Some(if seconds > 0.0 then seconds else 0.0)
  }

  function AsAppError(status: int, message: Option<string>, retryAfter: Option<real>): AppError {
    var details := map["upstream_status" := status];
    if status == 404 then
      AppError("model_not_found", OrElse(message, "Model is not available."), 400, false, None, map[])
    else if status == 429 then
      AppError("upstream_rate_limited", "Rate limited by the provider. Retry shortly.", 429, true,
               RetryAfterSeconds(retryAfter), details)
    else if status == 401 || status == 403 then
      AppError("upstream_auth_failed", "The provider rejected our credentials.", 502, false, None, details)
    else if 400 <= status < 500 then
      AppError("upstream_rejected_request", OrElse(message, "The provider rejected the request."), 400, false,
               None, details)
    else
      AppError("upstream_error", "The provider returned an unexpected error.", 502, true, None, details)
  }

  function CallUpstream(reply: Reply): Outcome<Response> {
    match reply
    case TimedOut =>
      Failed(Upstream("upstream_timeout", "The provider did not respond in time.", 504, true))
    case Unreachable =>
      Failed(Upstream("upstream_unavailable", "The provider could not be reached.", 503, true))
    case Status(status, message, retryAfter) =>
      // An HTTP status that is not an error carries a body, and this one was not a completion.
      if 400 <= status <= 599 then Failed(AsAppError(status, message, retryAfter))
      else Failed(UNPARSABLE)
    case Unreadable => Failed(UNPARSABLE)
    case Completed(response) => Success(response)
    case Unexpected => Crashed
  }

  /** The reply says something about the provider's health: none in time, none at all, throttling, or a 5xx. */
  predicate Infrastructure(reply: Reply) {
    || reply.TimedOut?
    || reply.Unreachable?
    || (reply.Status? && (reply.status == 429 || 500 <= reply.status <= 599))
  }

  lemma StatusIsRetryable(status: int, message: Option<string>, retryAfter: Option<real>)
    requires 400 <= status <= 599
    ensures AsAppError(status, message, retryAfter).retryable <==> status == 429 || status >= 500
    ensures AsAppError(status, message, retryAfter).statusCode
         == if status == 429 then 429 else if 400 <= status < 500 && status != 401 && status != 403 then 400 else 502
  {
    hide OrElse, RetryAfterSeconds;
  }

  /** Exactly the failures of the infrastructure are worth repeating; only a completion is a success and only an
      unexpected exception a crash; and no failure is recorded with the status of a success. */
  lemma RetryableIsInfrastructure(reply: Reply)
    ensures CallUpstream(reply).Retryable() <==> Infrastructure(reply)
    ensures CallUpstream(reply).Success? <==> reply.Completed?
    ensures CallUpstream(reply).Crashed? <==> reply.Unexpected?
    ensures CallUpstream(reply).Failed? ==> CallUpstream(reply).error.statusCode in {400, 429, 502, 503, 504}
  {
    if reply.Status? && 400 <= reply.status <= 599 {
      StatusIsRetryable(reply.status, reply.message, reply.retryAfter);
    }
    hide AsAppError;
  }

  /** No two kinds of failure share a code. */
  lemma CodesDiffer()
    ensures "upstream_timeout" != "upstream_error" && "upstream_timeout" != "model_not_found"
    ensures "upstream_error" != "model_not_found"
    ensures "upstream_unavailable" != "upstream_auth_failed" && "upstream_rate_limited" != "upstream_circuit_open"
    ensures "upstream_rejected_request" != "invalid_upstream_response"
    ensures |"upstream_timeout"| == 16 && |"upstream_unavailable"| == 20 && |"model_not_found"| == 15
    ensures |"upstream_rate_limited"| == 21 && |"upstream_auth_failed"| == 20 && |"upstream_error"| == 14
    ensures |"upstream_rejected_request"| == 25 && |"invalid_upstream_response"| == 25
    ensures |"upstream_circuit_open"| == 21
  {
    assert "upstream_unavailable"[9] != "upstream_auth_failed"[9];
    assert "upstream_rate_limited"[9] != "upstream_circuit_open"[9];
    assert "upstream_rejected_request"[0] != "invalid_upstream_response"[0];
  }

  /** The code of a failure says which of the eight kinds of failing reply it was, and only that. */
  ghost predicate Coded(reply: Reply, code: string) {
    var status := if reply.Status? then reply.status else 0;
    && (code == "upstream_timeout" <==> reply.TimedOut?)
    && (code == "upstream_unavailable" <==> reply.Unreachable?)
    && (code == "model_not_found" <==> status == 404)
    && (code == "upstream_rate_limited" <==> status == 429)
    && (code == "upstream_auth_failed" <==> status == 401 || status == 403)
    && (code == "upstream_rejected_request" <==> 400 <= status <= 499 && status !in {401, 403, 404, 429})
    && (code == "upstream_error" <==> 500 <= status <= 599)
    && (code == "invalid_upstream_response" <==>
          reply.Unreadable? || (reply.Status? && !(400 <= status <= 599)))
    && code != "upstream_circuit_open"
  }

  /** Its status is the one of that kind; and only throttling comes with a wait, the provider's own, never negative. */
  ghost predicate Ranked(reply: Reply, e: AppError) {
    var status := if reply.Status? then reply.status else 0;
    && (reply.TimedOut? ==> e.statusCode == 504)
    && (reply.Unreachable? ==> e.statusCode == 503)
    && (status == 429 ==> e.statusCode == 429)
    && (400 <= status <= 499 && status !in {401, 403, 429} ==> e.statusCode == 400)
    && (status in {401, 403} || 500 <= status <= 599 ==> e.statusCode == 502)
    && (reply.Unreadable? || (reply.Status? && !(400 <= status <= 599)) ==> e.statusCode == 502)
    && (e.retryAfter.Some? <==> status == 429 && reply.retryAfter.Some?)
    && (e.retryAfter.Some? ==>
          e.retryAfter.value == if reply.retryAfter.value >= 0.0 then reply.retryAfter.value else 0.0)
  }

  ghost predicate Names(reply: Reply, e: AppError) {
    Coded(reply, e.code) && Ranked(reply, e)
  }

  lemma FailureIsCoded(reply: Reply)
    requires CallUpstream(reply).Failed?
    ensures Coded(reply, CallUpstream(reply).error.code)
  {
    hide OrElse, RetryAfterSeconds;
    CodesDiffer();
  }

  lemma FailureIsRanked(reply: Reply)
    requires CallUpstream(reply).Failed?
    ensures Ranked(reply, CallUpstream(reply).error)
  {
    hide OrElse;
  }

  lemma EveryFailureIsNamed(reply: Reply)
    requires CallUpstream(reply).Failed?
    ensures Names(reply, CallUpstream(reply).error)
  {
    hide CallUpstream, Coded, Ranked;
    FailureIsCoded(reply);
    FailureIsRanked(reply);
  }

  /** What an error says to the caller, and which upstream status it quotes. A provider that rejects the request, or
      does not know the model, is quoted word for word if it said anything. */
  ghost predicate Speaks(reply: Reply, e: AppError) {
    var status := if reply.Status? then reply.status else 0;
    var said := reply.Status? && reply.message.Some? && reply.message.value != "";
    && (reply.TimedOut? ==> e.message == "The provider did not respond in time.")
    && (reply.Unreachable? ==> e.message == "The provider could not be reached.")
    && (status == 429 ==> e.message == "Rate limited by the provider. Retry shortly.")
    && (status in {401, 403} ==> e.message == "The provider rejected our credentials.")
    && (500 <= status <= 599 ==> e.message == "The provider returned an unexpected error.")
    && (400 <= status <= 499 && status !in {401, 403, 429} && said ==> e.message == reply.message.value)
    && (400 <= status <= 499 && status !in {401, 403, 404, 429} && !said ==>
          e.message == "The provider rejected the request.")
    && (reply.Unreadable? || (reply.Status? && !(400 <= status <= 599)) ==>
          e.message == "The provider returned a response we could not parse.")
    && e.details == (if 400 <= status <= 599 && status != 404 then map["upstream_status" := status] else map[])
  }

  lemma EveryFailureSpeaks(reply: Reply)
    requires CallUpstream(reply).Failed?
    ensures Speaks(reply, CallUpstream(reply).error)
  {
    hide RetryAfterSeconds;
  }

  /** A paused circuit has its own code; it is not worth retrying and asks for no wait. */
  lemma CircuitOpenIsNamed()
    ensures CIRCUIT_OPEN.code == "upstream_circuit_open" && CIRCUIT_OPEN.statusCode == 503
    ensures CIRCUIT_OPEN.message == "The provider is failing; calls are paused. Retry shortly."
    ensures !CIRCUIT_OPEN.retryable && CIRCUIT_OPEN.retryAfter == None && CIRCUIT_OPEN.details == map[]
  {
  }

  /** Nothing the provider says about our credentials, or while failing, gets through to the caller. */
  lemma UpstreamTextIsWithheld(status: int, message: Option<string>, other: Option<string>, retryAfter: Option<real>)
    requires status == 401 || status == 403 || status == 429 || 500 <= status <= 599
    ensures CallUpstream(Status(status, message, retryAfter)) == CallUpstream(Status(status, other, retryAfter))
  {
    hide OrElse, RetryAfterSeconds;
  }

  // ---------------------------------------------------------------------------------------
  // One guarded attempt
  // ---------------------------------------------------------------------------------------

  /** The provider and the passing of time, by number of provider calls made so far: the n-th reply, how
      long it took, what became of a sleep of `d`, and the jitter drawn. */
  datatype Weather = Weather(
    reply: nat -> Reply,
    latency: nat -> real,
    nap: (nat, real) -> Nap,
    jitter: nat -> real)

  datatype Scene = Scene(breaker: Breakers.Breaker, now: real, calls: nat)

  /** The breaker once it has been told how a call ended. */
  function Reported(c: Breakers.Config, b: Breakers.Breaker, o: Outcome<Response>, now: real): Breakers.Breaker {
    if o.Success? then Breakers.Succeeded(b)
    else if o.Retryable() then Breakers.Failed(c, b, now)
    else b
  }

  /** An attempt as the breaker sees it: checked before, and reported on after if it says something about the
      provider. */
  function Guarded(c: Breakers.Config, weather: Weather, s: Scene): (Scene, Outcome<Response>) {
    var b := Breakers.Checked(c, s.breaker, s.now);
    if !Breakers.Admits(c, s.breaker, s.now) then (s.(breaker := b), Failed(CIRCUIT_OPEN))
    else
      var now := s.now + weather.latency(s.calls);
      var o := CallUpstream(weather.reply(s.calls));
      (Scene(Reported(c, b, o, now), now, s.calls + 1), o)
  }

  /** What the breaker is told of an admitted call: success, a failure of the infrastructure, or nothing. */
  function ReportOf(reply: Reply, now: real): seq<Breakers.Event> {
    if reply.Completed? then [Breakers.Event.Success(now)]
    else if Infrastructure(reply) then [Breakers.Event.Failure(now)]
    else []
  }

  function Provider(c: Breakers.Config, weather: Weather): World<Scene, Response> {
    World(
      s => Guarded(c, weather, s),
      (s: Scene, d: real) => (s.(now := s.now + weather.nap(s.calls, d).length), weather.nap(s.calls, d).whole),
      (s: Scene) => s.now,
      (s: Scene) => weather.jitter(s.calls))
  }

  lemma ProviderIs(c: Breakers.Config, weather: Weather, s: Scene)
    ensures var w := Provider(c, weather);
            && w.attempt(s) == Guarded(c, weather, s) && w.clock(s) == s.now && w.jitter(s) == weather.jitter(s.calls)
            && forall d ::
                 w.sleep(s, d) == (s.(now := s.now + weather.nap(s.calls, d).length), weather.nap(s.calls, d).whole)
  {
    hide Guarded;
  }

  // ---------------------------------------------------------------------------------------
  // Metering
  // ---------------------------------------------------------------------------------------

  datatype UsageEntry = UsageEntry(
    caller: string, model: string, statusCode: int, promptTokens: int, completionTokens: int)

  /** What becomes of a write to the usage store: it is kept, it fails, or the caller is torn down in it, before or
      after it was committed. */
  datatype Write = Kept | Lost | Cut(committed: bool) {
    predicate Stored() {
      Kept? || (Cut? && committed)
    }
  }

  /** How a completion ends that came to `o` and then wrote its entry, if it had one to write. */
  function Written(o: Outcome<Response>, write: Write): Outcome<Response> {
    if write.Cut? then Crashed else o
  }

  /** What a completion that came to `o` leaves in the store; an exception outside the taxonomy is not metered. */
  function Metered(caller: string, model: string, o: Outcome<Response>, write: Write): seq<UsageEntry> {
    if !write.Stored() then []
    else match o
      case Success(r) => [UsageEntry(caller, model, 200, r.promptTokens, r.completionTokens)]
      case Failed(e) => [UsageEntry(caller, model, e.statusCode, 0, 0)]
      case Crashed => []
  }

  class UsageStore {
    var entries: seq<UsageEntry>

    constructor ()
      ensures entries == []
    {
      entries := [];
    }

    /** A store that is down loses the entry and nothing else; `returned` is false if the caller did not live
        to see the end of the write. */
    method Record(entry: UsageEntry, write: Write) returns (returned: bool)
      modifies this
      ensures entries == old(entries) + (if write.Stored() then [entry] else [])
      ensures returned <==> !write.Cut?
    {
      if write.Stored() {
        entries := entries + [entry];
      }
      returned := !write.Cut?;
    }
  }

  class CompletionService {
    const policy: Policy
    const defaultModel: string
    const breaker: Breakers.CircuitBreaker
    const usage: UsageStore

    constructor (policy: Policy, defaultModel: string, breaker: Breakers.CircuitBreaker, usage: UsageStore)
      ensures this.policy == policy && this.defaultModel == defaultModel
      ensures this.breaker == breaker && this.usage == usage
    {
      this.policy := policy;
      this.defaultModel := defaultModel;
      this.breaker := breaker;
      this.usage := usage;
    }

    /** The scene this service acts in when the clock shows `now` and `calls` provider calls were made. */
    ghost function At(now: real, calls: nat): Scene
      reads breaker
    {
      Scene(breaker.View(), now, calls)
    }

    /** The end of an admitted call. Nothing is asked of the breaker but its invariant, so whatever other
        requests did to it while the provider was answering, only this report is added. */
    method Settle(reply: Reply, now: real) returns (o: Outcome<Response>)
      requires breaker.Valid() && Breakers.NotAfter(breaker.history, now)
      modifies breaker
      ensures breaker.Valid() && breaker.history == old(breaker.history) + ReportOf(reply, now)
      ensures o == CallUpstream(reply)
      ensures breaker.View() == Reported(breaker.config, old(breaker.View()), o, now)
    {
      hide CallUpstream, Infrastructure, Breakers.Replay, Breakers.Failed, Breakers.Succeeded;
      RetryableIsInfrastructure(reply);
      o := CallUpstream(reply);
      match o {
        case Success(_) => breaker.RecordSuccess(now);
        case Failed(error) =>
          if error.retryable {
            breaker.RecordFailure(now);
          }
        case Crashed =>
      }
    }

    method GuardedCall(weather: Weather, now: real, calls: nat)
      returns (o: Outcome<Response>, now': real, calls': nat)
      requires Forward(weather.latency, weather.nap) && breaker.Valid() && Breakers.NotAfter(breaker.history, now)
      modifies breaker
      ensures breaker.Valid() && Breakers.NotAfter(breaker.history, now') && now <= now'
      ensures calls' == calls + (if Breakers.HistoryAdmits(breaker.config, old(breaker.history), now) then 1 else 0)
      ensures breaker.history == old(breaker.history) + [Breakers.Event.Ask(now)]
                                 + (if calls' == calls then [] else ReportOf(weather.reply(calls), now'))
      ensures calls' == calls ==> o == Failed(CIRCUIT_OPEN) && now' == now
      ensures (At(now', calls'), o) == Guarded(breaker.config, weather, old(At(now, calls)))
    {
      hide CallUpstream, Infrastructure, Reported, Breakers.Replay, Breakers.HistoryAdmits, Breakers.Checked;
      var admitted := breaker.BeforeCall(now);
      if !admitted {
        return Failed(CIRCUIT_OPEN), now, calls;
      }
      assert weather.latency(calls) >= 0.0;
      now' := now + weather.latency(calls);
      calls' := calls + 1;
      o := Settle(weather.reply(calls), now');
    }

    /** The retry policy run over guarded calls: exactly the retry loop in the provider's world. */
    method RunGuarded(weather: Weather, start: real) returns (o: Outcome<Response>, now: real, calls: nat)
      requires Forward(weather.latency, weather.nap) && breaker.Valid() && Breakers.NotAfter(breaker.history, start)
      modifies breaker
      ensures breaker.Valid() && Breakers.NotAfter(breaker.history, now) && start <= now
      ensures var r := Retry(policy, Provider(breaker.config, weather), old(At(start, 0)));
              At(now, calls) == r.final && o == r.Result()
    {
      hide Guarded, ReportOf, Provider, Attempts, Judge, Breakers.Replay, Breakers.HistoryAdmits;
      ghost var world := Provider(breaker.config, weather);
      ghost var whole := Retry(policy, world, At(start, 0));
      ProviderIs(breaker.config, weather, At(start, 0));
      now, calls := start, 0;
      var attempt := 0;
      while true
        invariant breaker.Valid() && Breakers.NotAfter(breaker.history, now) && start <= now
        invariant var rest := Attempts(policy, world, start, attempt, At(now, calls));
                  && rest.final == whole.final
                  && rest.Result() == whole.Result()
        decreases policy.maxAttempts - attempt
      {
        ghost var s := At(now, calls);
        ProviderIs(breaker.config, weather, s);
        Turn(policy, world, start, attempt, s);
        attempt := attempt + 1;
        o, now, calls := GuardedCall(weather, now, calls);
        ProviderIs(breaker.config, weather, At(now, calls));
        var verdict := Judge(policy, attempt, o, now - start, weather.jitter(calls));
        if verdict.Stop? {
          return;
        }
        var nap := weather.nap(calls, verdict.delay);
        assert weather.nap(calls, verdict.delay).length >= 0.0;
        now := now + nap.length;
        if !nap.whole {
          o := Crashed;
          return;
        }
      }
    }

    /** The retried, guarded and metered call: one usage entry, of the final outcome, whatever the number
        of attempts. */
    method Complete(weather: Weather, caller: string, model: Option<string>, start: real, write: Write)
      returns (o: Outcome<Response>, now: real, calls: nat)
      requires Forward(weather.latency, weather.nap) && breaker.Valid() && Breakers.NotAfter(breaker.history, start)
      modifies breaker, usage
      ensures breaker.Valid() && Breakers.NotAfter(breaker.history, now) && start <= now
      ensures var r := Retry(policy, Provider(breaker.config, weather), old(At(start, 0)));
              && At(now, calls) == r.final && o == Written(r.Result(), write)
              && (model.Some? && model.value != "" ==>
                    usage.entries == old(usage.entries) + Metered(caller, model.value, r.Result(), write))
              && (model == None || model == Some("") ==>
                    usage.entries == old(usage.entries) + Metered(caller, defaultModel, r.Result(), write))
    {
      var name := OrElse(model, defaultModel);
      o, now, calls := RunGuarded(weather, start);
      var returned := true;
      match o {
        case Success(r) =>
          returned := usage.Record(UsageEntry(caller, name, 200, r.promptTokens, r.completionTokens), write);
        case Failed(e) =>
          returned := usage.Record(UsageEntry(caller, name, e.statusCode, 0, 0), write);
        case Crashed =>
      }
      if !returned {
        o := Crashed;
      }
    }
  }
}
