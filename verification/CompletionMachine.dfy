/** Many completions at once: each retries, sleeps and is metered on its own, all share one circuit breaker,
    and their steps - a check of the breaker, a reply of the provider - interleave freely.

    Every run of this machine, seen by the breaker, is a run of `BreakerRuns`; so what is proved there holds
    however many callers retry at the same time. */
module CompletionMachine {
  import opened Errors
  import opened Retrying
  import opened Completing
  import opened Runs
  import Breakers
  import BreakerRuns

  datatype Order = Order(caller: string, model: string, started: real)

  /** A completion that has finished `made` attempts: about to check the breaker for the next one, no earlier
      than `from`; waiting for the provider in the next one; or over, having come to `result` and tried to write. */
  datatype Call =
    | Trying(order: Order, made: nat, from: real)
    | Waiting(order: Order, made: nat)
    | Over(order: Order, made: nat, result: Outcome<Response>, write: Write)
  {
    /** How it ended for its caller. */
    function Answer(): Outcome<Response>
      requires Over?
    {
      Written(result, write)
    }
  }

  datatype Charge = Charge(id: nat, entry: UsageEntry)

  datatype Kernel = Kernel(breaker: Breakers.Breaker, calls: map<nat, Call>, usage: seq<Charge>, provider: nat)

  /** `Ask` checks the breaker, `Hear` gets the provider's reply, and `TearDown` ends a call that sleeps between two
      attempts; one torn down while it awaits the provider hears an unexpected reply. */
  datatype Step =
    | Begin(id: nat, caller: string, model: string, at: real)
    | Ask(id: nat, at: real, write: Write)
    | Hear(id: nat, reply: Reply, at: real, jitter: real, write: Write)
    | TearDown(id: nat, at: real)

  ghost predicate Enabled(k: Kernel, step: Step) {
    match step
    case Begin(id, _, _, _) => id !in k.calls
    case Ask(id, at, _) => id in k.calls && k.calls[id].Trying? && k.calls[id].from <= at
    case Hear(id, _, _, _, _) => id in k.calls && k.calls[id].Waiting?
    case TearDown(id, _) => id in k.calls && k.calls[id].Trying? && k.calls[id].made > 0
  }

  /** The call comes to `o`, writes its usage entry if it has one to write, and is over. */
  function End(k: Kernel, id: nat, order: Order, made: nat, o: Outcome<Response>, write: Write): Kernel {
    k.(calls := k.calls[id := Ended(order, made, o, write)], usage := k.usage + Charges(id, order, o, write))
  }

  /** A call that has nothing to write is not troubled by the store. */
  function Ended(order: Order, made: nat, o: Outcome<Response>, write: Write): Call {
    Over(order, made, o, if o.Crashed? then Kept else write)
  }

  function Charges(id: nat, order: Order, o: Outcome<Response>, write: Write): seq<Charge> {
    var entries := Metered(order.caller, order.model, o, write);
    if entries == [] then [] else [Charge(id, entries[0])]
  }

  function Next(c: Breakers.Config, p: Policy, k: Kernel, step: Step): Kernel {
    match step
    case Begin(id, caller, model, at) => k.(calls := k.calls[id := Trying(Order(caller, model, at), 0, at)])
    case Ask(id, at, write) =>
      if !(id in k.calls && k.calls[id].Trying?) then k
      else
        var call, k1 := k.calls[id], k.(breaker := Breakers.Checked(c, k.breaker, at));
        if Breakers.Admits(c, k.breaker, at) then
          k1.(calls := k.calls[id := Waiting(call.order, call.made)], provider := k.provider + 1)
        else End(k1, id, call.order, call.made + 1, Failed(CIRCUIT_OPEN), write)
    case Hear(id, reply, at, jitter, write) =>
      if !(id in k.calls && k.calls[id].Waiting?) then k
      else
        var call, o := k.calls[id], CallUpstream(reply);
        var k1 := k.(breaker := Reported(c, k.breaker, o, at));
        var verdict := Judge(p, call.made + 1, o, at - call.order.started, jitter);
        if verdict.Stop? then End(k1, id, call.order, call.made + 1, o, write)
        else k1.(calls := k.calls[id := Trying(call.order, call.made + 1, at + verdict.delay)])
    case TearDown(id, _) =>
      if !(id in k.calls && k.calls[id].Trying?) then k
      else End(k, id, k.calls[id].order, k.calls[id].made, Crashed, Kept)
  }

  const IDLE := Kernel(Breakers.FRESH, map[], [], 0)

  function Exec(c: Breakers.Config, p: Policy, run: seq<Step>): Kernel {
    if run == [] then IDLE else Next(c, p, Exec(c, p, run[..|run| - 1]), run[|run| - 1])
  }

  function Last(run: seq<Step>, start: real): real {
    if run == [] then start else run[|run| - 1].at
  }

  ghost predicate Legal(c: Breakers.Config, p: Policy, run: seq<Step>, start: real) {
    run == [] ||
    (var before, step := run[..|run| - 1], run[|run| - 1];
     Legal(c, p, before, start) && Enabled(Exec(c, p, before), step) && Last(before, start) <= step.at)
  }

  // ---------------------------------------------------------------------------------------
  // Seen by the breaker
  // ---------------------------------------------------------------------------------------

  /** What the breaker sees of a step, if anything. */
  function Shown(step: Step): (shown: seq<BreakerRuns.Step>)
    ensures |shown| <= 1 && (shown == [] <==> step.Begin? || step.TearDown?)
    ensures shown != [] ==> shown[0].at == step.at
  {
    match step
    case Begin(_, _, _, _) => []
    case Ask(id, at, _) => [BreakerRuns.Arrive(id, at)]
    case Hear(id, reply, at, _, _) =>
      var o := CallUpstream(reply);
      [if o.Success? then BreakerRuns.Succeed(id, at)
       else if o.Retryable() then BreakerRuns.FailRetryably(id, at)
       else BreakerRuns.FailOtherwise(id, at)]
    case TearDown(_, _) => []
  }

  function Project(run: seq<Step>): seq<BreakerRuns.Step> {
    if run == [] then [] else Project(run[..|run| - 1]) + Shown(run[|run| - 1])
  }

  function InFlight(k: Kernel): set<nat> {
    set id | id in k.calls && k.calls[id].Waiting?
  }

  /** The breaker's own account of a kernel state. */
  function Seen(k: Kernel): BreakerRuns.System {
    BreakerRuns.System(k.breaker, InFlight(k), k.provider)
  }

  lemma StepIsSeen(c: Breakers.Config, p: Policy, k: Kernel, step: Step)
    requires Enabled(k, step)
    ensures var k', shown := Next(c, p, k, step), Shown(step);
            if shown == [] then Seen(k') == Seen(k)
            else BreakerRuns.Enabled(Seen(k), shown[0]) && Seen(k') == BreakerRuns.Next(c, Seen(k), shown[0])
  {
    hide Breakers.Checked, Breakers.Admits, Breakers.Succeeded, Breakers.Failed, CallUpstream, Judge, Metered;
    var k' := Next(c, p, k, step);
    match step {
      case Begin(id, _, _, _) =>
        assert InFlight(k') == InFlight(k);
      case TearDown(id, _) =>
        assert InFlight(k') == InFlight(k);
      case Ask(id, at, _) =>
        assert InFlight(k') == if Breakers.Admits(c, k.breaker, at) then InFlight(k) + {id} else InFlight(k);
      case Hear(id, reply, at, jitter, _) =>
        assert InFlight(k') == InFlight(k) - {id};
    }
  }

  lemma {:induction false} RunIsSeen(c: Breakers.Config, p: Policy, run: seq<Step>, start: real)
    requires Legal(c, p, run, start)
    ensures BreakerRuns.Legal(c, Project(run), start)
    ensures BreakerRuns.Exec(c, Project(run)) == Seen(Exec(c, p, run))
    ensures BreakerRuns.Last(Project(run), start) <= Last(run, start)
    decreases |run|
  {
    hide Next, Seen, Enabled, Shown, BreakerRuns.Next, BreakerRuns.Enabled;
    if run == [] {
      IdleIsSeen();
    } else {
      var before, step := run[..|run| - 1], run[|run| - 1];
      RunIsSeen(c, p, before, start);
      StepIsSeen(c, p, Exec(c, p, before), step);
      if Shown(step) == [] {
        assert Project(run) == Project(before);
      } else {
        assert Project(run)[..|Project(before)|] == Project(before);
      }
    }
  }

  lemma IdleIsSeen()
    ensures Seen(IDLE) == BreakerRuns.INITIAL
  {
    assert InFlight(IDLE) == {};
  }

  /** Whether an attempt reaches the provider is decided by the history rule alone, whichever completions
      the reports came from; otherwise the completion is over at once with UpstreamCircuitOpen. */
  lemma {:induction false} AttemptsObeyHistory(
      c: Breakers.Config, p: Policy, run: seq<Step>, start: real, id: nat, at: real, write: Write)
    requires Legal(c, p, run + [Ask(id, at, write)], start)
    ensures var k, k' := Exec(c, p, run), Exec(c, p, run + [Ask(id, at, write)]);
            var admitted := Breakers.HistoryAdmits(c, BreakerRuns.Seen(Project(run)), at);
            && id in k'.calls
            && (k'.calls[id].Waiting? <==> admitted)
            && k'.provider == k.provider + (if admitted then 1 else 0)
            && (!admitted ==> k'.calls[id].Over? && k'.calls[id].Answer() == Written(Failed(CIRCUIT_OPEN), write))
  {
    var all := run + [Ask(id, at, write)];
    assert all[..|run|] == run;
    RunIsSeen(c, p, all, start);
    RunIsSeen(c, p, run, start);
    assert Project(all) == Project(run) + [BreakerRuns.Arrive(id, at)];
    BreakerRuns.EveryInterleavingObeysHistory(c, Project(run), start, id, at);
    hide BreakerRuns.Exec, BreakerRuns.Legal, BreakerRuns.Seen, Project, Legal, Breakers.HistoryAdmits;
    assert InFlight(Exec(c, p, all)) == BreakerRuns.Exec(c, Project(all)).inFlight;
  }

  /** Every reply heard is a failure of the provider's infrastructure. */
  ghost predicate Outage(run: seq<Step>) {
    forall i | 0 <= i < |run| && run[i].Hear? :: Infrastructure(run[i].reply)
  }

  ghost predicate AtMostInFlight(c: Breakers.Config, p: Policy, run: seq<Step>, m: nat) {
    |InFlight(Exec(c, p, run))| <= m && (run == [] || AtMostInFlight(c, p, run[..|run| - 1], m))
  }

  lemma {:induction false} OutageIsSeen(run: seq<Step>)
    requires Outage(run)
    ensures BreakerRuns.Outage(Project(run))
    decreases |run|
  {
    hide CallUpstream, Infrastructure;
    if run != [] {
      OutageIsSeen(run[..|run| - 1]);
      if run[|run| - 1].Hear? {
        RetryableIsInfrastructure(run[|run| - 1].reply);
      }
    }
  }

  lemma ProjectOnce(run: seq<Step>)
    requires run != []
    ensures var before, all := Project(run[..|run| - 1]), Project(run);
            if run[|run| - 1].Begin? || run[|run| - 1].TearDown? then all == before
            else |all| == |before| + 1 && all[..|before|] == before
  {
    hide CallUpstream;
  }

  lemma {:induction false} CrowdIsSeen(c: Breakers.Config, p: Policy, run: seq<Step>, start: real, m: nat)
    requires Legal(c, p, run, start) && AtMostInFlight(c, p, run, m)
    ensures BreakerRuns.AtMostInFlight(c, Project(run), m)
    decreases |run|
  {
    RunIsSeen(c, p, run, start);
    hide Exec, Enabled, BreakerRuns.Exec, BreakerRuns.Legal;
    if run != [] {
      CrowdIsSeen(c, p, run[..|run| - 1], start, m);
      ProjectOnce(run);
    }
    hide Project;
  }

  /** Retries do not break the outage bound: however many completions retry at once, with at most `m`
      awaiting a provider that always fails retryably, at most
      `(threshold - 1 + m) + m * floor(length / reset_timeout)` attempts reach it within `length` seconds. */
  lemma {:induction false} OutageLoadWithRetries(
      c: Breakers.Config, p: Policy, run: seq<Step>, start: real, length: real, m: nat)
    requires c.resetTimeout > 0.0 && length >= 0.0
    requires Legal(c, p, run, start) && Outage(run) && AtMostInFlight(c, p, run, m)
    requires Last(run, start) <= start + length
    ensures Exec(c, p, run).provider <= c.Limit() - 1 + m + m * (length / c.resetTimeout).Floor
  {
    hide Exec, Legal, Project, Outage, AtMostInFlight, BreakerRuns.Exec, BreakerRuns.Legal, BreakerRuns.Outage;
    hide BreakerRuns.AtMostInFlight, BreakerRuns.AdmittedBy;
    RunIsSeen(c, p, run, start);
    OutageIsSeen(run);
    CrowdIsSeen(c, p, run, start, m);
    BreakerRuns.OutageLoadBound(c, m, Project(run), start, length);
    AllAdmitted(c, Project(run), start, start + length);
  }

  lemma {:induction false} AllAdmitted(c: Breakers.Config, run: seq<BreakerRuns.Step>, start: real, until: real)
    requires BreakerRuns.Legal(c, run, start) && BreakerRuns.Last(run, start) <= until
    ensures BreakerRuns.AdmittedBy(c, run, until) == BreakerRuns.Exec(c, run).admitted
  {
    hide BreakerRuns.Exec, BreakerRuns.AdmittedBy;
    BreakerRuns.InOrder(c, run, start);
    var k := BreakerRuns.AdmittedByPrefix(c, run, start, until);
    assert run[..k] == run;
  }

  // ---------------------------------------------------------------------------------------
  // Seen by one completion
  // ---------------------------------------------------------------------------------------

  /** The entries one completion left. */
  function EntriesOf(usage: seq<Charge>, id: nat): seq<UsageEntry> {
    if usage == [] then []
    else
      var before, last := EntriesOf(usage[..|usage| - 1], id), usage[|usage| - 1];
      if last.id == id then before + [last.entry] else before
  }

  /** Attempts stay within the limit, the store has exactly what the final outcome is worth, and no failure
      carries the status of a success. */
  ghost predicate Fair(p: Policy, call: Call, entries: seq<UsageEntry>) {
    match call
    case Trying(_, made, _) => made < p.Cap() && entries == []
    case Waiting(_, made) => made < p.Cap() && entries == []
    case Over(order, made, o, write) =>
      && 1 <= made <= p.Cap() && entries == Metered(order.caller, order.model, o, write)
      && (o.Failed? ==> o.error.statusCode in {400, 429, 502, 503, 504})
  }

  ghost predicate Inv(p: Policy, k: Kernel) {
    && (forall id | id in k.calls :: Fair(p, k.calls[id], EntriesOf(k.usage, id)))
    && (forall id: nat | id !in k.calls :: EntriesOf(k.usage, id) == [])
  }

  lemma EntriesAfter(usage: seq<Charge>, id: nat, order: Order, o: Outcome<Response>, write: Write, other: nat)
    ensures EntriesOf(usage + Charges(id, order, o, write), other)
         == EntriesOf(usage, other) + (if other == id then Metered(order.caller, order.model, o, write) else [])
  {
    var cs := Charges(id, order, o, write);
    if cs != [] {
      assert (usage + cs)[..|usage|] == usage;
    } else {
      assert usage + cs == usage;
    }
  }

  lemma NothingToWrite(id: nat, order: Order, write: Write)
    ensures Metered(order.caller, order.model, Crashed, write) == []
    ensures Charges(id, order, Crashed, write) == []
  {
  }

  lemma StepIsFair(c: Breakers.Config, p: Policy, k: Kernel, step: Step, id: nat)
    requires Inv(p, k) && Enabled(k, step)
    ensures var k' := Next(c, p, k, step);
            if id in k'.calls then Fair(p, k'.calls[id], EntriesOf(k'.usage, id)) else EntriesOf(k'.usage, id) == []
  {
    hide EntriesOf, Charges, Metered, CallUpstream, Judge, Reported, Breakers.Checked, Breakers.Admits, Written;
    assert id in k.calls ==> Fair(p, k.calls[id], EntriesOf(k.usage, id));
    match step {
      case Begin(_, _, _, _) =>
      case Ask(own, at, write) =>
        EntriesAfter(k.usage, own, k.calls[own].order, Failed(CIRCUIT_OPEN), write, id);
      case Hear(own, reply, at, jitter, write) =>
        var call := k.calls[own];
        RetryableIsInfrastructure(reply);
        EntriesAfter(k.usage, own, call.order, CallUpstream(reply), write, id);
        NothingToWrite(own, call.order, write);
        NothingToWrite(own, call.order, Kept);
        assert Fair(p, call, EntriesOf(k.usage, own));
        Judgement(p, call.made + 1, CallUpstream(reply), at - call.order.started, jitter);
      case TearDown(own, _) =>
        EntriesAfter(k.usage, own, k.calls[own].order, Crashed, Kept, id);
        NothingToWrite(own, k.calls[own].order, Kept);
        assert Fair(p, k.calls[own], EntriesOf(k.usage, own));
    }
  }

  lemma {:induction false} EveryCompletionIsFair(c: Breakers.Config, p: Policy, run: seq<Step>, start: real)
    requires Legal(c, p, run, start)
    ensures Inv(p, Exec(c, p, run))
    decreases |run|
  {
    hide Next, Enabled, Fair, EntriesOf;
    if run == [] {
      NoEntries();
    } else {
      var before, step := run[..|run| - 1], run[|run| - 1];
      EveryCompletionIsFair(c, p, before, start);
      var k' := Next(c, p, Exec(c, p, before), step);
      forall id: nat
        ensures if id in k'.calls then Fair(p, k'.calls[id], EntriesOf(k'.usage, id)) else EntriesOf(k'.usage, id) == []
      {
        StepIsFair(c, p, Exec(c, p, before), step, id);
      }
    }
  }

  lemma NoEntries()
    ensures forall id: nat :: EntriesOf([], id) == []
  {
  }

  /** Metering under concurrency: in every reachable state each completion has made at most
      `max(1, max_attempts)` attempts and has left no entry while it is going on; once it is over it has left
      exactly one - with its caller and model, and the status of what it came to, which is 200 iff that is a
      success - or none iff it crashed before it had an entry to write, or the write was not stored. */
  lemma {:induction false} OneEntryPerCompletion(c: Breakers.Config, p: Policy, run: seq<Step>, start: real, id: nat)
    requires Legal(c, p, run, start) && id in Exec(c, p, run).calls
    ensures var call, entries := Exec(c, p, run).calls[id], EntriesOf(Exec(c, p, run).usage, id);
            && call.made <= p.Cap()
            && (!call.Over? ==> entries == [])
            && (call.Over? ==> call.made >= 1 && (entries == [] <==> call.result.Crashed? || !call.write.Stored()))
            && |entries| <= 1
            && (entries != [] ==>
                  && entries[0].caller == call.order.caller && entries[0].model == call.order.model
                  && (entries[0].statusCode == 200 <==> call.result.Success?)
                  && (call.result.Failed? ==> entries[0].statusCode == call.result.error.statusCode)
                  && (call.result.Success? ==>
                        && entries[0].promptTokens == call.result.value.promptTokens
                        && entries[0].completionTokens == call.result.value.completionTokens))
  {
    EveryCompletionIsFair(c, p, run, start);
    hide Exec, Legal, EntriesOf;
    assert Fair(p, Exec(c, p, run).calls[id], EntriesOf(Exec(c, p, run).usage, id));
  }

  // ---------------------------------------------------------------------------------------
  // The whole store
  // ---------------------------------------------------------------------------------------

  function Plus(x: (int, int), y: (int, int)): (int, int) {
    (x.0 + y.0, x.1 + y.1)
  }

  /** The prompt and completion tokens in the store. */
  function TokensStored(usage: seq<Charge>): (int, int) {
    if usage == [] then (0, 0)
    else
      var last := usage[|usage| - 1].entry;
      Plus(TokensStored(usage[..|usage| - 1]), (last.promptTokens, last.completionTokens))
  }

  /** What a completion used, if it succeeded and its entry was stored. */
  function TokensOf(call: Call): (int, int) {
    if call.Over? && call.result.Success? && call.write.Stored()
    then (call.result.value.promptTokens, call.result.value.completionTokens)
    else (0, 0)
  }

  /** What the completions with an id below `n` used. */
  function TokensUsed(calls: map<nat, Call>, n: nat): (int, int) {
    if n == 0 then (0, 0)
    else Plus(TokensUsed(calls, n - 1), if n - 1 in calls then TokensOf(calls[n - 1]) else (0, 0))
  }

  lemma {:induction false} TokensMove(calls: map<nat, Call>, id: nat, call: Call, n: nat)
    requires id in calls ==> TokensOf(calls[id]) == (0, 0)
    ensures TokensUsed(calls[id := call], n) == Plus(TokensUsed(calls, n), if id < n then TokensOf(call) else (0, 0))
    decreases n
  {
    hide TokensOf;
    if n > 0 {
      TokensMove(calls, id, call, n - 1);
    }
  }

  lemma TokensEnd(usage: seq<Charge>, id: nat, order: Order, made: nat, o: Outcome<Response>, write: Write)
    ensures TokensStored(usage + Charges(id, order, o, write))
         == Plus(TokensStored(usage), TokensOf(Ended(order, made, o, write)))
  {
    var cs := Charges(id, order, o, write);
    if cs == [] {
      assert usage + cs == usage;
    } else {
      assert (usage + cs)[..|usage|] == usage;
    }
  }

  lemma EndMovesTokens(k: Kernel, id: nat, order: Order, made: nat, o: Outcome<Response>, write: Write, n: nat)
    requires id in k.calls && !k.calls[id].Over? && id < n && TokensStored(k.usage) == TokensUsed(k.calls, n)
    ensures var k' := End(k, id, order, made, o, write);
            TokensStored(k'.usage) == TokensUsed(k'.calls, n)
  {
    hide TokensStored, TokensUsed, Charges, Ended;
    TokensEnd(k.usage, id, order, made, o, write);
    TokensMove(k.calls, id, Ended(order, made, o, write), n);
  }

  lemma TokensStep(c: Breakers.Config, p: Policy, k: Kernel, step: Step, n: nat)
    requires Enabled(k, step) && step.id < n && TokensStored(k.usage) == TokensUsed(k.calls, n)
    ensures TokensStored(Next(c, p, k, step).usage) == TokensUsed(Next(c, p, k, step).calls, n)
  {
    hide TokensStored, TokensUsed, End, CallUpstream, Judge, Reported, Breakers.Checked, Breakers.Admits;
    match step {
      case Begin(id, caller, model, at) =>
        TokensMove(k.calls, id, Trying(Order(caller, model, at), 0, at), n);
      case Ask(id, at, write) =>
        var order, made := k.calls[id].order, k.calls[id].made;
        TokensMove(k.calls, id, Waiting(order, made), n);
        var k1 := k.(breaker := Breakers.Checked(c, k.breaker, at));
        EndMovesTokens(k1, id, order, made + 1, Failed(CIRCUIT_OPEN), write, n);
      case Hear(id, reply, at, jitter, write) =>
        var order, made, o := k.calls[id].order, k.calls[id].made, CallUpstream(reply);
        var v := Judge(p, made + 1, o, at - order.started, jitter);
        if v.Wait? {
          TokensMove(k.calls, id, Trying(order, made + 1, at + v.delay), n);
        } else {
          EndMovesTokens(k.(breaker := Reported(c, k.breaker, o, at)), id, order, made + 1, o, write, n);
        }
      case TearDown(id, _) =>
        EndMovesTokens(k, id, k.calls[id].order, k.calls[id].made, Crashed, Kept, n);
    }
  }

  /** The books balance under concurrency: in every reachable state the tokens in the store are those of the
      completions that are over, succeeded, and had their entry stored - `n` being above every id in use. */
  lemma {:induction false} TokensAreConserved(c: Breakers.Config, p: Policy, run: seq<Step>, start: real, n: nat)
    requires Legal(c, p, run, start) && forall i | 0 <= i < |run| :: run[i].id < n
    ensures TokensStored(Exec(c, p, run).usage) == TokensUsed(Exec(c, p, run).calls, n)
    decreases |run|
  {
    hide Next, Enabled, TokensStored, TokensUsed;
    if run == [] {
      NoTokens(n);
    } else {
      TokensAreConserved(c, p, run[..|run| - 1], start, n);
      TokensStep(c, p, Exec(c, p, run[..|run| - 1]), run[|run| - 1], n);
    }
  }

  lemma {:induction false} NoTokens(n: nat)
    ensures TokensStored([]) == TokensUsed(map[], n)
    decreases n
  {
    if n > 0 {
      NoTokens(n - 1);
    }
  }

  // ---------------------------------------------------------------------------------------
  // The retry loop is a run of this machine
  // ---------------------------------------------------------------------------------------

  /** A sleep that runs to its end lasts at least what was asked. */
  ghost predicate SleepsLast(weather: Weather) {
    forall n, d :: weather.nap(n, d).whole ==> weather.nap(n, d).length >= d
  }

  /** The steps of one call. */
  function Of(id: nat): Step -> bool {
    (step: Step) => step.id == id
  }

  lemma OneStep(c: Breakers.Config, p: Policy, run: seq<Step>, start: real, step: Step)
    requires Legal(c, p, run, start) && Enabled(Exec(c, p, run), step) && Last(run, start) <= step.at
    ensures Legal(c, p, run + [step], start) && Exec(c, p, run + [step]) == Next(c, p, Exec(c, p, run), step)
    ensures Last(run + [step], start) == step.at && Continues(run, run + [step], Of(step.id))
  {
    hide Next, Enabled;
    assert (run + [step])[..|run|] == run;
  }

  /** Call `id` of the kernel stands where the loop stands in `s`, about to make its next attempt; others made
      `base` provider calls. */
  ghost predicate Stands(k: Kernel, base: nat, id: nat, order: Order, done: nat, s: Scene) {
    && s.breaker == k.breaker && base + s.calls == k.provider
    && id in k.calls && k.calls[id].Trying? && k.calls[id].order == order && k.calls[id].made == done
    && k.calls[id].from <= s.now
  }

  /** The kernel after call `id` made an attempt that ended in `s1` with `o`. */
  function Attempted(
      k: Kernel, base: nat, id: nat, order: Order, done: nat, s1: Scene, o: Outcome<Response>, v: Verdict, write: Write)
    : Kernel
  {
    var k1 := k.(breaker := s1.breaker, provider := base + s1.calls);
    match v
    case Stop(_) => End(k1, id, order, done + 1, o, write)
    case Wait(delay) => k1.(calls := k.calls[id := Trying(order, done + 1, s1.now + delay)])
  }

  /** An attempt of the loop is one step of the machine if the circuit is paused, and two if it is not. */
  lemma OneAttempt(
      c: Breakers.Config, p: Policy, run: seq<Step>, start: real, base: nat, id: nat, order: Order, done: nat,
      weather: Weather, s: Scene, write: Write) returns (all: seq<Step>)
    requires Legal(c, p, run, start) && Last(run, start) <= s.now && Forward(weather.latency, weather.nap)
    requires Stands(Exec(c, p, run), base, id, order, done, s)
    ensures Legal(c, p, all, start) && Continues(run, all, Of(id))
    ensures var (s1, o) := Guarded(c, weather, s);
            var v := Judge(p, done + 1, o, s1.now - order.started, weather.jitter(s1.calls));
            && Last(all, start) == s1.now
            && Exec(c, p, all) == Attempted(Exec(c, p, run), base, id, order, done, s1, o, v, write)
  {
    hide Exec, Legal, Last, Continues, Breakers.Checked, Breakers.Admits, CallUpstream, Reported, Charges;
    hide DelayFor, Infrastructure;
    var k := Exec(c, p, run);
    var ask := Ask(id, s.now, write);
    OneStep(c, p, run, start, ask);
    all := run + [ask];
    if Breakers.Admits(c, k.breaker, s.now) {
      hide Judge;
      assert weather.latency(s.calls) >= 0.0;
      var later, jitter := s.now + weather.latency(s.calls), weather.jitter(s.calls + 1);
      var hear := Hear(id, weather.reply(s.calls), later, jitter, write);
      OneStep(c, p, all, start, hear);
      Continued(run, all, all + [hear], Of(id));
      all := all + [hear];
      Overwrite(k.calls, id, Waiting(order, done), Exec(c, p, all).calls[id]);
    }
  }

  lemma {:induction false} AttemptsAreSteps(
      c: Breakers.Config, p: Policy, run: seq<Step>, start: real, base: nat, id: nat, order: Order, done: nat,
      weather: Weather, s: Scene, write: Write) returns (all: seq<Step>)
    requires Legal(c, p, run, start) && Last(run, start) <= s.now
    requires Forward(weather.latency, weather.nap) && SleepsLast(weather)
    requires Stands(Exec(c, p, run), base, id, order, done, s)
    ensures Legal(c, p, all, start) && Continues(run, all, Of(id))
    ensures var r := Attempts(p, Provider(c, weather), order.started, done, s);
            var n := |r.outcomes|;
            && Last(all, start) == r.final.now
            && Exec(c, p, all) == End(Exec(c, p, run).(breaker := r.final.breaker, provider := base + r.final.calls),
                                      id, order, done + n, r.Result(), write)
    decreases p.maxAttempts - done
  {
    hide Exec, Legal, Last, Continues, Guarded, Judge, Attempts, Provider, Charges;
    var w := Provider(c, weather);
    ProviderIs(c, weather, s);
    Turn(p, w, order.started, done, s);
    all := OneAttempt(c, p, run, start, base, id, order, done, weather, s, write);
    var (s1, o) := Guarded(c, weather, s);
    ProviderIs(c, weather, s1);
    var v := Judge(p, done + 1, o, s1.now - order.started, weather.jitter(s1.calls));
    if v.Wait? {
      var nap := weather.nap(s1.calls, v.delay);
      var (s2, whole) := w.sleep(s1, v.delay);
      assert (nap.whole ==> nap.length >= v.delay) && weather.nap(s1.calls, v.delay).length >= 0.0;
      var more := all;
      if !whole {
        var end := TearDown(id, s2.now);
        OneStep(c, p, more, start, end);
        all := more + [end];
        Continued(run, more, all, Of(id));
        NothingToWrite(id, order, write);
        NothingToWrite(id, order, Kept);
        Overwrite(Exec(c, p, run).calls, id, Exec(c, p, more).calls[id], Exec(c, p, all).calls[id]);
        return;
      }
      all := AttemptsAreSteps(c, p, more, start, base, id, order, done + 1, weather, s2, write);
      Continued(run, more, all, Of(id));
      var k := Exec(c, p, run);
      Overwrite(k.calls, id, Exec(c, p, more).calls[id], Exec(c, p, all).calls[id]);
    }
  }

  /** The loop specification that `CompletionService` is proved against is a run of this machine: whatever went on
      before, a completion that begins now and whose steps come one after another leaves the breaker as the
      loop does, makes the loop's provider calls, is over with its outcome and leaves that outcome's entry. */
  lemma RetryIsARun(
      c: Breakers.Config, p: Policy, run: seq<Step>, start: real, id: nat, caller: string, model: string, at: real,
      weather: Weather, write: Write) returns (all: seq<Step>)
    requires Legal(c, p, run, start) && Last(run, start) <= at
    requires Forward(weather.latency, weather.nap) && SleepsLast(weather)
    requires id !in Exec(c, p, run).calls
    ensures Legal(c, p, all, start) && Continues(run, all, Of(id))
    ensures var k, k' := Exec(c, p, run), Exec(c, p, all);
            var r := Retry(p, Provider(c, weather), Scene(k.breaker, at, 0));
            var o, order := r.Result(), Order(caller, model, at);
            && Last(all, start) == r.final.now
            && k'.breaker == r.final.breaker && k'.provider == k.provider + r.final.calls
            && k'.calls == k.calls[id := Ended(order, |r.outcomes|, o, write)]
            && k'.usage == k.usage + Charges(id, order, o, write)
  {
    hide Exec, Legal, Last, Continues, Attempts, Provider, Charges;
    var k, begin := Exec(c, p, run), Begin(id, caller, model, at);
    OneStep(c, p, run, start, begin);
    var s, order := Scene(k.breaker, at, 0), Order(caller, model, at);
    ProviderIs(c, weather, s);
    all := AttemptsAreSteps(c, p, run + [begin], start, k.provider, id, order, 0, weather, s, write);
    Continued(run, run + [begin], all, Of(id));
    Overwrite(k.calls, id, Trying(order, 0, at), Exec(c, p, all).calls[id]);
  }
}
