/** One job at a time: what `JobService.Run` leaves, that it is a run of `JobMachine`, and which jobs are left
    running for good. */
module JobRuns {
  import opened Errors
  import opened Reals
  import opened JobModel
  import opened Jobs
  import opened Completing
  import opened CompletionRuns
  import opened JobMachine
  import opened Runs
  import Breakers
  import Retrying
  import Signing
  import Webhooks

  // ---------------------------------------------------------------------------------------
  // An undisturbed run
  // ---------------------------------------------------------------------------------------

  /** What `JobService.Run` leaves of a job nobody has run before: the row shows exactly the payload that was
      delivered, with the number of POSTs made - unless the completion crashed, which leaves it running, or
      the delivery crashed or was torn down, which is not recorded - and no other row changed. */
  lemma {:induction false} UndisturbedRun(
      rows: Rows, id: string, request: JobRequest, completion: Outcome<Response>, delivery: Outcome<nat>, n: nat,
      at: real)
    requires id in rows && rows[id].id == id && rows[id].status == Pending
    requires WellFormed(rows[id]) && Undelivered(rows[id])
    ensures var after := AfterRun(rows, id, completion, delivery, n, at);
            && after.Keys == rows.Keys
            && (forall other | other in rows && other != id :: after[other] == rows[other])
            && Follows(rows[id], after[id]) && WellFormed(after[id])
            && (completion.Crashed? ==> after[id].status == Running && Undelivered(after[id]))
            && (!completion.Crashed? ==>
                  && after[id].status.IsFinal()
                  && Agrees(PayloadFor(id, request, completion), after[id])
                  && after[id].deliveredAt == (if delivery.Success? then Some(at) else None)
                  && after[id].deliveryAttempts == if delivery.Crashed? then 0 else n)
  {
    hide AssignAll, CompletionFields, DeliveryFields;
    var started := AssignAll(rows[id], STARTED);
    AssignDelivery(rows[id], Plain(delivery), n, at);
    AssignCompletion(started, completion);
    AssignDelivery(AssignAll(started, CompletionFields(completion)), Plain(delivery), n, at);
  }

  /** The steps of one job. */
  function Of(id: string): Step -> bool {
    (step: Step) => step.id == id && !step.Poll?
  }

  lemma OneStep(p: Retrying.Policy, run: seq<Step>, step: Step)
    requires Legal(p, run) && Enabled(Exec(p, run), step)
    ensures Legal(p, run + [step]) && Exec(p, run + [step]) == Next(p, Exec(p, run), step)
    ensures !step.Poll? ==> Continues(run, run + [step], Of(step.id))
  {
    hide Next, Enabled;
    assert (run + [step])[..|run|] == run;
  }

  /** What is sent by `n` POSTs after the first `made`, told at `wall`. */
  function Sends(id: string, payload: Payload, receiver: Webhooks.Receiver, made: nat, n: nat, wall: real)
    : (sent: seq<Sent>)
    ensures |sent| == n
  {
    seq(n, (i: nat) => Sent(id, payload, receiver.reply(made + i), wall))
  }

  lemma SendsSplit(id: string, payload: Payload, receiver: Webhooks.Receiver, made: nat, n: nat, wall: real)
    ensures Sends(id, payload, receiver, made, n + 1, wall)
         == [Sent(id, payload, receiver.reply(made), wall)] + Sends(id, payload, receiver, made + 1, n, wall)
  {
  }

  lemma CourierIs(url: string, body: Signing.Bytes, w: Webhooks.WebhookService, receiver: Webhooks.Receiver,
                  s: Webhooks.Desk)
    ensures var world := Webhooks.Courier(w.mac, w.secret, url, body, receiver);
            var (s1, o) := world.attempt(s);
            && s1.now == s.now + receiver.latency(|s.posts|) && |s1.posts| == |s.posts| + 1
            && o == Webhooks.Judged(receiver.reply(|s.posts|))
            && world.clock(s) == s.now && world.jitter(s) == receiver.jitter(|s.posts|)
            && forall d :: |world.sleep(s, d).0.posts| == |s.posts|
  {
    hide Signing.Sign, Webhooks.Judged;
  }

  /** Where a delivery leaves the run of its job. */
  function Over(r: Retrying.Loop<Webhooks.Desk, ()>): Task {
    if r.why.TornDown? then Abandoned else Done
  }

  lemma NothingRecorded(rows: Rows, id: string, n: nat, at: real)
    ensures Updated(rows, id, DeliveryFields(Outcome.Crashed, n, at)) == rows
  {
    NoUpdate(rows, id);
  }

  /** The POSTs of a delivery still to be made from desk `s` are steps of this machine. */
  lemma {:induction false} PostsAreSteps(
      w: Webhooks.WebhookService, url: string, body: Signing.Bytes, receiver: Webhooks.Receiver, run: seq<Step>,
      id: string, payload: Payload, started: real, s: Webhooks.Desk, deliveredAt: real) returns (all: seq<Step>)
    requires Legal(w.policy, run) && id in Exec(w.policy, run).tasks
    requires Exec(w.policy, run).tasks[id] == Delivering(payload, |s.posts|, started)
    ensures Legal(w.policy, all) && Continues(run, all, Of(id))
    ensures var k := Exec(w.policy, run);
            var made := |s.posts|;
            var courier := Webhooks.Courier(w.mac, w.secret, url, body, receiver);
            var r := Retrying.Attempts(w.policy, courier, started, made, s);
            var n := |r.outcomes|;
            Exec(w.policy, all) == System(
              Updated(k.rows, id, DeliveryFields(r.Result(), made + n, deliveredAt)), k.tasks[id := Over(r)],
              k.sent + Sends(id, payload, receiver, made, n, deliveredAt))
    decreases w.policy.maxAttempts - |s.posts|
  {
    hide Exec, Legal, Continues, Updated, DeliveryFields, Webhooks.Judged, Webhooks.Courier, Sends;
    hide Retrying.Attempts, Retrying.Judge;
    var p, made := w.policy, |s.posts|;
    var world := Webhooks.Courier(w.mac, w.secret, url, body, receiver);
    var (s1, o) := world.attempt(s);
    CourierIs(url, body, w, receiver, s);
    CourierIs(url, body, w, receiver, s1);
    Retrying.Turn(p, world, started, made, s);
    SendsSplit(id, payload, receiver, made, 0, deliveredAt);
    assert Sends(id, payload, receiver, made + 1, 0, deliveredAt) == [];
    var step := PostOne(id, receiver.reply(made), s1.now, receiver.jitter(made + 1), deliveredAt);
    OneStep(p, run, step);
    all := run + [step];
    var v := Retrying.Judge(p, made + 1, o, s1.now - started, receiver.jitter(made + 1));
    if v.Wait? {
      var (s2, whole) := world.sleep(s1, v.delay);
      var more, k := all, Exec(p, run);
      if !whole {
        all := more + [TearDown(id)];
        OneStep(p, more, TearDown(id));
        Continued(run, more, all, Of(id));
        Overwrite(k.tasks, id, Delivering(payload, made + 1, started), Abandoned);
        NothingRecorded(k.rows, id, made + 1, deliveredAt);
        return;
      }
      var rest := Retrying.Attempts(p, world, started, made + 1, s2);
      all := PostsAreSteps(w, url, body, receiver, more, id, payload, started, s2, deliveredAt);
      Continued(run, more, all, Of(id));
      SendsSplit(id, payload, receiver, made, |rest.outcomes|, deliveredAt);
      Overwrite(k.tasks, id, Delivering(payload, made + 1, started), Over(rest));
    }
  }

  lemma DeliveryFieldsOf(last: Outcome<()>, n: nat, at: real)
    ensures DeliveryFields(Plain(Webhooks.Reported(last, n)), n, at) == DeliveryFields(last, n, at)
  {
  }

  lemma StartAndFinish(
      p: Retrying.Policy, run: seq<Step>, id: string, request: JobRequest, completion: Outcome<Response>, at: real)
    returns (all: seq<Step>)
    requires Legal(p, run) && id in Exec(p, run).tasks && Exec(p, run).tasks[id] == Queued(request)
    ensures Legal(p, all) && Continues(run, all, Of(id))
    ensures all == run + [Start(id)] + [Finish(id, completion, at)]
    ensures var s := Exec(p, run);
            var started := Updated(s.rows, id, STARTED);
            Exec(p, all) ==
              if completion.Crashed? then System(started, s.tasks[id := Escaped], s.sent)
              else System(Updated(started, id, CompletionFields(completion)),
                          s.tasks[id := Delivering(PayloadFor(id, request, completion), 0, at)], s.sent)
  {
    hide Exec, Legal, Continues, Updated, CompletionFields, STARTED, PayloadFor, Webhooks.Judged, DeliveryFields;
    hide NewRow, Retrying.Judge;
    var s, begin, finish := Exec(p, run), Start(id), Finish(id, completion, at);
    OneStep(p, run, begin);
    OneStep(p, run + [begin], finish);
    all := run + [begin] + [finish];
    Continued(run, run + [begin], all, Of(id));
    Overwrite(s.tasks, id, Working(request), Exec(p, all).tasks[id]);
  }

  /** A delivery from its first POST on. */
  lemma DeliveryIsSteps(
      w: Webhooks.WebhookService, url: string, receiver: Webhooks.Receiver, run: seq<Step>, id: string,
      payload: Payload, start: real, deliveredAt: real) returns (all: seq<Step>)
    requires Legal(w.policy, run) && id in Exec(w.policy, run).tasks
    requires Exec(w.policy, run).tasks[id] == Delivering(payload, 0, start)
    ensures Legal(w.policy, all) && Continues(run, all, Of(id))
    ensures var k, d := Exec(w.policy, run), w.DeliveryLoop(url, payload, receiver, start);
            var n := |d.outcomes|;
            && n == |d.final.posts| && n >= 1
            && Exec(w.policy, all) == System(
                 Updated(k.rows, id, DeliveryFields(Plain(Webhooks.Reported(d.Result(), n)), n, deliveredAt)),
                 k.tasks[id := Over(d)], k.sent + Sends(id, payload, receiver, 0, n, deliveredAt))
  {
    hide Exec, Legal, Continues, Updated, DeliveryFields, Webhooks.Courier, Sends, Plain, Webhooks.Reported;
    hide Retrying.Attempts, Webhooks.Genuine;
    var desk := Webhooks.Desk(start, []);
    all := PostsAreSteps(w, url, w.dump(payload), receiver, run, id, payload, start, desk, deliveredAt);
    Webhooks.ClockOf(w.mac, w.secret, url, w.dump(payload), receiver, desk);
    Webhooks.PostsAreAttempts(w.mac, w.secret, url, w.dump(payload), receiver, w.policy, start);
    var d := w.DeliveryLoop(url, payload, receiver, start);
    DeliveryFieldsOf(d.Result(), |d.outcomes|, deliveredAt);
  }

  /** The specification that `JobService.Run` is proved against is a run of this machine: whatever went on before,
      a queued job whose steps come one after another leaves the rows that specification gives, and sends
      the POSTs of its delivery. */
  lemma UndisturbedRunIsARun(
      w: Webhooks.WebhookService, run: seq<Step>, id: string, request: JobRequest, completion: Outcome<Response>,
      receiver: Webhooks.Receiver, start: real, deliveredAt: real) returns (all: seq<Step>)
    requires Legal(w.policy, run) && id in Exec(w.policy, run).tasks
    requires Exec(w.policy, run).tasks[id] == Queued(request)
    ensures Legal(w.policy, all) && Continues(run, all, Of(id))
    ensures var s, s' := Exec(w.policy, run), Exec(w.policy, all);
            if completion.Crashed? then
              && s'.rows == AfterRun(s.rows, id, completion, Outcome.Crashed, 0, deliveredAt)
              && s'.tasks == s.tasks[id := Escaped] && s'.sent == s.sent
            else
              var payload := PayloadFor(id, request, completion);
              var d := w.DeliveryLoop(request.callbackUrl, payload, receiver, start);
              var n := |d.outcomes|;
              && n == |d.final.posts|
              && s'.rows == AfterRun(s.rows, id, completion, Webhooks.Reported(d.Result(), n), n, deliveredAt)
              && s'.tasks == s.tasks[id := Over(d)]
              && s'.sent == s.sent + Sends(id, payload, receiver, 0, n, deliveredAt)
  {
    hide Exec, Legal, Continues, Updated, CompletionFields, DeliveryFields, STARTED, Sends, PayloadFor, Plain;
    hide Next, Enabled, Webhooks.Reported, Webhooks.WebhookService.DeliveryLoop;
    var p, s := w.policy, Exec(w.policy, run);
    all := StartAndFinish(p, run, id, request, completion, start);
    if !completion.Crashed? {
      var payload, more := PayloadFor(id, request, completion), all;
      all := DeliveryIsSteps(w, request.callbackUrl, receiver, more, id, payload, start, deliveredAt);
      Continued(run, more, all, Of(id));
      Overwrite(s.tasks, id, Delivering(payload, 0, start), Exec(p, all).tasks[id]);
    }
  }

  // ---------------------------------------------------------------------------------------
  // Stranded jobs
  // ---------------------------------------------------------------------------------------

  lemma StatusMatches(q: Retrying.Policy, run: seq<Step>, id: string)
    requires Legal(q, run) && id in Exec(q, run).tasks && Exec(q, run).tasks[id].Escaped?
    ensures id in Exec(q, run).rows && Exec(q, run).rows[id].status == Running
  {
    Always(q, run);
    hide Exec, Legal;
    assert id in Exec(q, run).rows;
    StatusMatchesTask(q, Exec(q, run), id);
  }

  /** Nothing ever moves a job whose completion ended outside the taxonomy: its row says running in every legal
      continuation. */
  lemma {:induction false} EscapedForever(p: Retrying.Policy, run: seq<Step>, k: nat, id: string)
    requires Legal(p, run) && k <= |run| && id in Exec(p, run[..k]).tasks && Exec(p, run[..k]).tasks[id].Escaped?
    ensures id in Exec(p, run).tasks && Exec(p, run).tasks[id].Escaped?
    ensures id in Exec(p, run).rows && Exec(p, run).rows[id].status == Running
    decreases |run|
  {
    if k == |run| {
      assert run[..k] == run;
    } else {
      var before, step := run[..|run| - 1], run[|run| - 1];
      assert before[..k] == run[..k];
      EscapedForever(p, before, k, id);
      if step.Poll? || step.id != id {
        hide Inv;
        OthersUntouched(p, Exec(p, before), step, id);
      }
    }
    StatusMatches(p, run, id);
  }

  /** When a job is stranded: its background run, whatever went on before it in the store and on the breaker,
      leaves its row running iff its completion met an unexpected reply, had one of its sleeps cut short, or was
      torn down while it wrote its usage entry. Otherwise it leaves the row final. */
  lemma StrandedIff(
      w: Webhooks.WebhookService, run: seq<Step>, id: string, request: JobRequest, c: Breakers.Config,
      p: Retrying.Policy, weather: Weather, scene: Scene, write: Write, receiver: Webhooks.Receiver, deliveredAt: real)
    returns (all: seq<Step>)
    requires Legal(w.policy, run) && id in Exec(w.policy, run).tasks
    requires Exec(w.policy, run).tasks[id] == Queued(request)
    ensures Legal(w.policy, all) && Continues(run, all, Of(id)) && id in Exec(w.policy, all).rows
    ensures var stranded := Struck(weather, scene.calls, Retrying.Retry(p, Provider(c, weather), scene)) || write.Cut?;
            var status := Exec(w.policy, all).rows[id].status;
            (status.IsFinal() <==> !stranded) && (status == Running <==> stranded)
  {
    hide Exec, Legal, Continues, Retrying.Attempts, AfterRun, Provider, PayloadFor, Webhooks.Reported, Sends, Struck;
    CrashedIffStruck(c, p, weather, scene);
    var r := Retrying.Retry(p, Provider(c, weather), scene);
    var completion := Written(r.Result(), write);
    all := UndisturbedRunIsARun(w, run, id, request, completion, receiver, r.final.now, deliveredAt);
    Always(w.policy, all);
    RowsAreCoherent(w.policy, all, id);
  }

  /** A job whose completion fails tells its caller why: its row carries the code and the message of what stopped the
      completion - a paused circuit, or the kind of the last reply it heard. */
  lemma FailedJobSaysWhy(
      w: Webhooks.WebhookService, run: seq<Step>, id: string, request: JobRequest, c: Breakers.Config,
      p: Retrying.Policy, weather: Weather, scene: Scene, write: Write, receiver: Webhooks.Receiver, deliveredAt: real)
    returns (all: seq<Step>)
    requires Legal(w.policy, run) && id in Exec(w.policy, run).tasks && id in Exec(w.policy, run).rows
    requires Exec(w.policy, run).tasks[id] == Queued(request)
    requires Retrying.Retry(p, Provider(c, weather), scene).Result().Failed? && !write.Cut?
    ensures Legal(w.policy, all) && Continues(run, all, Of(id)) && id in Exec(w.policy, all).rows
    ensures var r, row := Retrying.Retry(p, Provider(c, weather), scene), Exec(w.policy, all).rows[id];
            var e := r.Result().error;
            && row.status == Status.Failed && row.errorCode == Some(e.code) && row.errorMessage == Some(e.message)
            && (e.code != "upstream_circuit_open" ==>
                  && r.final.calls > 0
                  && Names(weather.reply(r.final.calls - 1), e) && Speaks(weather.reply(r.final.calls - 1), e))
  {
    hide Exec, Legal, Continues, Retrying.Attempts, Provider, PayloadFor, Webhooks.Reported, Sends, Names, Speaks;
    hide CompletionFields, DeliveryFields, AssignAll, Webhooks.WebhookService.DeliveryLoop, Plain;
    FailureSaysWhy(c, p, weather, scene);
    var r := Retrying.Retry(p, Provider(c, weather), scene);
    all := UndisturbedRunIsARun(w, run, id, request, r.Result(), receiver, r.final.now, deliveredAt);
    var d := w.DeliveryLoop(request.callbackUrl, PayloadFor(id, request, r.Result()), receiver, r.final.now);
    var row := AssignAll(Exec(w.policy, run).rows[id], STARTED);
    AssignCompletion(row, r.Result());
    AssignDelivery(AssignAll(row, CompletionFields(r.Result())), Plain(Webhooks.Reported(d.Result(), |d.outcomes|)),
                   |d.outcomes|, deliveredAt);
  }

  /** A request whose completion meets an unexpected reply, is torn down in its first sleep, or is torn down while it
      writes its entry. */
  ghost predicate Stranding(p: Retrying.Policy, response: Response, committed: bool, call: Request) {
    || call == OneCall(Unexpected, true, Kept)
    || (call == OneCall(TimedOut, false, Kept)
        && p.maxAttempts >= 2 && p.budget >= 1.0 + Min(p.initialBackoff, p.maxBackoff))
    || call == OneCall(Completed(response), true, Cut(committed))
  }

  lemma StrandingCrashes(
      c: Breakers.Config, p: Retrying.Policy, at: real, response: Response, committed: bool, call: Request)
    requires Stranding(p, response, committed, call)
    ensures Written(Served(c, p, Breakers.FRESH, at, call).Result(), call.write) == Outcome.Crashed
  {
    hide Served;
    if call.write.Cut? {
      ServedOnce(c, p, at, Completed(response), true, Cut(committed));
    } else if call == OneCall(Unexpected, true, Kept) {
      ServedOnce(c, p, at, Unexpected, true, Kept);
    } else {
      ServedOnce(c, p, at, TimedOut, false, Kept);
    }
  }

  /** All three happen, to one job on a fresh store and a fresh breaker. */
  lemma AJobIsStranded(
      q: Retrying.Policy, c: Breakers.Config, p: Retrying.Policy, id: string, owner: string, request: JobRequest,
      model: string, at: real, response: Response, committed: bool, call: Request) returns (run: seq<Step>)
    requires Stranding(p, response, committed, call)
    ensures var completion := Written(Served(c, p, Breakers.FRESH, at, call).Result(), call.write);
            run == [Accept(id, owner, request, model, at), Start(id), Finish(id, completion, at)]
    ensures Legal(q, run) && id in Exec(q, run).rows && Exec(q, run).rows[id].status == Running
    ensures id in Exec(q, run).tasks && Exec(q, run).tasks[id].Escaped?
  {
    hide Exec, Legal, Served, Stranding, NewRow, Inv;
    StrandingCrashes(c, p, at, response, committed, call);
    var accept := Accept(id, owner, request, model, at);
    Nothing(q);
    OneStep(q, [], accept);
    assert [] + [accept] == [accept];
    run := StartAndFinish(q, [accept], id, request, Outcome.Crashed, at);
    hide Next, Enabled;
    StatusMatches(q, run, id);
  }

  lemma Nothing(p: Retrying.Policy)
    ensures Legal(p, []) && Exec(p, []) == EMPTY
  {
  }
}
