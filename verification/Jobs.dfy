/** The job store and the job service: src/repositories/jobs.py and src/services/jobs.py. Jobs are
    objects updated in place; `Rows` is what the store holds. */
module Jobs {
  import opened Errors
  import opened Completing
  import opened JobModel
  import Breakers
  import Retrying
  import Webhooks
  import Signing

  class Job {
    const id: string
    const owner: string
    const prompt: string
    const callbackUrl: string
    var status: Status
    var model: string
    var content: Option<string>
    var errorCode: Option<string>
    var errorMessage: Option<string>
    var promptTokens: int
    var completionTokens: int
    var deliveryAttempts: int
    var deliveredAt: Option<real>
    var createdAt: real

    function ToRow(): Row
      reads this
    {
      Row(id, owner, status, model, prompt, callbackUrl, content, errorCode, errorMessage,
          promptTokens, completionTokens, deliveryAttempts, deliveredAt, createdAt)
    }

    constructor (id: string, owner: string, request: JobRequest, model: string, now: real)
      ensures ToRow() == NewRow(id, owner, request, model, now)
    {
      this.id, this.owner, prompt, callbackUrl := id, owner, request.prompt, request.callbackUrl;
      status := Pending;
      this.model := model;
      content, errorCode, errorMessage, deliveredAt := None, None, None, None;
      promptTokens, completionTokens, deliveryAttempts := 0, 0, 0;
      createdAt := now;
    }

    method SetAttribute(f: Field)
      modifies this
      ensures ToRow() == Assign(old(ToRow()), f)
    {
      match f {
        case SetStatus(s) => status := s;
        case SetModel(m) => model := m;
        case SetContent(c) => content := Some(c);
        case SetErrorCode(c) => errorCode := Some(c);
        case SetErrorMessage(m) => errorMessage := Some(m);
        case SetPromptTokens(n) => promptTokens := n;
        case SetCompletionTokens(n) => completionTokens := n;
        case SetDeliveryAttempts(n) => deliveryAttempts := n;
        case SetDeliveredAt(t) => deliveredAt := Some(t);
      }
    }
  }

  type Rows = map<string, Row>

  /** A job whose id is not stored is not updated. */
  function Updated(rows: Rows, id: string, fields: seq<Field>): Rows {
    if id in rows then rows[id := AssignAll(rows[id], fields)] else rows
  }

  class InMemoryJobRepository {
    var jobs: map<string, Job>

    ghost predicate Valid()
      reads this, jobs.Values
    {
      && (forall id | id in jobs :: jobs[id].id == id)
    }

    ghost function View(): Rows
      reads this, jobs.Values
    {
      map id | id in jobs :: jobs[id].ToRow()
    }

    constructor ()
      ensures Valid() && View() == map[] && jobs == map[]
    {
      jobs := map[];
    }

    method Create(job: Job)
      requires Valid()
      modifies this
      ensures Valid()
      ensures jobs == old(jobs)[job.id := job] && View() == old(View())[job.id := job.ToRow()]
    {
      jobs := jobs[job.id := job];
    }

    /** Sets the given fields of the stored job in place, and touches no other job. */
    method Update(id: string, fields: seq<Field>)
      requires Valid()
      modifies if id in jobs then {jobs[id]} else {}
      ensures Valid()
      ensures View() == Updated(old(View()), id, fields)
    {
      if id !in jobs {
        return;
      }
      var job := jobs[id];
      for i := 0 to |fields|
        invariant job.ToRow() == AssignAll(old(job.ToRow()), fields[..i])
      {
        assert fields[..i + 1][..i] == fields[..i];
        job.SetAttribute(fields[i]);
      }
      assert fields[..|fields|] == fields;
      forall other | other in jobs && other != id
        ensures jobs[other] != job
      {
        assert jobs[other].id != job.id;
      }
    }

    /** Knowing the id does not help: a job is shown only to its owner. */
    method Get(id: string, caller: string) returns (view: Option<JobModel.View>)
      requires Valid()
      ensures view == Visible(View(), id, caller)
    {
      if id !in jobs || jobs[id].owner != caller {
        return None;
      }
      return Some(ToView(jobs[id].ToRow()));
    }
  }

  /** What a poller sees of the store. */
  function Visible(rows: Rows, id: string, caller: string): Option<JobModel.View> {
    if id in rows && rows[id].owner == caller then Some(ToView(rows[id])) else None
  }

  const JOB_NOT_FOUND := AppError("job_not_found", "No such job.", 404, false, None, map[])

  /** The store after an undisturbed run of one job that made `posts` POSTs. A completion that ends in an
      exception outside the taxonomy - or in the teardown of its caller - leaves the row running. */
  function AfterRun(
      rows: Rows, id: string, completion: Outcome<Response>, delivery: Outcome<nat>, posts: nat, at: real): Rows
  {
    var started := Updated(rows, id, STARTED);
    if completion.Crashed? then started
    else Updated(Updated(started, id, CompletionFields(completion)), id, DeliveryFields(Plain(delivery), posts, at))
  }

  function Plain(o: Outcome<nat>): Outcome<()> {
    match o
    case Success(_) => Outcome.Success(())
    case Failed(e) => Outcome.Failed(e)
    case Crashed => Outcome.Crashed
  }

  /** `error.details.get("attempts", 0)`. */
  function AttemptsOf(e: AppError): int {
    if "attempts" in e.details then e.details["attempts"] else 0
  }

  class JobService {
    const jobs: InMemoryJobRepository
    const completions: CompletionService
    const webhooks: Webhooks.WebhookService

    constructor (jobs: InMemoryJobRepository, completions: CompletionService, webhooks: Webhooks.WebhookService)
      ensures this.jobs == jobs && this.completions == completions && this.webhooks == webhooks
    {
      this.jobs := jobs;
      this.completions := completions;
      this.webhooks := webhooks;
    }

    /** An id handed out can be looked up at once by its caller, as a pending job on the given model that nothing has
        happened to, and by nobody else; and the row keeps what there is to do. */
    method Accept(id: string, request: JobRequest, caller: string, model: string, now: real) returns (accepted: string)
      requires jobs.Valid() && id !in jobs.jobs
      modifies jobs
      ensures jobs.Valid() && accepted == id
      ensures jobs.View() == old(jobs.View())[id := NewRow(id, caller, request, model, now)]
      ensures fresh(jobs.jobs.Values - old(jobs.jobs.Values))
      ensures forall other :: Visible(jobs.View(), id, other).Some? <==> other == caller
      ensures Visible(jobs.View(), id, caller)
           == Some(JobModel.View(id, Pending, model, None, None, None, 0, None, now))
      ensures var row := jobs.View()[id];
              row.prompt == request.prompt && row.callbackUrl == request.callbackUrl
              && row.promptTokens == 0 && row.completionTokens == 0
    {
      var job := new Job(id, caller, request, model, now);
      jobs.Create(job);
      accepted := id;
    }

    /** Someone else's job and no job at all get the same answer. */
    method Get(id: string, caller: string) returns (o: Outcome<JobModel.View>)
      requires jobs.Valid()
      ensures o == match Visible(jobs.View(), id, caller)
                   case Some(view) => Outcome.Success(view)
                   case None => Outcome.Failed(JOB_NOT_FOUND)
      ensures o.Failed? ==>
                o.error.code == "job_not_found" && o.error.statusCode == 404 && o.error.message == "No such job."
    {
      var view := jobs.Get(id, caller);
      match view {
        case Some(v) => o := Outcome.Success(v);
        case None => o := Outcome.Failed(JOB_NOT_FOUND);
      }
    }

    /** The retry loop over the provider that a completion begun now will be. */
    ghost function CompletionLoop(weather: Weather, start: real): Retrying.Loop<Scene, Response>
      reads completions.breaker
    {
      Retrying.Retry(completions.policy, Provider(completions.breaker.config, weather), completions.At(start, 0))
    }

    method Execute(id: string, request: JobRequest, caller: string, weather: Weather, start: real, write: Write)
      returns (completion: Outcome<Response>, now: real)
      requires jobs.Valid() && completions.breaker.Valid() && Retrying.Forward(weather.latency, weather.nap)
      requires Breakers.NotAfter(completions.breaker.history, start)
      modifies jobs.jobs.Values, completions.breaker, completions.usage
      ensures jobs.Valid() && completions.breaker.Valid()
      ensures Breakers.NotAfter(completions.breaker.history, now) && start <= now
      ensures jobs.View() == (if completion.Crashed? then old(jobs.View())
                              else Updated(old(jobs.View()), id, CompletionFields(completion)))
      ensures var r := old(CompletionLoop(weather, start));
              && completion == Written(r.Result(), write)
              && now == r.final.now && completions.breaker.View() == r.final.breaker
      ensures var came := old(CompletionLoop(weather, start)).Result();
              var before, after := old(completions.usage.entries), completions.usage.entries;
              && (request.model.Some? && request.model.value != "" ==>
                    after == before + Metered(caller, request.model.value, came, write))
              && (request.model == None || request.model == Some("") ==>
                    after == before + Metered(caller, completions.defaultModel, came, write))
    {
      hide Updated, CompletionFields, Retrying.Retry, Provider, Metered, OrElse, Breakers.Replay, Breakers.NotAfter;
      hide Retrying.Forward, Breakers.CircuitBreaker.Valid, Written, Breakers.CircuitBreaker.View;
      var calls;
      completion, now, calls := completions.Complete(weather, caller, request.model, start, write);
      if !completion.Crashed? {
        jobs.Update(id, CompletionFields(completion));
      }
    }

    /** A failed delivery changes nothing about the work; one that crashed or was torn down is not even recorded. */
    method Deliver(id: string, url: string, payload: Payload, receiver: Webhooks.Receiver, start: real,
                   deliveredAt: real)
      returns (delivery: Outcome<nat>, now: real, ghost posts: seq<Webhooks.Post>)
      requires jobs.Valid() && Retrying.Forward(receiver.latency, receiver.nap)
      modifies jobs.jobs.Values
      ensures jobs.Valid() && start <= now
      ensures webhooks.Delivered(url, payload, receiver, delivery, posts)
      ensures var r := webhooks.DeliveryLoop(url, payload, receiver, start);
              && delivery == Webhooks.Reported(r.Result(), |r.outcomes|)
              && Webhooks.Desk(now, posts) == r.final
      ensures jobs.View() == Updated(old(jobs.View()), id, DeliveryFields(Plain(delivery), |posts|, deliveredAt))
    {
      hide Updated, AttemptsOf, Webhooks.Reported;
      hide Webhooks.WebhookService.Delivered, Webhooks.WebhookService.DeliveryLoop;
      delivery, now, posts := webhooks.Deliver(url, payload, receiver, start);
      DeliveryIsCounted(webhooks, url, payload, receiver, delivery, posts);
      match delivery {
        case Success(attempts) =>
          jobs.Update(id, [SetDeliveryAttempts(attempts), SetDeliveredAt(deliveredAt)]);
        case Failed(error) =>
          jobs.Update(id, [SetDeliveryAttempts(AttemptsOf(error))]);
        case Crashed =>
          NoUpdate(jobs.View(), id);
      }
    }

    /** The background half, undisturbed. Unless the completion ends outside the error taxonomy or is torn down,
        the row becomes final, the caller's URL is told, and the row records exactly the POSTs that were made -
        unless the delivery crashed or was torn down. The breaker and the store are left as the completion leaves
        them, so that the service can run the next job. */
    method Run(id: string, request: JobRequest, caller: string, weather: Weather, start: real, write: Write,
               receiver: Webhooks.Receiver, deliveredAt: real)
      returns (completion: Outcome<Response>, delivery: Outcome<nat>, now: real, ghost posts: seq<Webhooks.Post>)
      requires jobs.Valid() && completions.breaker.Valid()
      requires Retrying.Forward(weather.latency, weather.nap) && Retrying.Forward(receiver.latency, receiver.nap)
      requires Breakers.NotAfter(completions.breaker.history, start)
      modifies jobs.jobs.Values, completions.breaker, completions.usage
      ensures jobs.Valid() && completions.breaker.Valid()
      ensures Breakers.NotAfter(completions.breaker.history, now) && start <= now
      ensures jobs.View() == AfterRun(old(jobs.View()), id, completion, delivery, |posts|, deliveredAt)
      ensures var r := old(CompletionLoop(weather, start));
              && completion == Written(r.Result(), write) && completions.breaker.View() == r.final.breaker
              && if completion.Crashed? then posts == [] && now == r.final.now
                 else
                   var payload := PayloadFor(id, request, completion);
                   var d := webhooks.DeliveryLoop(request.callbackUrl, payload, receiver, r.final.now);
                   && webhooks.Delivered(request.callbackUrl, payload, receiver, delivery, posts)
                   && delivery == Webhooks.Reported(d.Result(), |d.outcomes|)
                   && Webhooks.Desk(now, posts) == d.final
      ensures var came := old(CompletionLoop(weather, start)).Result();
              var before, after := old(completions.usage.entries), completions.usage.entries;
              && (request.model.Some? && request.model.value != "" ==>
                    after == before + Metered(caller, request.model.value, came, write))
              && (request.model == None || request.model == Some("") ==>
                    after == before + Metered(caller, completions.defaultModel, came, write))
    {
      hide Updated, Webhooks.WebhookService.Delivered, Webhooks.WebhookService.DeliveryLoop, Webhooks.Reported;
      hide CompletionLoop, Metered, OrElse, Breakers.Replay, Breakers.NotAfter;
      delivery, posts := Outcome.Crashed, [];
      jobs.Update(id, STARTED);
      assert CompletionLoop(weather, start) == old(CompletionLoop(weather, start));
      completion, now := Execute(id, request, caller, weather, start, write);
      if !completion.Crashed? {
        var payload, later := PayloadFor(id, request, completion), now;
        delivery, now, posts := Deliver(id, request.callbackUrl, payload, receiver, later, deliveredAt);
        Breakers.StillNotAfter(completions.breaker.history, later, now);
      }
    }
  }

  lemma DeliveryIsCounted(
      w: Webhooks.WebhookService, url: string, payload: Payload, receiver: Webhooks.Receiver, o: Outcome<nat>,
      posts: seq<Webhooks.Post>)
    requires w.Delivered(url, payload, receiver, o, posts)
    ensures o.Success? ==> o.value == |posts|
    ensures o.Failed? ==> AttemptsOf(o.error) == |posts|
  {
    hide Signing.Verify;
  }

  lemma NoUpdate(rows: Rows, id: string)
    ensures Updated(rows, id, []) == rows
  {
  }
}
