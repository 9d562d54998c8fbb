/** Many jobs and pollers on one store. `accept` and `run` of src/services/jobs.py await the store, the
    completion and every POST, and what happens between two awaits of one job is one step here; the steps
    of all jobs interleave freely. */
module JobMachine {
  import opened Errors
  import opened JobModel
  import opened Jobs
  import opened Completing
  import Retrying
  import Webhooks

  /** Where the background run of a job stands. `Delivering` has made `made` POSTs so far; `Escaped` is a run whose
      completion ended outside the error taxonomy, and `Abandoned` one torn down between two POSTs. */
  datatype Task =
    | Queued(request: JobRequest)
    | Working(request: JobRequest)
    | Delivering(payload: Payload, made: nat, started: real)
    | Done
    | Abandoned
    | Escaped

  /** One POST, what the receiver did, and the wall-clock time when that was known. */
  datatype Sent = Sent(jobId: string, payload: Payload, reply: Webhooks.Callback, at: real)

  datatype System = System(rows: Rows, tasks: map<string, Task>, sent: seq<Sent>)

  datatype Step =
    | Accept(id: string, owner: string, request: JobRequest, model: string, at: real)
    | Start(id: string)
    | Finish(id: string, completion: Outcome<Response>, at: real)
    | PostOne(id: string, reply: Webhooks.Callback, at: real, jitter: real, wall: real)
    | TearDown(id: string)
    | Poll(id: string, caller: string)

  /** Ids are fresh, and a run takes its steps in order. */
  ghost predicate Enabled(s: System, step: Step) {
    match step
    case Accept(id, _, _, _, _) => id !in s.rows
    case Start(id) => id in s.tasks && s.tasks[id].Queued?
    case Finish(id, _, _) => id in s.tasks && s.tasks[id].Working?
    case PostOne(id, _, _, _, _) => id in s.tasks && s.tasks[id].Delivering?
    case TearDown(id) => id in s.tasks && s.tasks[id].Delivering? && s.tasks[id].made > 0
    case Poll(_, _) => true
  }

  function Next(p: Retrying.Policy, s: System, step: Step): System {
    match step
    case Accept(id, owner, request, model, at) =>
      System(s.rows[id := NewRow(id, owner, request, model, at)], s.tasks[id := Queued(request)], s.sent)
    case Start(id) =>
      if id in s.tasks && s.tasks[id].Queued? then
        System(Updated(s.rows, id, STARTED), s.tasks[id := Working(s.tasks[id].request)], s.sent)
      else s
    case Finish(id, o, at) =>
      if id in s.tasks && s.tasks[id].Working? then
        if o.Crashed? then s.(tasks := s.tasks[id := Escaped])
        else System(Updated(s.rows, id, CompletionFields(o)),
                    s.tasks[id := Delivering(PayloadFor(id, s.tasks[id].request, o), 0, at)], s.sent)
      else s
    case PostOne(id, reply, at, jitter, wall) =>
      if id in s.tasks && s.tasks[id].Delivering? then
        var t := s.tasks[id];
        var o, n := Webhooks.Judged(reply), t.made + 1;
        var sent := s.sent + [Sent(id, t.payload, reply, wall)];
        if Retrying.Judge(p, n, o, at - t.started, jitter).Stop? then
          System(Updated(s.rows, id, DeliveryFields(o, n, wall)), s.tasks[id := Done], sent)
        else System(s.rows, s.tasks[id := t.(made := n)], sent)
      else s
    case TearDown(id) => s.(tasks := s.tasks[id := Abandoned])
    case Poll(_, _) => s
  }

  const EMPTY := System(map[], map[], [])

  function Exec(p: Retrying.Policy, run: seq<Step>): System {
    if run == [] then EMPTY else Next(p, Exec(p, run[..|run| - 1]), run[|run| - 1])
  }

  ghost predicate Legal(p: Retrying.Policy, run: seq<Step>) {
    run == [] || (Legal(p, run[..|run| - 1]) && Enabled(Exec(p, run[..|run| - 1]), run[|run| - 1]))
  }

  /** The POSTs made for one job. */
  function SentTo(sent: seq<Sent>, id: string): seq<Sent> {
    if sent == [] then []
    else
      var before, last := SentTo(sent[..|sent| - 1], id), sent[|sent| - 1];
      if last.jobId == id then before + [last] else before
  }

  // ---------------------------------------------------------------------------------------
  // What holds of every job in every reachable state
  // ---------------------------------------------------------------------------------------

  /** Content is there iff the job succeeded, and an error iff it failed. */
  predicate WellFormed(r: Row) {
    && (r.content.Some? <==> r.status == Succeeded)
    && (r.errorCode.Some? <==> r.status == Status.Failed)
    && (r.errorMessage.Some? <==> r.status == Status.Failed)
  }

  predicate Undelivered(r: Row) {
    r.deliveryAttempts == 0 && r.deliveredAt == None
  }

  /** What the receiver is told is what the row says, but for the model of a failed job. */
  predicate Agrees(payload: Payload, r: Row) {
    && payload.jobId == r.id
    && payload.status == r.status
    && (r.status == Succeeded ==> payload.model == r.model)
    && payload.content == r.content
    && payload.errorCode == r.errorCode
    && payload.errorMessage == r.errorMessage
  }

  /** Every POST of a job carried one and the same payload, the one its row shows, and all but the last
      met a receiver that was out of reach, throttling or failing. */
  ghost predicate OneMessage(r: Row, posts: seq<Sent>) {
    && (forall i | 0 <= i < |posts| :: Agrees(posts[i].payload, r) && posts[i].payload == posts[0].payload)
    && (forall i | 0 <= i < |posts| - 1 :: Webhooks.Blip(posts[i].reply))
  }

  /** How the row accounts for a finished delivery: the number of POSTs, and delivered at the time of the last one iff
      the receiver accepted it - unless that one crashed, which is not recorded at all. */
  ghost predicate Accounted(r: Row, posts: seq<Sent>)
    requires posts != []
  {
    var last := posts[|posts| - 1];
    if last.reply.Broken? then Undelivered(r)
    else
      && r.deliveryAttempts == |posts|
      && r.deliveredAt == (if Webhooks.Accepts(last.reply) then Some(last.at) else None)
  }

  ghost predicate Consistent(p: Retrying.Policy, id: string, r: Row, t: Task, posts: seq<Sent>) {
    && r.id == id && WellFormed(r) && OneMessage(r, posts)
    && match t
       case Queued(_) => r.status == Pending && Undelivered(r) && posts == []
       case Working(_) => r.status == Running && Undelivered(r) && posts == []
       case Escaped => r.status == Running && Undelivered(r) && posts == []
       case Delivering(payload, made, _) =>
         && r.status.IsFinal() && Undelivered(r) && Agrees(payload, r)
         && |posts| == made < p.Cap()
         && (forall i | 0 <= i < |posts| :: posts[i].payload == payload && Webhooks.Blip(posts[i].reply))
       case Abandoned =>
         && r.status.IsFinal() && Undelivered(r) && 1 <= |posts| < p.Cap()
         && (forall i | 0 <= i < |posts| :: Webhooks.Blip(posts[i].reply))
       case Done => r.status.IsFinal() && 1 <= |posts| <= p.Cap() && Accounted(r, posts)
  }

  ghost predicate Inv(p: Retrying.Policy, s: System) {
    && s.rows.Keys == s.tasks.Keys
    && (forall id | id in s.rows :: Consistent(p, id, s.rows[id], s.tasks[id], SentTo(s.sent, id)))
    && (forall id | id !in s.rows :: SentTo(s.sent, id) == [])
  }

  lemma SentOneMore(sent: seq<Sent>, x: Sent, id: string)
    ensures SentTo(sent + [x], id) == if x.jobId == id then SentTo(sent, id) + [x] else SentTo(sent, id)
  {
    assert (sent + [x])[..|sent|] == sent;
  }

  lemma Accepted(p: Retrying.Policy, id: string, owner: string, request: JobRequest, model: string, at: real)
    ensures Consistent(p, id, NewRow(id, owner, request, model, at), Queued(request), [])
  {
  }

  lemma Started(p: Retrying.Policy, id: string, r: Row, request: JobRequest, posts: seq<Sent>)
    requires Consistent(p, id, r, Queued(request), posts)
    ensures Consistent(p, id, AssignAll(r, STARTED), Working(request), posts)
  {
    AssignDelivery(r, Outcome.Crashed, 0, 0.0);
    hide AssignAll;
  }

  lemma Finished(p: Retrying.Policy, id: string, r: Row, request: JobRequest, posts: seq<Sent>, o: Outcome<Response>,
                 at: real)
    requires Consistent(p, id, r, Working(request), posts)
    ensures if o.Crashed? then Consistent(p, id, r, Escaped, posts)
            else Consistent(p, id, AssignAll(r, CompletionFields(o)), Delivering(PayloadFor(id, request, o), 0, at),
                            posts)
  {
    AssignCompletion(r, o);
    hide AssignAll, CompletionFields;
  }

  lemma Posted(p: Retrying.Policy, id: string, r: Row, t: Task, posts: seq<Sent>, reply: Webhooks.Callback,
               elapsed: real, jitter: real, wall: real)
    requires t.Delivering? && Consistent(p, id, r, t, posts)
    ensures var n, posts', o := t.made + 1, posts + [Sent(id, t.payload, reply, wall)], Webhooks.Judged(reply);
            if Retrying.Judge(p, n, o, elapsed, jitter).Stop?
            then Consistent(p, id, AssignAll(r, DeliveryFields(o, n, wall)), Done, posts')
            else Consistent(p, id, r, t.(made := n), posts')
  {
    Webhooks.OnlyBlipsAreRepeated(reply);
    hide AssignAll, DeliveryFields, Retrying.DelayFor, Webhooks.Judged, Webhooks.Blip, Webhooks.Accepts;
    var n, posts', o := t.made + 1, posts + [Sent(id, t.payload, reply, wall)], Webhooks.Judged(reply);
    var r' := AssignAll(r, DeliveryFields(o, n, wall));
    AssignDelivery(r, o, n, wall);
    assert Agrees(t.payload, r');
    assert OneMessage(r', posts');
  }

  lemma Stopped(p: Retrying.Policy, id: string, r: Row, t: Task, posts: seq<Sent>)
    requires t.Delivering? && t.made > 0 && Consistent(p, id, r, t, posts)
    ensures Consistent(p, id, r, Abandoned, posts)
  {
    hide WellFormed, OneMessage, Agrees, Undelivered, Webhooks.Blip;
  }

  lemma OwnStep(p: Retrying.Policy, s: System, step: Step)
    requires Inv(p, s) && Enabled(s, step) && !step.Poll?
    ensures var s' := Next(p, s, step);
            step.id in s'.rows && step.id in s'.tasks
            && Consistent(p, step.id, s'.rows[step.id], s'.tasks[step.id], SentTo(s'.sent, step.id))
  {
    hide Consistent, SentTo, AssignAll, CompletionFields, DeliveryFields, Webhooks.Judged, Retrying.Judge, NewRow;
    var posts := SentTo(s.sent, step.id);
    match step {
      case Accept(id, owner, request, model, at) =>
        Accepted(p, id, owner, request, model, at);
      case Start(id) =>
        Started(p, id, s.rows[id], s.tasks[id].request, posts);
      case Finish(id, o, at) =>
        Finished(p, id, s.rows[id], s.tasks[id].request, posts, o, at);
      case PostOne(id, reply, at, jitter, wall) =>
        var t := s.tasks[id];
        SentOneMore(s.sent, Sent(id, t.payload, reply, wall), id);
        Posted(p, id, s.rows[id], t, posts, reply, at - t.started, jitter, wall);
      case TearDown(id) =>
        Stopped(p, id, s.rows[id], s.tasks[id], posts);
    }
  }

  /** A step of one job leaves every other job's row, run and POSTs alone. */
  lemma OthersUntouched(p: Retrying.Policy, s: System, step: Step, other: string)
    requires step.id != other || step.Poll?
    ensures var s' := Next(p, s, step);
            && (other in s'.rows <==> other in s.rows) && (other in s'.tasks <==> other in s.tasks)
            && (other in s.rows ==> s'.rows[other] == s.rows[other])
            && (other in s.tasks ==> s'.tasks[other] == s.tasks[other])
            && SentTo(s'.sent, other) == SentTo(s.sent, other)
  {
    hide SentTo, AssignAll, CompletionFields, DeliveryFields, Webhooks.Judged;
    if step.PostOne? && step.id in s.tasks && s.tasks[step.id].Delivering? {
      SentOneMore(s.sent, Sent(step.id, s.tasks[step.id].payload, step.reply, step.wall), other);
    }
  }

  lemma {:induction false} Always(p: Retrying.Policy, run: seq<Step>)
    requires Legal(p, run)
    ensures Inv(p, Exec(p, run))
    decreases |run|
  {
    hide Next, Consistent, Enabled, SentTo;
    if run == [] {
      NothingSent();
    } else {
      var s, step := Exec(p, run[..|run| - 1]), run[|run| - 1];
      Always(p, run[..|run| - 1]);
      var s' := Next(p, s, step);
      forall id
        ensures id in s'.rows <==> id in s'.tasks
        ensures id in s'.rows ==> Consistent(p, id, s'.rows[id], s'.tasks[id], SentTo(s'.sent, id))
        ensures id !in s'.rows ==> SentTo(s'.sent, id) == []
      {
        if step.Poll? || step.id != id {
          OthersUntouched(p, s, step, id);
        } else {
          OwnStep(p, s, step);
        }
      }
    }
  }

  lemma NothingSent()
    ensures forall id :: SentTo([], id) == []
  {
  }

  // ---------------------------------------------------------------------------------------
  // What a reader of the store may rely on
  // ---------------------------------------------------------------------------------------

  /** In every reachable state, for every job: content iff succeeded, error iff failed, any trace of
      delivery only on a final row, and a background run that is over left a final status - iff its completion
      did not end outside the taxonomy, which leaves the row running. */
  lemma {:induction false} RowsAreCoherent(p: Retrying.Policy, run: seq<Step>, id: string)
    requires Legal(p, run) && id in Exec(p, run).rows
    ensures id in Exec(p, run).tasks
    ensures var r, t := Exec(p, run).rows[id], Exec(p, run).tasks[id];
            && (r.content.Some? <==> r.status == Succeeded)
            && (r.errorCode.Some? <==> r.status == Status.Failed)
            && (r.deliveredAt.Some? || r.deliveryAttempts > 0 ==> r.status.IsFinal())
            && (r.deliveredAt.Some? ==> r.deliveryAttempts > 0)
            && (t.Done? || t.Abandoned? || t.Escaped? ==> (r.status.IsFinal() <==> !t.Escaped?))
            && (t.Escaped? ==> r.status == Running)
  {
    Always(p, run);
    hide Exec, Legal, SentTo;
    assert Consistent(p, id, Exec(p, run).rows[id], Exec(p, run).tasks[id], SentTo(Exec(p, run).sent, id));
  }

  /** Delivery agreement. Every POST ever made for a job, in any reachable state, tells what its row shows
      now; there are at most `max(1, max_attempts)` of them, all the same, and all but the last met a
      receiver that was out of reach, throttling or failing; and once delivery is over the row's count is theirs
      and it is marked delivered at the time of the last iff the receiver accepted it - unless the last one
      crashed or the run was torn down after it, and then nothing was recorded. */
  lemma {:induction false} DeliveryAgrees(p: Retrying.Policy, run: seq<Step>, id: string)
    requires Legal(p, run) && id in Exec(p, run).rows
    ensures id in Exec(p, run).tasks
    ensures var r, t, posts := Exec(p, run).rows[id], Exec(p, run).tasks[id], SentTo(Exec(p, run).sent, id);
            && |posts| <= p.Cap()
            && (forall i | 0 <= i < |posts| :: Agrees(posts[i].payload, r) && posts[i].payload == posts[0].payload)
            && (forall i | 0 <= i < |posts| - 1 :: Webhooks.Blip(posts[i].reply))
            && (t.Done? || t.Abandoned? ==> posts != [])
            && (t.Done? && !posts[|posts| - 1].reply.Broken? ==>
                  && r.deliveryAttempts == |posts|
                  && r.deliveredAt
                     == if Webhooks.Accepts(posts[|posts| - 1].reply) then Some(posts[|posts| - 1].at) else None)
            && (!t.Done? || posts[|posts| - 1].reply.Broken? ==> r.deliveryAttempts == 0 && r.deliveredAt == None)
  {
    Always(p, run);
    hide Exec, Legal, SentTo;
    assert Consistent(p, id, Exec(p, run).rows[id], Exec(p, run).tasks[id], SentTo(Exec(p, run).sent, id));
  }

  function Rank(s: Status): nat {
    match s
    case Pending => 0
    case Running => 1
    case _ => 2
  }

  /** `r'` is a later state of `r`: the same job, its status no earlier, and its result frozen once final. */
  predicate Follows(r: Row, r': Row) {
    && r'.id == r.id && r'.owner == r.owner && r'.prompt == r.prompt && r'.callbackUrl == r.callbackUrl
    && r'.createdAt == r.createdAt
    && Rank(r.status) <= Rank(r'.status)
    && (r.status.IsFinal() ==>
          && r'.status == r.status && r'.model == r.model && r'.content == r.content
          && r'.errorCode == r.errorCode && r'.errorMessage == r.errorMessage
          && r'.promptTokens == r.promptTokens && r'.completionTokens == r.completionTokens)
  }

  lemma StartFollows(r: Row)
    requires r.status == Pending
    ensures Follows(r, AssignAll(r, STARTED)) && Rank(AssignAll(r, STARTED).status) <= Rank(r.status) + 1
  {
    AssignDelivery(r, Outcome.Crashed, 0, 0.0);
    hide AssignAll;
  }

  lemma FinishFollows(r: Row, o: Outcome<Response>)
    requires r.status == Running
    ensures var r' := AssignAll(r, CompletionFields(o));
            Follows(r, r') && Rank(r'.status) <= Rank(r.status) + 1
  {
    AssignCompletion(r, o);
    hide AssignAll, CompletionFields;
  }

  lemma DeliveryFollows(r: Row, o: Outcome<()>, n: nat, at: real)
    ensures var r' := AssignAll(r, DeliveryFields(o, n, at));
            Follows(r, r') && Rank(r'.status) <= Rank(r.status) + 1
  {
    AssignDelivery(r, o, n, at);
    hide AssignAll, DeliveryFields;
  }

  lemma StatusMatchesTask(p: Retrying.Policy, s: System, id: string)
    requires Inv(p, s) && id in s.rows
    ensures id in s.tasks
    ensures s.tasks[id].Queued? ==> s.rows[id].status == Pending
    ensures s.tasks[id].Working? || s.tasks[id].Escaped? ==> s.rows[id].status == Running
  {
    assert Consistent(p, id, s.rows[id], s.tasks[id], SentTo(s.sent, id));
    hide SentTo, WellFormed, OneMessage, Accounted, Agrees, Undelivered;
  }

  /** One step moves a status one arrow at most: pending to running, running to succeeded or failed. */
  lemma {:induction false} OneArrowAtATime(p: Retrying.Policy, s: System, step: Step, id: string)
    requires Inv(p, s) && Enabled(s, step) && id in s.rows
    ensures var s' := Next(p, s, step);
            id in s'.rows && Follows(s.rows[id], s'.rows[id])
            && Rank(s'.rows[id].status) <= Rank(s.rows[id].status) + 1
  {
    StatusMatchesTask(p, s, id);
    if step.Poll? || step.id != id {
      OthersUntouched(p, s, step, id);
    } else {
      hide Inv, AssignAll, STARTED, CompletionFields, DeliveryFields, Webhooks.Judged, Retrying.Judge, Follows, Rank;
      var r := s.rows[id];
      match step {
        case Accept(_, _, _, _, _) =>
        case Start(_) => StartFollows(r);
        case Finish(_, o, _) => FinishFollows(r, o); StaysPut(r);
        case PostOne(_, reply, _, _, wall) =>
          DeliveryFollows(r, Webhooks.Judged(reply), s.tasks[id].made + 1, wall);
          StaysPut(r);
        case TearDown(_) => StaysPut(r);
        case Poll(_, _) =>
      }
    }
  }

  lemma StaysPut(r: Row)
    ensures Follows(r, r)
  {
  }

  /** Over any run, whatever the other jobs do, a stored job is never lost, never changes hands, only moves
      forward, and keeps its result once it is final. */
  lemma {:induction false} JobsOnlyMoveForward(p: Retrying.Policy, run: seq<Step>, k: nat, id: string)
    requires Legal(p, run) && k <= |run| && id in Exec(p, run[..k]).rows
    ensures id in Exec(p, run).rows && Follows(Exec(p, run[..k]).rows[id], Exec(p, run).rows[id])
    decreases |run|
  {
    hide Next, Enabled, Inv;
    if k == |run| {
      assert run[..k] == run;
    } else {
      var before := run[..|run| - 1];
      assert before[..k] == run[..k];
      JobsOnlyMoveForward(p, before, k, id);
      Always(p, before);
      OneArrowAtATime(p, Exec(p, before), run[|run| - 1], id);
    }
  }

  /** Polling. A job answers its own caller from acceptance on and nobody else ever, and two polls of one
      caller never disagree: the later one only knows more, and a final answer stays. */
  lemma {:induction false} PollsAreConsistent(p: Retrying.Policy, run: seq<Step>, k: nat, id: string, caller: string)
    requires Legal(p, run) && k <= |run| && id in Exec(p, run[..k]).rows
    ensures var early, late := Visible(Exec(p, run[..k]).rows, id, caller), Visible(Exec(p, run).rows, id, caller);
            && (early.Some? <==> caller == Exec(p, run[..k]).rows[id].owner)
            && (late.Some? <==> early.Some?)
            && (early.Some? ==> Rank(early.value.status) <= Rank(late.value.status))
            && (early.Some? && early.value.status.IsFinal() ==>
                  && late.value.status == early.value.status && late.value.content == early.value.content
                  && late.value.errorCode == early.value.errorCode && late.value.model == early.value.model)
  {
    JobsOnlyMoveForward(p, run, k, id);
  }

  /** Push agrees with poll: whoever missed a delivery reads from now on, in every reachable state, exactly
      what any POST of that job said - provided they are its caller. */
  lemma {:induction false} PushAgreesWithPoll(p: Retrying.Policy, run: seq<Step>, id: string, i: nat)
    requires Legal(p, run) && i < |SentTo(Exec(p, run).sent, id)|
    ensures id in Exec(p, run).rows
    ensures var payload := SentTo(Exec(p, run).sent, id)[i].payload;
            var poll := Visible(Exec(p, run).rows, id, Exec(p, run).rows[id].owner);
            && poll.Some? && poll.value.id == payload.jobId && poll.value.status == payload.status
            && poll.value.content == payload.content && poll.value.errorCode == payload.errorCode
            && poll.value.errorMessage == payload.errorMessage
            && (payload.status == Succeeded ==> poll.value.model == payload.model)
  {
    Always(p, run);
    hide Exec, Legal, SentTo;
    var s := Exec(p, run);
    assert id in s.rows ==> Consistent(p, id, s.rows[id], s.tasks[id], SentTo(s.sent, id));
  }

  // ---------------------------------------------------------------------------------------
  // What a job is accepted with, and what its caller reads
  // ---------------------------------------------------------------------------------------

  /** Nothing of what a job was accepted with is lost: who asked for what, where the answer goes and since when; the
      model stands until a completion names its own; and a payload that tells of a failure names the model that was
      asked for, if any. */
  ghost predicate Remembers(accept: Step, r: Row, t: Task, posts: seq<Sent>)
    requires accept.Accept?
  {
    var asked := if accept.request.model.Some? then accept.request.model.value else "";
    && r.owner == accept.owner && r.createdAt == accept.at
    && r.prompt == accept.request.prompt && r.callbackUrl == accept.request.callbackUrl
    && (r.status != Succeeded ==> r.model == accept.model)
    && (t.Queued? || t.Working? ==> t.request == accept.request)
    && (t.Delivering? && t.payload.status == Status.Failed ==> t.payload.model == asked)
    && (forall i | 0 <= i < |posts| :: posts[i].payload.status == Status.Failed ==> posts[i].payload.model == asked)
  }

  lemma RemembersFinish(accept: Step, id: string, r: Row, request: JobRequest, posts: seq<Sent>, o: Outcome<Response>,
                        at: real)
    requires accept.Accept? && Remembers(accept, r, Working(request), posts) && !o.Crashed? && r.status == Running
    ensures Remembers(accept, AssignAll(r, CompletionFields(o)), Delivering(PayloadFor(id, request, o), 0, at), posts)
  {
    AssignCompletion(r, o);
    hide AssignAll, CompletionFields;
  }

  lemma RemembersPost(accept: Step, id: string, r: Row, t: Task, posts: seq<Sent>, reply: Webhooks.Callback, n: nat,
                      wall: real)
    requires accept.Accept? && t.Delivering? && Remembers(accept, r, t, posts)
    ensures var posts' := posts + [Sent(id, t.payload, reply, wall)];
            && Remembers(accept, AssignAll(r, DeliveryFields(Webhooks.Judged(reply), n, wall)), Done, posts')
            && Remembers(accept, r, t.(made := n), posts')
  {
    AssignDelivery(r, Webhooks.Judged(reply), n, wall);
    hide AssignAll, DeliveryFields, Webhooks.Judged;
  }

  lemma RemembersStart(accept: Step, r: Row, request: JobRequest, posts: seq<Sent>)
    requires accept.Accept? && Remembers(accept, r, Queued(request), posts) && r.status == Pending
    ensures Remembers(accept, AssignAll(r, STARTED), Working(request), posts)
  {
    AssignDelivery(r, Outcome.Crashed, 0, 0.0);
    hide AssignAll, STARTED;
  }

  lemma RemembersOver(accept: Step, r: Row, t: Task, t': Task, posts: seq<Sent>)
    requires accept.Accept? && Remembers(accept, r, t, posts) && (t'.Escaped? || t'.Abandoned?)
    ensures Remembers(accept, r, t', posts)
  {
  }

  lemma RemembersOwnStep(p: Retrying.Policy, s: System, step: Step, accept: Step)
    requires accept.Accept? && step.id == accept.id && !step.Poll? && Enabled(s, step)
    requires step.id in s.rows && step.id in s.tasks
    requires s.tasks[step.id].Queued? ==> s.rows[step.id].status == Pending
    requires s.tasks[step.id].Working? ==> s.rows[step.id].status == Running
    requires Remembers(accept, s.rows[step.id], s.tasks[step.id], SentTo(s.sent, step.id))
    ensures var s', id := Next(p, s, step), step.id;
            && id in s'.rows && id in s'.tasks
            && Remembers(accept, s'.rows[id], s'.tasks[id], SentTo(s'.sent, id))
  {
    hide Remembers, SentTo, AssignAll, STARTED, CompletionFields, DeliveryFields, Webhooks.Judged, Retrying.Judge;
    hide NewRow, PayloadFor;
    var r, t, posts := s.rows[step.id], s.tasks[step.id], SentTo(s.sent, step.id);
    match step {
      case Start(_) => RemembersStart(accept, r, t.request, posts);
      case Finish(id, o, at) =>
        if o.Crashed? {
          RemembersOver(accept, r, t, Escaped, posts);
        } else {
          RemembersFinish(accept, id, r, t.request, posts, o, at);
        }
      case PostOne(id, reply, _, _, wall) =>
        SentOneMore(s.sent, Sent(id, t.payload, reply, wall), id);
        RemembersPost(accept, id, r, t, posts, reply, t.made + 1, wall);
      case TearDown(_) => RemembersOver(accept, r, t, Abandoned, posts);
      case _ =>
    }
  }

  lemma RemembersStep(p: Retrying.Policy, s: System, step: Step, accept: Step)
    requires Inv(p, s) && Enabled(s, step) && accept.Accept? && accept.id in s.rows && accept.id in s.tasks
    requires Remembers(accept, s.rows[accept.id], s.tasks[accept.id], SentTo(s.sent, accept.id))
    ensures var s', id := Next(p, s, step), accept.id;
            && id in s'.rows && id in s'.tasks
            && Remembers(accept, s'.rows[id], s'.tasks[id], SentTo(s'.sent, id))
  {
    hide Inv, Next, Enabled, Remembers, SentTo;
    if step.Poll? || step.id != accept.id {
      OthersUntouched(p, s, step, accept.id);
    } else {
      StatusMatchesTask(p, s, accept.id);
      RemembersOwnStep(p, s, step, accept);
    }
  }

  lemma RemembersFirst(p: Retrying.Policy, s: System, accept: Step)
    requires Inv(p, s) && accept.Accept? && Enabled(s, accept)
    ensures var s', id := Next(p, s, accept), accept.id;
            && id in s'.rows && id in s'.tasks
            && Remembers(accept, s'.rows[id], s'.tasks[id], SentTo(s'.sent, id))
  {
    hide SentTo;
  }

  lemma {:induction false} AcceptanceIsRemembered(p: Retrying.Policy, run: seq<Step>, j: nat)
    requires Legal(p, run) && j < |run| && run[j].Accept?
    ensures var s, id := Exec(p, run), run[j].id;
            && id in s.rows && id in s.tasks
            && Remembers(run[j], s.rows[id], s.tasks[id], SentTo(s.sent, id))
    decreases |run|
  {
    hide Next, Enabled, Remembers, Inv;
    var before := run[..|run| - 1];
    Always(p, before);
    if j == |run| - 1 {
      RemembersFirst(p, Exec(p, before), run[j]);
    } else {
      assert before[j] == run[j];
      AcceptanceIsRemembered(p, before, j);
      RemembersStep(p, Exec(p, before), run[|run| - 1], run[j]);
    }
  }

  /** What a poll shows, in every reachable state, of a job accepted at step `j`: nothing to anybody but its caller; to
      its caller the id and the time it was accepted, and until a completion names its own the model it was
      accepted with; the number of POSTs and the time of the last once delivery is over and that was accepted, or the
      number alone if it was refused; and no trace of a delivery before that, or if the last POST crashed or the run
      was torn down. */
  lemma {:induction false} PollShows(p: Retrying.Policy, run: seq<Step>, j: nat, caller: string)
    requires Legal(p, run) && j < |run| && run[j].Accept?
    ensures var s, accept := Exec(p, run), run[j];
            var id := accept.id;
            var poll, posts := Visible(s.rows, id, caller), SentTo(s.sent, id);
            && (poll.Some? <==> caller == accept.owner)
            && id in s.tasks && (s.tasks[id].Done? ==> posts != [])
            && (poll.Some? ==>
                  && poll.value.id == id && poll.value.createdAt == accept.at
                  && (poll.value.status != Succeeded ==> poll.value.model == accept.model)
                  && (if s.tasks[id].Done? && !posts[|posts| - 1].reply.Broken? then
                        && poll.value.deliveryAttempts == |posts|
                        && (poll.value.deliveredAt.Some? <==> Webhooks.Accepts(posts[|posts| - 1].reply))
                        && (poll.value.deliveredAt.Some? ==> poll.value.deliveredAt.value == posts[|posts| - 1].at)
                      else poll.value.deliveryAttempts == 0 && poll.value.deliveredAt == None))
  {
    AcceptanceIsRemembered(p, run, j);
    DeliveryAgrees(p, run, run[j].id);
    RowsAreCoherent(p, run, run[j].id);
    Always(p, run);
    var s, id := Exec(p, run), run[j].id;
    hide Exec, Legal, SentTo, Webhooks.Accepts, Webhooks.Blip;
    assert Consistent(p, id, s.rows[id], s.tasks[id], SentTo(s.sent, id));
    hide OneMessage, WellFormed, Accounted, Agrees;
  }

  /** Every payload ever sent of a job accepted at step `j` that tells of a failure names the model that was asked for,
      or none. */
  lemma {:induction false} FailureNamesTheModelAsked(p: Retrying.Policy, run: seq<Step>, j: nat, i: nat)
    requires Legal(p, run) && j < |run| && run[j].Accept? && i < |SentTo(Exec(p, run).sent, run[j].id)|
    requires SentTo(Exec(p, run).sent, run[j].id)[i].payload.status == Status.Failed
    ensures var request, payload := run[j].request, SentTo(Exec(p, run).sent, run[j].id)[i].payload;
            payload.model == if request.model.Some? then request.model.value else ""
  {
    AcceptanceIsRemembered(p, run, j);
    hide Exec, Legal, SentTo;
  }

  /** What a poll shows of the result, in every reachable state from the step on at which its completion came to it:
      content and model of the answer, or code and message of the error. */
  lemma {:induction false} PollShowsTheResult(p: Retrying.Policy, run: seq<Step>, j: nat, caller: string)
    requires Legal(p, run) && j < |run| && run[j].Finish? && !run[j].completion.Crashed?
    requires Visible(Exec(p, run).rows, run[j].id, caller).Some?
    ensures var view, o := Visible(Exec(p, run).rows, run[j].id, caller).value, run[j].completion;
            && (o.Success? ==>
                  && view.status == Succeeded && view.content == Some(o.value.content) && view.model == o.value.model
                  && view.errorCode == None && view.errorMessage == None)
            && (o.Failed? ==>
                  && view.status == Status.Failed && view.content == None
                  && view.errorCode == Some(o.error.code) && view.errorMessage == Some(o.error.message))
    ensures var row, o := Exec(p, run).rows[run[j].id], run[j].completion;
            o.Success? ==> row.promptTokens == o.value.promptTokens && row.completionTokens == o.value.completionTokens
  {
    var s, id, o := Exec(p, run[..j]), run[j].id, run[j].completion;
    LegalPrefix(p, run, j);
    Always(p, run[..j]);
    assert run[..j + 1][..j] == run[..j];
    StatusMatchesTask(p, s, id);
    assert Consistent(p, id, s.rows[id], s.tasks[id], SentTo(s.sent, id));
    AssignCompletion(s.rows[id], o);
    JobsOnlyMoveForward(p, run, j + 1, id);
    assert Exec(p, run[..j + 1]) == Next(p, s, run[j]);
    hide Exec, Legal, SentTo, AssignAll, CompletionFields, PayloadFor, OneMessage, Accounted, Agrees;
  }

  lemma {:induction false} LegalPrefix(p: Retrying.Policy, run: seq<Step>, j: nat)
    requires Legal(p, run) && j < |run|
    ensures Legal(p, run[..j]) && Enabled(Exec(p, run[..j]), run[j])
    decreases |run|
  {
    hide Exec, Enabled;
    if j < |run| - 1 {
      var before := run[..|run| - 1];
      LegalPrefix(p, before, j);
      assert before[..j] == run[..j];
    }
  }
}
