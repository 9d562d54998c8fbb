/** Job rows, what a caller sees of them, and what is posted to the callback: src/models/job.py,
    src/models/tables.py, and the field updates src/services/jobs.py makes. */
module JobModel {
  import opened Errors
  import opened Completing

  datatype Status = Pending | Running | Succeeded | Failed {
    predicate IsFinal() {
      this == Succeeded || this == Status.Failed
    }
  }

  datatype Row = Row(
    id: string, owner: string, status: Status, model: string, prompt: string, callbackUrl: string,
    content: Option<string>, errorCode: Option<string>, errorMessage: Option<string>,
    promptTokens: int, completionTokens: int,
    deliveryAttempts: int, deliveredAt: Option<real>, createdAt: real)

  datatype View = View(
    id: string, status: Status, model: string, content: Option<string>, errorCode: Option<string>,
    errorMessage: Option<string>, deliveryAttempts: int, deliveredAt: Option<real>, createdAt: real)

  datatype JobRequest = JobRequest(prompt: string, model: Option<string>, callbackUrl: string)

  datatype Payload = Payload(
    jobId: string, status: Status, model: string, content: Option<string>, errorCode: Option<string>,
    errorMessage: Option<string>)

  function ToView(r: Row): View {
    View(r.id, r.status, r.model, r.content, r.errorCode, r.errorMessage, r.deliveryAttempts, r.deliveredAt,
         r.createdAt)
  }

  function NewRow(id: string, owner: string, request: JobRequest, model: string, now: real): Row {
    Row(id, owner, Pending, model, request.prompt, request.callbackUrl, None, None, None, 0, 0, 0, None, now)
  }

  /** One keyword argument of `update`. */
  datatype Field =
    | SetStatus(status: Status)
    | SetModel(model: string)
    | SetContent(content: string)
    | SetErrorCode(code: string)
    | SetErrorMessage(message: string)
    | SetPromptTokens(tokens: int)
    | SetCompletionTokens(tokens: int)
    | SetDeliveryAttempts(attempts: int)
    | SetDeliveredAt(at: real)

  function Assign(r: Row, f: Field): Row {
    match f
    case SetStatus(s) => r.(status := s)
    case SetModel(m) => r.(model := m)
    case SetContent(c) => r.(content := Some(c))
    case SetErrorCode(c) => r.(errorCode := Some(c))
    case SetErrorMessage(m) => r.(errorMessage := Some(m))
    case SetPromptTokens(n) => r.(promptTokens := n)
    case SetCompletionTokens(n) => r.(completionTokens := n)
    case SetDeliveryAttempts(n) => r.(deliveryAttempts := n)
    case SetDeliveredAt(t) => r.(deliveredAt := Some(t))
  }

  function AssignAll(r: Row, fields: seq<Field>): Row {
    if fields == [] then r else Assign(AssignAll(r, fields[..|fields| - 1]), fields[|fields| - 1])
  }

  // ---------------------------------------------------------------------------------------
  // The updates a job goes through
  // ---------------------------------------------------------------------------------------

  const STARTED := [SetStatus(Running)]

  function CompletionFields(o: Outcome<Response>): seq<Field> {
    match o
    case Success(r) =>
      [SetStatus(Succeeded), SetContent(r.content), SetModel(r.model), SetPromptTokens(r.promptTokens),
       SetCompletionTokens(r.completionTokens)]
    case Failed(e) => [SetStatus(Status.Failed), SetErrorCode(e.code), SetErrorMessage(e.message)]
    case Crashed => []
  }

  function PayloadFor(id: string, request: JobRequest, o: Outcome<Response>): Payload
    requires !o.Crashed?
  {
    match o
    case Success(r) => Payload(id, Succeeded, r.model, Some(r.content), None, None)
    case Failed(e) =>
      var model := if request.model.Some? then request.model.value else "";
      Payload(id, Status.Failed, model, None, Some(e.code), Some(e.message))
  }

  /** What is stored once the callback was tried `attempts` times; nothing if delivery itself crashed. */
  function DeliveryFields(delivery: Outcome<()>, attempts: int, at: real): seq<Field> {
    match delivery
    case Success(_) => [SetDeliveryAttempts(attempts), SetDeliveredAt(at)]
    case Failed(_) => [SetDeliveryAttempts(attempts)]
    case Crashed => []
  }

  lemma AssignLast(r: Row, before: seq<Field>, f: Field)
    ensures AssignAll(r, before + [f]) == Assign(AssignAll(r, before), f)
  {
    assert (before + [f])[..|before|] == before;
  }

  lemma AssignOne(r: Row, f: Field)
    ensures AssignAll(r, [f]) == Assign(r, f)
  {
    AssignLast(r, [], f);
    assert [] + [f] == [f];
  }

  lemma AssignTwo(r: Row, f: Field, g: Field)
    ensures AssignAll(r, [f, g]) == Assign(Assign(r, f), g)
  {
    AssignOne(r, f);
    AssignLast(r, [f], g);
    assert [f] + [g] == [f, g];
  }

  lemma AssignThree(r: Row, f: Field, g: Field, h: Field)
    ensures AssignAll(r, [f, g, h]) == Assign(Assign(Assign(r, f), g), h)
  {
    AssignTwo(r, f, g);
    AssignLast(r, [f, g], h);
    assert [f, g] + [h] == [f, g, h];
  }

  /** The row of a finished completion. */
  lemma AssignCompletion(r: Row, o: Outcome<Response>)
    ensures var r' := AssignAll(r, CompletionFields(o));
      match o
      case Success(c) => r' == r.(status := Succeeded, content := Some(c.content), model := c.model,
                                  promptTokens := c.promptTokens, completionTokens := c.completionTokens)
      case Failed(e) => r' == r.(status := Status.Failed, errorCode := Some(e.code), errorMessage := Some(e.message))
      case Crashed => r' == r
  {
    hide AssignAll;
    var fs := CompletionFields(o);
    match o {
      case Success(c) =>
        AssignThree(r, fs[0], fs[1], fs[2]);
        AssignLast(r, [fs[0], fs[1], fs[2]], fs[3]);
        AssignLast(r, [fs[0], fs[1], fs[2]] + [fs[3]], fs[4]);
        assert [fs[0], fs[1], fs[2]] + [fs[3]] + [fs[4]] == fs;
      case Failed(e) =>
        AssignThree(r, fs[0], fs[1], fs[2]);
      case Crashed =>
        AssignNone(r);
    }
  }

  lemma AssignNone(r: Row)
    ensures AssignAll(r, []) == r
  {
  }

  /** The row of a tried delivery, and of a started job. */
  lemma AssignDelivery(r: Row, d: Outcome<()>, attempts: int, at: real)
    ensures var r' := AssignAll(r, DeliveryFields(d, attempts, at));
      match d
      case Success(_) => r' == r.(deliveryAttempts := attempts, deliveredAt := Some(at))
      case Failed(_) => r' == r.(deliveryAttempts := attempts)
      case Crashed => r' == r
    ensures AssignAll(r, STARTED) == r.(status := Running)
  {
    hide AssignAll;
    AssignOne(r, SetStatus(Running));
    match d {
      case Success(_) => AssignTwo(r, SetDeliveryAttempts(attempts), SetDeliveredAt(at));
      case Failed(_) => AssignOne(r, SetDeliveryAttempts(attempts));
      case Crashed => AssignNone(r);
    }
  }
}
