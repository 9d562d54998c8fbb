/** Webhook delivery: src/services/webhooks.py. Every attempt signs and posts the same body; the retry
    policy decides how often. */
module Webhooks {
  import opened Errors
  import opened Retrying
  import opened Signing
  import opened JobModel

  /** What the receiver did: could not be reached, answered with a status, or made the client raise any
      other exception. */
  datatype Callback = Lost | Answer(status: int) | Broken

  function Judged(reply: Callback): Outcome<()> {
    match reply
    case Lost => Outcome.Failed(DeliveryFailed("Could not reach the callback URL.", true, map[]))
    case Answer(status) =>
      if 400 <= status <= 599 then
        Outcome.Failed(DeliveryFailed("Callback returned " + PrintInt(status) + ".", status >= 500 || status == 429,
                                      map["callback_status" := status]))
      else Outcome.Success(())
    case Broken => Outcome.Crashed
  }

  /** The receiver was not reached, asked us to slow down, or failed on its own side; a rejection is their bug
      and final. */
  predicate Blip(reply: Callback) {
    reply.Lost? || (reply.Answer? && (reply.status == 429 || 500 <= reply.status <= 599))
  }

  predicate Accepts(reply: Callback) {
    reply.Answer? && !(400 <= reply.status <= 599)
  }

  /** Exactly the blips are worth repeating, and only an answer that is no error is a delivery. */
  lemma OnlyBlipsAreRepeated(reply: Callback)
    ensures Judged(reply).Retryable() <==> Blip(reply)
    ensures Judged(reply).Success? <==> Accepts(reply)
    ensures Judged(reply).Crashed? <==> reply.Broken?
  {
  }

  /** What a failed POST is reported as: one code and status, no wait to ask for, and the receiver's status if it
      gave one. */
  lemma FailureIsNamed(reply: Callback)
    requires Judged(reply).Failed?
    ensures var e := Judged(reply).error;
            && e.code == "webhook_delivery_failed" && e.statusCode == 502 && e.retryAfter == None
            && e.details == (if reply.Lost? then map[] else map["callback_status" := reply.status])
            && (reply.Lost? ==> e.message == "Could not reach the callback URL.")
            && (reply.Answer? ==> e.message == "Callback returned " + PrintInt(reply.status) + ".")
  {
  }

  function DeliveryFailed(message: string, retryable: bool, details: map<string, int>): AppError {
    AppError("webhook_delivery_failed", message, 502, retryable, None, details)
  }

  /** One POST as the receiver gets it, and how it went. */
  datatype Post = Post(url: string, timestamp: string, signature: string, body: Bytes, outcome: Outcome<()>)

  /** The receiver and the passing of time, by number of POSTs made so far. */
  datatype Receiver = Receiver(
    reply: nat -> Callback,
    latency: nat -> real,
    nap: (nat, real) -> Nap,
    jitter: nat -> real,
    wall: nat -> int)

  datatype Desk = Desk(now: real, posts: seq<Post>)

  function PostOnce(mac: Mac, secret: Bytes, url: string, body: Bytes, receiver: Receiver, s: Desk)
    : (Desk, Outcome<()>)
  {
    var n := |s.posts|;
    var o := Judged(receiver.reply(n));
    var t := receiver.wall(n);
    (Desk(s.now + receiver.latency(n), s.posts + [Post(url, PrintInt(t), Sign(mac, secret, t, body), body, o)]), o)
  }

  function Courier(mac: Mac, secret: Bytes, url: string, body: Bytes, receiver: Receiver): World<Desk, ()> {
    World(
      s => PostOnce(mac, secret, url, body, receiver, s),
      (s: Desk, d: real) => (s.(now := s.now + receiver.nap(|s.posts|, d).length), receiver.nap(|s.posts|, d).whole),
      (s: Desk) => s.now,
      (s: Desk) => receiver.jitter(|s.posts|))
  }

  /** POST number `n` as it should be: to this URL, with this body, bearing the wall-clock time of its own attempt, and
      verifiable by the receiver; and its outcome is what the receiver did then. */
  ghost predicate Genuine(mac: Mac, secret: Bytes, url: string, body: Bytes, receiver: Receiver, n: nat, post: Post) {
    && post.url == url && post.body == body
    && ParseInt(post.timestamp) == Some(receiver.wall(n))
    && Verify(mac, secret, post.timestamp, post.body, post.signature) == Some(true)
    && (post.outcome.Success? <==> Accepts(receiver.reply(n)))
    && (post.outcome.Retryable() <==> Blip(receiver.reply(n)))
    && (post.outcome.Crashed? <==> receiver.reply(n).Broken?)
    && post.outcome == Judged(receiver.reply(n))
  }

  /** These POSTs are the ones from number `n` on, and `outcomes` is how they went. */
  ghost predicate Faithful(mac: Mac, secret: Bytes, url: string, body: Bytes, receiver: Receiver, n: nat,
                           posts: seq<Post>, outcomes: seq<Outcome<()>>)
  {
    && |posts| == |outcomes|
    && forall i | 0 <= i < |posts| ::
         Genuine(mac, secret, url, body, receiver, n + i, posts[i]) && posts[i].outcome == outcomes[i]
  }

  /** One attempt posts once, and the receiver can verify it. */
  lemma OnePost(mac: Mac, secret: Bytes, url: string, body: Bytes, receiver: Receiver, s: Desk)
    ensures var (s1, o) := PostOnce(mac, secret, url, body, receiver, s);
            var n := |s.posts|;
            && s1.posts == s.posts + s1.posts[n..]
            && Faithful(mac, secret, url, body, receiver, n, s1.posts[n..], [o])
  {
    hide Verify, Sign, Judged, Blip, Accepts, ParseInt, PrintInt;
    OnlyBlipsAreRepeated(receiver.reply(|s.posts|));
    VerifyAcceptsSigned(mac, secret, receiver.wall(|s.posts|), body);
    ParsePrint(receiver.wall(|s.posts|));
    var (s1, o) := PostOnce(mac, secret, url, body, receiver, s);
    assert s1.posts[|s.posts|..] == [s1.posts[|s.posts|]];
  }

  lemma FaithfulAppend(
      mac: Mac, secret: Bytes, url: string, body: Bytes, receiver: Receiver, n: nat, posts: seq<Post>,
      os: seq<Outcome<()>>, posts': seq<Post>, os': seq<Outcome<()>>)
    requires Faithful(mac, secret, url, body, receiver, n, posts, os)
    requires Faithful(mac, secret, url, body, receiver, n + |posts|, posts', os')
    ensures Faithful(mac, secret, url, body, receiver, n, posts + posts', os + os')
  {
    hide Genuine;
    forall i | 0 <= i < |posts'|
      ensures Genuine(mac, secret, url, body, receiver, n + (|posts| + i), posts'[i])
    {
      assert n + (|posts| + i) == n + |posts| + i;
    }
  }

  lemma {:induction false} PostsMatchAttempts(
      mac: Mac, secret: Bytes, url: string, body: Bytes, receiver: Receiver, p: Policy, started: real,
      done: nat, s: Desk)
    requires done < p.Cap()
    ensures var r := Attempts(p, Courier(mac, secret, url, body, receiver), started, done, s);
            && |s.posts| <= |r.final.posts|
            && r.final.posts == s.posts + r.final.posts[|s.posts|..]
            && Faithful(mac, secret, url, body, receiver, |s.posts|, r.final.posts[|s.posts|..], r.outcomes)
    decreases p.maxAttempts - done
  {
    hide Faithful, PostOnce, DelayFor;
    var w := Courier(mac, secret, url, body, receiver);
    var n := |s.posts|;
    var (s1, o) := w.attempt(s);
    assert w.attempt(s) == PostOnce(mac, secret, url, body, receiver, s);
    OnePost(mac, secret, url, body, receiver, s);
    var verdict := Judge(p, done + 1, o, w.clock(s1) - started, w.jitter(s1));
    if verdict.Wait? {
      var (s2, whole) := w.sleep(s1, verdict.delay);
      if !whole {
        return;
      }
      var rest := Attempts(p, w, started, done + 1, s2);
      PostsMatchAttempts(mac, secret, url, body, receiver, p, started, done + 1, s2);
      var mine, theirs := s1.posts[n..], rest.final.posts[|s1.posts|..];
      FaithfulAppend(mac, secret, url, body, receiver, n, mine, [o], theirs, rest.outcomes);
      assert rest.final.posts == s.posts + (mine + theirs);
      assert rest.final.posts[n..] == mine + theirs;
    }
  }

  /** The POSTs of a whole delivery are its attempts, one by one. */
  lemma PostsAreAttempts(mac: Mac, secret: Bytes, url: string, body: Bytes, receiver: Receiver, p: Policy, start: real)
    ensures var r := Retry(p, Courier(mac, secret, url, body, receiver), Desk(start, []));
            Faithful(mac, secret, url, body, receiver, 0, r.final.posts, r.outcomes)
  {
    hide Attempts, Faithful;
    var w, s := Courier(mac, secret, url, body, receiver), Desk(start, []);
    PostsMatchAttempts(mac, secret, url, body, receiver, p, start, 0, s);
    var r := Attempts(p, w, start, 0, s);
    assert w.clock(s) == start && r.final.posts[0..] == r.final.posts;
  }

  lemma {:induction false} PostsGrow(
      mac: Mac, secret: Bytes, url: string, body: Bytes, receiver: Receiver, p: Policy, start: real, i: nat)
    requires i < |Retry(p, Courier(mac, secret, url, body, receiver), Desk(start, [])).starts|
    ensures var r := Retry(p, Courier(mac, secret, url, body, receiver), Desk(start, []));
            |r.starts[i].posts| == i && r.starts[0] == Desk(start, [])
    decreases i
  {
    hide Retry, DelayFor, Sign, Judged;
    var w := Courier(mac, secret, url, body, receiver);
    RetryIsATrace(p, w, Desk(start, []));
    if i > 0 {
      PostsGrow(mac, secret, url, body, receiver, p, start, i - 1);
      var r := Retry(p, w, Desk(start, []));
      assert Leads(p, w, w.clock(Desk(start, [])), 0 + (i - 1) + 1, r.starts[i - 1], r.starts[i], r.waits[i - 1], true);
    }
  }

  /** A delivery attempt by attempt: the i-th lasts as long as the receiver's i-th answer took, and the jitter drawn and
      the sleep after it are the next ones. */
  lemma DeliveryMeetsItsReceiver(
      mac: Mac, secret: Bytes, url: string, body: Bytes, receiver: Receiver, p: Policy, start: real, i: nat)
    requires i < |Retry(p, Courier(mac, secret, url, body, receiver), Desk(start, [])).starts|
    ensures var r := Retry(p, Courier(mac, secret, url, body, receiver), Desk(start, []));
            var n, done := |r.starts|, r.starts[i].now + receiver.latency(i);
            && r.starts[0].now == start && |r.waits| == n - 1
            && (i < n - 1 ==>
                  && r.starts[i + 1].now == done + receiver.nap(i + 1, r.waits[i]).length
                  && receiver.nap(i + 1, r.waits[i]).whole
                  && r.waits[i] == DelayFor(p, i + 1, None, receiver.jitter(i + 1)))
            && (i == n - 1 && r.why.TornDown? ==>
                  && r.final.now == done + receiver.nap(n, r.why.asked).length
                  && !receiver.nap(n, r.why.asked).whole)
            && (i == n - 1 && !r.why.TornDown? ==> r.final.now == done)
  {
    hide Retry, DelayFor, Sign, Judged;
    var w, s := Courier(mac, secret, url, body, receiver), Desk(start, []);
    RetryIsATrace(p, w, s);
    PostsGrow(mac, secret, url, body, receiver, p, start, i);
    var r := Retry(p, w, s);
    if i < |r.starts| - 1 {
      assert Leads(p, w, w.clock(s), 0 + i + 1, r.starts[i], r.starts[i + 1], r.waits[i], true);
      FailureIsNamed(receiver.reply(i));
    }
  }

  lemma {:induction false} DeliveryTakesTime(
      mac: Mac, secret: Bytes, url: string, body: Bytes, receiver: Receiver, p: Policy, started: real,
      done: nat, s: Desk)
    requires Forward(receiver.latency, receiver.nap)
    ensures s.now <= Attempts(p, Courier(mac, secret, url, body, receiver), started, done, s).final.now
    decreases p.maxAttempts - done
  {
    hide Attempts, Judge, Sign, Judged;
    var w := Courier(mac, secret, url, body, receiver);
    Turn(p, w, started, done, s);
    var (s1, o) := w.attempt(s);
    assert receiver.latency(|s.posts|) >= 0.0;
    var verdict := Judge(p, done + 1, o, w.clock(s1) - started, w.jitter(s1));
    if verdict.Wait? {
      assert receiver.nap(|s1.posts|, verdict.delay).length >= 0.0;
      DeliveryTakesTime(mac, secret, url, body, receiver, p, started, done + 1, w.sleep(s1, verdict.delay).0);
    }
  }

  /** What comes back from a delivery whose last of `n` POSTs ended with `last`. */
  function Reported(last: Outcome<()>, n: nat): Outcome<nat> {
    match last
    case Success(_) => Outcome.Success(n)
    case Failed(e) => Outcome.Failed(e.(details := e.details["attempts" := n]))
    case Crashed => Outcome.Crashed
  }

  /** What comes back from a delivery says how the last of its `n` POSTs went: the number of POSTs if it was accepted,
      and otherwise, inside the error, the number of POSTs and the receiver's status if it gave one. */
  ghost predicate Tells(reply: Callback, n: nat, o: Outcome<nat>) {
    && (o.Success? <==> Accepts(reply)) && (o.Success? ==> o.value == n)
    && (o.Crashed? <==> reply.Broken?)
    && (o.Failed? ==>
          && o.error.code == "webhook_delivery_failed" && o.error.statusCode == 502 && o.error.retryAfter == None
          && (o.error.retryable <==> Blip(reply))
          && o.error.details
             == (if reply.Lost? then map["attempts" := n] else map["callback_status" := reply.status, "attempts" := n])
          && (reply.Lost? ==> o.error.message == "Could not reach the callback URL.")
          && (reply.Answer? ==> o.error.message == "Callback returned " + PrintInt(reply.status) + "."))
  }

  lemma ReportTells(reply: Callback, n: nat)
    ensures Tells(reply, n, Reported(Judged(reply), n))
  {
    OnlyBlipsAreRepeated(reply);
    if Judged(reply).Failed? {
      FailureIsNamed(reply);
    }
    assert "attempts" != "callback_status" by { assert |"attempts"| == 8 && |"callback_status"| == 15; }
    hide Judged, Blip, Accepts, PrintInt;
  }

  class WebhookService {
    const policy: Policy
    const secret: Bytes
    const mac: Mac
    const dump: Payload -> Bytes

    constructor (policy: Policy, secret: Bytes, mac: Mac, dump: Payload -> Bytes)
      ensures this.policy == policy && this.secret == secret && this.mac == mac && this.dump == dump
    {
      this.policy := policy;
      this.secret := secret;
      this.mac := mac;
      this.dump := dump;
    }

    /** An account of a delivery: between one and the allowed number of POSTs, all to the caller's URL, all with
        the payload's body, each with the time of its own attempt, all verifiable; all but the last met a
        receiver that was out of reach, throttling or failing; and the result is the last one's, with the number
        of POSTs - unless the delivery was torn down in a sleep before the next. */
    ghost predicate Delivered(url: string, payload: Payload, receiver: Receiver, o: Outcome<nat>, posts: seq<Post>) {
      && 1 <= |posts| <= policy.Cap()
      && (forall i | 0 <= i < |posts| :: Genuine(mac, secret, url, dump(payload), receiver, i, posts[i]))
      && (forall i | 0 <= i < |posts| - 1 :: Blip(receiver.reply(i)))
      && (|| Tells(receiver.reply(|posts| - 1), |posts|, o)
          || (o.Crashed? && Blip(receiver.reply(|posts| - 1)) && |posts| < policy.Cap()))
    }

    /** The retry loop over the receiver, from a desk with nothing posted yet. */
    ghost function DeliveryLoop(url: string, payload: Payload, receiver: Receiver, start: real)
      : (r: Loop<Desk, ()>)
      ensures r.outcomes != []
    {
      Retry(policy, Courier(mac, secret, url, dump(payload), receiver), Desk(start, []))
    }

    /** Delivers the payload; the number of attempts comes back with success and inside the error. */
    method Deliver(url: string, payload: Payload, receiver: Receiver, start: real)
      returns (o: Outcome<nat>, now: real, ghost posts: seq<Post>)
      requires Forward(receiver.latency, receiver.nap)
      ensures var r := DeliveryLoop(url, payload, receiver, start);
              o == Reported(r.Result(), |r.outcomes|) && Desk(now, posts) == r.final
      ensures Delivered(url, payload, receiver, o, posts) && start <= now
    {
      hide Verify, Attempts, Courier, Blip, Accepts, ParseInt, Tells, Judged;
      var body := dump(payload);
      var world := Courier(mac, secret, url, body, receiver);
      assert world.clock(Desk(start, [])) == start by { ClockOf(mac, secret, url, body, receiver, Desk(start, [])); }
      var desk, last, attempts := Run(policy, world, Desk(start, []));
      PostsAreAttempts(mac, secret, url, body, receiver, policy, start);
      DeliveryTakesTime(mac, secret, url, body, receiver, policy, start, 0, Desk(start, []));
      RetryShape(policy, world, Desk(start, []));
      now, posts := desk.now, desk.posts;
      assert |posts| == attempts;
      ghost var outcomes := DeliveryLoop(url, payload, receiver, start).outcomes;
      forall i | 0 <= i < |posts|
        ensures Genuine(mac, secret, url, body, receiver, i, posts[i])
        ensures i < |posts| - 1 ==> Blip(receiver.reply(i))
      {
        assert Genuine(mac, secret, url, body, receiver, 0 + i, posts[i]) && posts[i].outcome == outcomes[i];
      }
      ReportTells(receiver.reply(attempts - 1), attempts);
      match last {
        case Success(_) => o := Outcome.Success(attempts);
        case Failed(e) => o := Outcome.Failed(e.(details := e.details["attempts" := attempts]));
        case Crashed => o := Outcome.Crashed;
      }
    }
  }

  lemma ClockOf(mac: Mac, secret: Bytes, url: string, body: Bytes, receiver: Receiver, s: Desk)
    ensures Courier(mac, secret, url, body, receiver).clock(s) == s.now
  {
  }
}
