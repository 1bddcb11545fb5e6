/**
 * The action request coordinator. Each cycle takes the next subscription,
 * subscribes, waits for the next action request on the broadcast stream,
 * notifies the subscriber, awaits its answer, forwards the outcome to the
 * sink and resets the handler to idle.
 *
 * The subscription stream and the broadcast stream are sequences read through
 * cursors; running off the end means the stream is closed. The subscriber
 * registered by subscription `k` answers with `AnswerAt(answers, k)`. The
 * sink is the sequence of messages it accepted; its receiver goes away after
 * `sinkAccepts` messages.
 */
module StateHandler {
  import opened Wrappers
  import opened OneShot
  import opened Types
  import opened StateMachine

  /** The index of the first action request at or after `cursor`, if any; everything before it is a challenge. */
  function NextRequest(events: seq<IncomingMessage>, cursor: nat): (r: Option<nat>)
    requires cursor <= |events|
    ensures r.Some? ==> cursor <= r.value < |events| && events[r.value].ActionRequest?
    ensures forall j :: cursor <= j < (if r.Some? then r.value else |events|) ==> events[j].Challenge?
    decreases |events| - cursor
  {
    if cursor == |events| then None
    else if events[cursor].ActionRequest? then Some(cursor)
    else NextRequest(events, cursor + 1)
  }

  /** The number of action requests in `events[cursor..]`. */
  function RequestsFrom(events: seq<IncomingMessage>, cursor: nat): nat
    requires cursor <= |events|
    decreases |events| - cursor
  {
    if cursor == |events| then 0
    else (if events[cursor].ActionRequest? then 1 else 0) + RequestsFrom(events, cursor + 1)
  }

  /** Finding the next action request consumes exactly one of the requests that remain. */
  lemma {:induction false} NextRequestConsumesOne(events: seq<IncomingMessage>, cursor: nat)
    requires cursor <= |events|
    ensures NextRequest(events, cursor).None? <==> RequestsFrom(events, cursor) == 0
    ensures NextRequest(events, cursor).Some? ==>
      RequestsFrom(events, cursor) == 1 + RequestsFrom(events, NextRequest(events, cursor).value + 1)
    decreases |events| - cursor
  {
    if cursor < |events| && events[cursor].Challenge? {
      NextRequestConsumesOne(events, cursor + 1);
    }
  }

  /**
   * Reads the broadcast stream from `cursor` until an action request arrives
   * and returns the advanced cursor; every event skipped is a challenge.
   * Fails when the stream closes first.
   */
  method UntilRequestEvent(events: seq<IncomingMessage>, cursor: nat) returns (r: Result<(), Error>, next: nat)
    requires cursor <= |events|
    ensures cursor <= next <= |events|
    ensures r.Ok? ==> cursor < next && events[next - 1] == IncomingMessage.ActionRequest
    ensures r.Err? ==> r.error == NoSenderRegistered && next == |events|
    ensures forall j :: cursor <= j < (if r.Ok? then next - 1 else next) ==> events[j].Challenge?
    ensures NextRequest(events, cursor) == if r.Ok? then Some(next - 1) else None
  {
    next := cursor;
    while next < |events|
      invariant cursor <= next <= |events|
      invariant forall j :: cursor <= j < next ==> events[j].Challenge?
      invariant NextRequest(events, cursor) == NextRequest(events, next)
    {
      var message := events[next];
      next := next + 1;
      if message.ActionRequest? {
        return Ok(()), next;
      }
    }
    return Err(NoSenderRegistered), next;
  }

  /** The subscriber registered by subscription `k` answers with `answers[k]`; past the end it drops its handle. */
  function AnswerAt(answers: seq<Answer>, k: nat): Answer
  {
    if k < |answers| then answers[k] else HangUp
  }

  /**
   * How a run stops. The request refused by a dropped notification receiver
   * carries a freshly created channel, which no function of the inputs can
   * name, so that stop has a variant of its own.
   */
  datatype Stop = Stopped(error: Error) | NotifyFailed

  /** Whether an actual error is the one a stop describes. */
  predicate Reports(e: Error, stop: Stop)
  {
    match stop
    case Stopped(expected) => e == expected
    case NotifyFailed => e.SendActionEventFailed?
  }

  /** A coordinator run: what the sink accepted, how many subscribers were notified, and how it stopped. */
  datatype Run = Run(sent: seq<OutgoingMessage>, notified: nat, stop: Stop)

  /** The run that first forwards `sent`, one message per completed cycle, and then goes on as `rest`. */
  function After(sent: seq<OutgoingMessage>, rest: Run): Run
  {
    Run(sent + rest.sent, |sent| + rest.notified, rest.stop)
  }

  /**
   * How many subscriptions the run took from the subscription stream: one per
   * completed cycle, plus the one whose cycle failed unless the run stopped
   * on the exhausted subscription stream.
   */
  function Taken(run: Run): nat
  {
    if run.stop == Stopped(SubscriptionListening) then |run.sent| else |run.sent| + 1
  }

  /** Completed cycles can be accounted for one batch after another. */
  lemma AfterAfter(done: seq<OutgoingMessage>, more: seq<OutgoingMessage>, rest: Run)
    ensures After(done, After(more, rest)) == After(done + more, rest)
  {
  }

  /**
   * How one cycle ends before anything reaches the sink: either the outcome
   * to forward, with the broadcast cursor just past the request it consumed,
   * or a stop, with the number of subscribers notified on the way.
   */
  datatype Outcome = Forward(message: OutgoingMessage, next: nat) | Halt(notified: nat, stop: Stop)

  /**
   * One cycle up to the outcome to forward, for a subscriber that still holds
   * its notification receiver when `listening` and answers `answer`, with the
   * broadcast stream at `cursor`.
   */
  function CycleOutcome(listening: bool, answer: Answer, events: seq<IncomingMessage>, cursor: nat): (o: Outcome)
    requires cursor <= |events|
    ensures o.Forward? <==> NextRequest(events, cursor).Some? && listening && answer.Reply?
    ensures o.Forward? ==> cursor < o.next <= |events| && o.message == ToOutgoing(answer.response)
    ensures o.Halt? ==> (o.notified == 1 <==> NextRequest(events, cursor).Some? && listening)
  {
    if NextRequest(events, cursor).None? then Halt(0, Stopped(NoSenderRegistered))
    else if !listening then Halt(0, NotifyFailed)
    else if answer.HangUp? then Halt(1, Stopped(ResponseListening))
    else Forward(ToOutgoing(answer.response), NextRequest(events, cursor).value + 1)
  }

  /** Whether a cycle ending this way notified its subscriber. */
  predicate Notifies(o: Outcome)
  {
    o.Forward? || o.notified == 1
  }

  /** The cycle of subscription `k`. */
  function CycleAt(open: seq<bool>, answers: seq<Answer>, events: seq<IncomingMessage>, k: nat, cursor: nat): Outcome
    requires k < |open| && cursor <= |events|
  {
    CycleOutcome(open[k], AnswerAt(answers, k), events, cursor)
  }

  /**
   * The coordinator from subscription `k` and broadcast cursor `cursor` on,
   * where `open[k]` tells whether subscriber `k` still listens for its
   * notification and the sink still accepts `sinkAccepts` messages.
   */
  function Coordinate(open: seq<bool>, answers: seq<Answer>, events: seq<IncomingMessage>, sinkAccepts: nat, k: nat, cursor: nat): Run
    requires k <= |open| && cursor <= |events|
    decreases |open| - k
  {
    if k == |open| then Run([], 0, Stopped(SubscriptionListening))
    else match CycleAt(open, answers, events, k, cursor)
      case Halt(notified, stop) => Run([], notified, stop)
      case Forward(message, next) =>
        if sinkAccepts == 0 then Run([], 1, Stopped(NoHandlerRegistered(message)))
        else After([message], Coordinate(open, answers, events, sinkAccepts - 1, k + 1, next))
  }

  /** The cases in which a cycle completes and the run goes on with the next subscription. */
  predicate Completes(open: seq<bool>, answers: seq<Answer>, events: seq<IncomingMessage>, sinkAccepts: nat, k: nat, cursor: nat)
    requires k <= |open| && cursor <= |events|
  {
    k < |open| && CycleAt(open, answers, events, k, cursor).Forward? && sinkAccepts > 0
  }

  /** The sink never receives more than one message per subscription, nor more than it accepts. */
  lemma {:induction false} ForwardedAtMostOnePerSubscription(open: seq<bool>, answers: seq<Answer>, events: seq<IncomingMessage>, sinkAccepts: nat, k: nat, cursor: nat)
    requires k <= |open| && cursor <= |events|
    ensures |Coordinate(open, answers, events, sinkAccepts, k, cursor).sent| <= |open| - k
    ensures |Coordinate(open, answers, events, sinkAccepts, k, cursor).sent| <= sinkAccepts
    decreases |open| - k
  {
    if Completes(open, answers, events, sinkAccepts, k, cursor) {
      ForwardedAtMostOnePerSubscription(open, answers, events, sinkAccepts - 1, k + 1, CycleAt(open, answers, events, k, cursor).next);
    }
  }

  /**
   * The `j`-th message the sink receives is the verdict of the `j`-th
   * subscriber, who answered rather than dropping its handle.
   */
  lemma {:induction false} ForwardedIsVerdict(open: seq<bool>, answers: seq<Answer>, events: seq<IncomingMessage>, sinkAccepts: nat, k: nat, cursor: nat, j: nat)
    requires k <= |open| && cursor <= |events|
    requires j < |Coordinate(open, answers, events, sinkAccepts, k, cursor).sent|
    ensures AnswerAt(answers, k + j).Reply?
    ensures Coordinate(open, answers, events, sinkAccepts, k, cursor).sent[j] == ToOutgoing(AnswerAt(answers, k + j).response)
    decreases j
  {
    if j > 0 {
      ForwardedIsVerdict(open, answers, events, sinkAccepts - 1, k + 1, CycleAt(open, answers, events, k, cursor).next, j - 1);
      assert (k + 1) + (j - 1) == k + j;
    }
  }

  /**
   * A notification is only sent after an action request has been consumed:
   * there are never more notified subscribers than action requests on the stream.
   */
  lemma {:induction false} NotifiedNeedsRequests(open: seq<bool>, answers: seq<Answer>, events: seq<IncomingMessage>, sinkAccepts: nat, k: nat, cursor: nat)
    requires k <= |open| && cursor <= |events|
    ensures Coordinate(open, answers, events, sinkAccepts, k, cursor).notified <= RequestsFrom(events, cursor)
    decreases |open| - k
  {
    NextRequestConsumesOne(events, cursor);
    if Completes(open, answers, events, sinkAccepts, k, cursor) {
      NotifiedNeedsRequests(open, answers, events, sinkAccepts - 1, k + 1, CycleAt(open, answers, events, k, cursor).next);
    }
  }

  /**
   * Each completed cycle forwards exactly one message; a subscriber is
   * notified without a message being forwarded only in the cycle that stops
   * on its dropped answer or on the closed sink, and then the sink has taken
   * all it accepts.
   */
  lemma {:induction false} OneMessagePerCycle(open: seq<bool>, answers: seq<Answer>, events: seq<IncomingMessage>, sinkAccepts: nat, k: nat, cursor: nat)
    requires k <= |open| && cursor <= |events|
    ensures var run := Coordinate(open, answers, events, sinkAccepts, k, cursor);
      var unfinished := run.stop == Stopped(ResponseListening) || (run.stop.Stopped? && run.stop.error.NoHandlerRegistered?);
      run.notified == |run.sent| + (if unfinished then 1 else 0) &&
      (run.stop.Stopped? && run.stop.error.NoHandlerRegistered? ==>
        |run.sent| == sinkAccepts && AnswerAt(answers, k + sinkAccepts).Reply? &&
        run.stop.error.undelivered == ToOutgoing(AnswerAt(answers, k + sinkAccepts).response))
    decreases |open| - k
  {
    if Completes(open, answers, events, sinkAccepts, k, cursor) {
      OneMessagePerCycle(open, answers, events, sinkAccepts - 1, k + 1, CycleAt(open, answers, events, k, cursor).next);
      assert k + sinkAccepts == (k + 1) + (sinkAccepts - 1);
    }
  }

  /**
   * Each way a run stops is explained by its input: the subscription stream
   * runs out exactly when every subscription was served; a failed
   * notification means the next subscriber had dropped its receiver; a
   * dropped answer means that subscriber listened and then hung up; and a
   * closed broadcast stream means every remaining action request went to a
   * served subscriber, while a subscription was still waiting.
   */
  lemma {:induction false} StopExplained(open: seq<bool>, answers: seq<Answer>, events: seq<IncomingMessage>, sinkAccepts: nat, k: nat, cursor: nat)
    requires k <= |open| && cursor <= |events|
    ensures var run := Coordinate(open, answers, events, sinkAccepts, k, cursor);
      var next := k + |run.sent|;
      (run.stop == Stopped(SubscriptionListening) <==> next == |open|) &&
      (run.stop == NotifyFailed ==> next < |open| && !open[next]) &&
      (run.stop == Stopped(ResponseListening) ==> next < |open| && open[next] && AnswerAt(answers, next).HangUp?) &&
      (run.stop == Stopped(NoSenderRegistered) ==> next < |open| && RequestsFrom(events, cursor) == |run.sent|)
    decreases |open| - k
  {
    NextRequestConsumesOne(events, cursor);
    if Completes(open, answers, events, sinkAccepts, k, cursor) {
      StopExplained(open, answers, events, sinkAccepts - 1, k + 1, CycleAt(open, answers, events, k, cursor).next);
    }
  }

  /**
   * Only a subscription taken from the stream can be notified, and no more
   * subscriptions are taken than the stream holds.
   */
  lemma {:induction false} TakenBounds(open: seq<bool>, answers: seq<Answer>, events: seq<IncomingMessage>, sinkAccepts: nat, k: nat, cursor: nat)
    requires k <= |open| && cursor <= |events|
    ensures var run := Coordinate(open, answers, events, sinkAccepts, k, cursor);
      run.notified <= Taken(run) <= |open| - k
    decreases |open| - k
  {
    if Completes(open, answers, events, sinkAccepts, k, cursor) {
      TakenBounds(open, answers, events, sinkAccepts - 1, k + 1, CycleAt(open, answers, events, k, cursor).next);
    }
  }

  /**
   * When every remaining subscriber listens and answers, the sink accepts a
   * message per subscriber and the stream holds a request per subscriber,
   * every subscriber's verdict is forwarded and the run stops only when the
   * subscription stream closes.
   */
  lemma {:induction false} ServesEverySubscriber(open: seq<bool>, answers: seq<Answer>, events: seq<IncomingMessage>, sinkAccepts: nat, k: nat, cursor: nat)
    requires k <= |open| && cursor <= |events|
    requires forall j :: k <= j < |open| ==> open[j] && AnswerAt(answers, j).Reply?
    requires sinkAccepts >= |open| - k && RequestsFrom(events, cursor) >= |open| - k
    ensures var run := Coordinate(open, answers, events, sinkAccepts, k, cursor);
      run.stop == Stopped(SubscriptionListening) && |run.sent| == |open| - k
    decreases |open| - k
  {
    NextRequestConsumesOne(events, cursor);
    if k < |open| {
      ServesEverySubscriber(open, answers, events, sinkAccepts - 1, k + 1, CycleAt(open, answers, events, k, cursor).next);
    }
  }

  /**
   * A single listening subscriber that answers `response`, a broadcast stream
   * holding an action request among its challenges and a sink that takes a
   * message: the sink receives the verdict and the coordinator then waits on
   * the closed subscription stream.
   */
  lemma OneSubscriberOneRequest(response: ResponseMessage, events: seq<IncomingMessage>, sinkAccepts: nat)
    requires RequestsFrom(events, 0) > 0 && sinkAccepts > 0
    ensures Coordinate([true], [Reply(response)], events, sinkAccepts, 0, 0) ==
      Run([ToOutgoing(response)], 1, Stopped(SubscriptionListening))
  {
    NextRequestConsumesOne(events, 0);
  }

  /** The objects the coordinator may change: the subscribers' notification channels. */
  function Channels(subscription: seq<Subscription>): set<Channel<RequestMessage>>
  {
    set i | 0 <= i < |subscription| :: subscription[i].tx.chan
  }

  /** Each subscription owns its own notification sender: no two share a channel. */
  predicate Owned(subscription: seq<Subscription>)
  {
    forall i, j :: 0 <= i < |subscription| && 0 <= j < |subscription| && i != j ==> subscription[i].tx.chan != subscription[j].tx.chan
  }

  /**
   * The state of a subscriber's notification channel: it holds a request
   * exactly when the subscriber was `notified`, its sender is gone exactly
   * when the subscription was `taken`, and while it holds nothing its
   * receiver is alive exactly when the subscriber is `listening`.
   */
  ghost predicate Notification(c: Channel<RequestMessage>, notified: bool, taken: bool, listening: bool)
    reads c
  {
    (c.value.Some? <==> notified) && (c.senderAlive <==> !taken) && (c.value.None? ==> c.receiverAlive == listening)
  }

  /**
   * One cycle up to the outcome to forward: subscribe with the subscriber's
   * notification sender, wait for the next action request, notify the
   * subscriber, let it answer `answer`, and await that answer. The handler
   * comes back idle.
   */
  method ServeSubscriber(idle: MessageHandler<Idle>, sender: Sender<RequestMessage>, answer: Answer, events: seq<IncomingMessage>, cursor: nat)
    returns (message: Result<OutgoingMessage, Error>, next: nat, handler: MessageHandler<Idle>)
    requires cursor <= |events|
    requires sender.chan.senderAlive && sender.chan.value.None?
    modifies sender.chan
    ensures next <= |events| && handler == Default()
    ensures !sender.chan.senderAlive
    ensures sender.chan.receiverAlive <==> old(sender.chan.receiverAlive) && sender.chan.value.None?
    ensures Notification(sender.chan, Notifies(CycleOutcome(old(sender.chan.receiverAlive), answer, events, cursor)), true,
                         old(sender.chan.receiverAlive))
    ensures message.Err? && message.error.SendActionEventFailed? ==>
      var c := message.error.msg.responseTx.chan;
      fresh(c) && c.value.None? && c.senderAlive && !c.receiverAlive
    ensures match CycleOutcome(old(sender.chan.receiverAlive), answer, events, cursor)
      case Forward(forwarded, after) => message == Ok(forwarded) && next == after && sender.chan.value.Some?
      case Halt(notified, stop) => message.Err? && Reports(message.error, stop) && (sender.chan.value.Some? <==> notified == 1)
  {
    var active := Subscribe(idle, sender);

    var event;
    event, next := UntilRequestEvent(events, cursor);
    if event.Err? {
      // Leaving the cycle drops the active handler and the sender it holds.
      sender.chan.DropSender();
      return Err(event.error), next, Default();
    }

    var waiting := HandleRequest(active);
    if waiting.Err? {
      return Err(waiting.error), next, Default();
    }

    // The subscriber takes the request and answers on the response sender it carries.
    var request := sender.chan.Recv();
    Respond(request.value.responseTx, answer);

    message, handler := UntilRequestMessage(waiting.value);
  }

  /**
   * The coordinator loop. It never returns `Ok`. The sink receives exactly
   * what `Coordinate` forwards and the loop stops with the error it names;
   * subscriber `i` has been notified exactly when `i` is among the notified
   * ones, its notification sender is consumed exactly when its subscription
   * was taken, and while it holds no notification its receiver is as it was.
   * `open` records which subscribers hold their notification receiver when
   * the loop starts.
   */
  method RunUntilError(subscription: seq<Subscription>, sinkAccepts: nat, events: seq<IncomingMessage>, answers: seq<Answer>,
                       ghost open: seq<bool>)
    returns (sent: seq<OutgoingMessage>, r: Result<(), Error>)
    requires Owned(subscription) && |open| == |subscription|
    requires forall i :: 0 <= i < |subscription| ==> Notification(subscription[i].tx.chan, false, false, open[i])
    modifies Channels(subscription)
    ensures r.Err?
    ensures var run := Coordinate(open, answers, events, sinkAccepts, 0, 0);
      sent == run.sent && Reports(r.error, run.stop) &&
      forall i :: 0 <= i < |subscription| ==>
        Notification(subscription[i].tx.chan, i < run.notified, i < Taken(run), open[i])
    ensures r.Err? && r.error.SendActionEventFailed? ==>
      var c := r.error.msg.responseTx.chan;
      fresh(c) && c.value.None? && c.senderAlive && !c.receiverAlive
  {
    ghost var run := Coordinate(open, answers, events, sinkAccepts, 0, 0);
    var idle := Default();
    var k: nat, cursor: nat := 0, 0;
    sent := [];
    while k < |subscription|
      invariant k <= |subscription| && cursor <= |events| && |sent| == k && k <= sinkAccepts
      invariant idle == Default()
      invariant run == After(sent, Coordinate(open, answers, events, sinkAccepts - k, k, cursor))
      invariant forall i :: 0 <= i < |subscription| ==> Notification(subscription[i].tx.chan, i < k, i < k, open[i])
      decreases |subscription| - k
    {
      assert subscription[k].tx.chan in Channels(subscription);
      var message, next, handler := ServeSubscriber(idle, subscription[k].tx, AnswerAt(answers, k), events, cursor);
      if message.Err? {
        assert Taken(run) == k + 1;
        return sent, Err(message.error);
      }
      if |sent| == sinkAccepts {
        assert Taken(run) == k + 1;
        return sent, Err(NoHandlerRegistered(message.value));
      }
      AfterAfter(sent, [message.value], Coordinate(open, answers, events, sinkAccepts - k - 1, k + 1, next));
      sent := sent + [message.value];

      // Reset the handler to idle for the next cycle.
      idle := handler;
      k, cursor := k + 1, next;
    }
    assert Taken(run) == k;
    return sent, Err(SubscriptionListening);
  }
}
