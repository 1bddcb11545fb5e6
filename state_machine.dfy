/**
 * The request state machine. Each state is its own type and each transition
 * takes the handler of one state and gives back the handler of the next, so a
 * transition called out of order does not type-check:
 * Idle --Subscribe--> Active --HandleRequest--> ActionPending --UntilRequestMessage--> Idle.
 */
module StateMachine {
  import opened Wrappers
  import opened OneShot
  import opened Types

  /** Idle holds nothing. */
  datatype Idle = Idle

  /** Active holds the sender on which the subscriber will be notified. */
  datatype Active = Active(tx: Sender<RequestMessage>)

  /** ActionPending holds the receiver on which the subscriber's answer arrives. */
  datatype ActionPending = ActionPending(rx: Receiver<ResponseMessage>)

  datatype MessageHandler<State> = MessageHandler(state: State)

  /** The initial handler. */
  function Default(): MessageHandler<Idle>
  {
    MessageHandler(Idle)
  }

  /** Idle carries no resources, so every idle handler is the default one. */
  lemma IdleIsDefault(h: MessageHandler<Idle>)
    ensures h == Default()
  {
    match h.state
    case Idle =>
  }

  /** Subscribing stores the notification sender; nothing is sent on it. */
  function Subscribe(h: MessageHandler<Idle>, notificationTx: Sender<RequestMessage>): (a: MessageHandler<Active>)
    ensures a.state.tx == notificationTx
  {
    MessageHandler(Active(notificationTx))
  }

  /**
   * Creates a fresh response channel and notifies the subscriber with the
   * request carrying its sender. If the subscriber's receiver is gone the
   * request is handed back inside the error and the response receiver is dropped.
   */
  method HandleRequest(h: MessageHandler<Active>) returns (r: Result<MessageHandler<ActionPending>, Error>)
    requires h.state.tx.chan.senderAlive && h.state.tx.chan.value.None?
    modifies h.state.tx.chan
    ensures !h.state.tx.chan.senderAlive
    ensures h.state.tx.chan.receiverAlive == old(h.state.tx.chan.receiverAlive)
    ensures r.Ok? <==> old(h.state.tx.chan.receiverAlive)
    ensures r.Ok? ==>
      var response := r.value.state.rx.chan;
      fresh(response) && response.value.None? && response.senderAlive && response.receiverAlive &&
      h.state.tx.chan.value == Some(RequestMessage.ActionRequest(Sender(response)))
    ensures r.Err? ==>
      h.state.tx.chan.value.None? && r.error.SendActionEventFailed? &&
      var response := r.error.msg.responseTx.chan;
      fresh(response) && response.value.None? && response.senderAlive && !response.receiverAlive
  {
    var sender := h.state.tx;
    var responseTx, responseRx := NewChannel<ResponseMessage>();
    var sent := sender.chan.Send(RequestMessage.ActionRequest(responseTx));
    if sent.Err? {
      responseRx.chan.DropReceiver();
      return Err(SendActionEventFailed(sent.error));
    }
    return Ok(MessageHandler(ActionPending(responseRx)));
  }

  /** The subscriber's verdict as the outgoing message forwarded downstream. */
  function ToOutgoing(response: ResponseMessage): (m: OutgoingMessage)
    ensures m == ActionCompleted <==> response == Completed
    ensures m == ActionFailed <==> response == Failed
  {
    match response
    case Completed => ActionCompleted
    case Failed => ActionFailed
  }

  /** What awaiting the response receiver yields: the verdict, or an error when the sender was dropped unused. */
  function Received(slot: Option<ResponseMessage>): Result<OutgoingMessage, Error>
  {
    match slot
    case None => Err(ResponseListening)
    case Some(response) => Ok(ToOutgoing(response))
  }

  /**
   * Awaits the subscriber's answer, consuming the receiver, and returns the
   * outgoing message or error together with a fresh idle handler, whatever the outcome.
   */
  method UntilRequestMessage(h: MessageHandler<ActionPending>) returns (message: Result<OutgoingMessage, Error>, handler: MessageHandler<Idle>)
    requires h.state.rx.chan.receiverAlive && !h.state.rx.chan.senderAlive
    modifies h.state.rx.chan
    ensures !h.state.rx.chan.receiverAlive && !h.state.rx.chan.senderAlive && h.state.rx.chan.value == old(h.state.rx.chan.value)
    ensures old(h.state.rx.chan.value) == None ==> message == Err(ResponseListening)
    ensures old(h.state.rx.chan.value) == Some(Completed) ==> message == Ok(ActionCompleted)
    ensures old(h.state.rx.chan.value) == Some(Failed) ==> message == Ok(ActionFailed)
    ensures message == Received(old(h.state.rx.chan.value))
    ensures handler == Default()
  {
    var rx := h.state.rx;
    var response := rx.chan.Recv();
    if response.None? {
      return Err(ResponseListening), Default();
    }
    match response.value
    case Completed =>
      return Ok(ActionCompleted), Default();
    case Failed =>
      return Ok(ActionFailed), Default();
  }

  /** What a subscriber does with the request it was notified of: answer once, or drop the handle. */
  datatype Answer = Reply(response: ResponseMessage) | HangUp

  /** The slot contents an answer leaves behind on a live response channel. */
  function Delivered(a: Answer): Option<ResponseMessage>
  {
    match a
    case Reply(response) => Some(response)
    case HangUp => None
  }

  /** The subscriber's side: take the response sender and either answer on it or drop it. */
  method Respond(responseTx: Sender<ResponseMessage>, a: Answer)
    requires responseTx.chan.senderAlive && responseTx.chan.value.None? && responseTx.chan.receiverAlive
    modifies responseTx.chan
    ensures !responseTx.chan.senderAlive && responseTx.chan.receiverAlive
    ensures responseTx.chan.value == Delivered(a)
  {
    match a
    case Reply(response) =>
      var sent := responseTx.chan.Send(response);
    case HangUp =>
      responseTx.chan.DropSender();
  }

  /**
   * One whole cycle from a default handler, with the subscriber's notification
   * receiver still listening or already dropped, and the subscriber then giving
   * `answer`. When the notification cannot be delivered the handler is lost
   * with the error (`None`); otherwise the cycle ends on the default handler.
   */
  method Cycle(listening: bool, answer: Answer) returns (message: Result<OutgoingMessage, Error>, handler: Option<MessageHandler<Idle>>)
    ensures listening <==> handler == Some(Default())
    ensures !listening ==> message.Err? && message.error.SendActionEventFailed?
    ensures listening ==> message == Received(Delivered(answer))
  {
    var notifyTx, notifyRx := NewChannel<RequestMessage>();
    if !listening {
      notifyRx.chan.DropReceiver();
    }
    var idle := Default();
    var active := Subscribe(idle, notifyTx);
    assert notifyRx.chan.value.None?;
    var waiting := HandleRequest(active);
    if waiting.Err? {
      return Err(waiting.error), None;
    }
    var event := notifyRx.chan.Recv();
    var responseTx := event.value.responseTx;
    Respond(responseTx, answer);
    var result, reset := UntilRequestMessage(waiting.value);
    return result, Some(reset);
  }
}
