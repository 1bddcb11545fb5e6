/** The message vocabulary shared by the state machine and both loops, and the error variants. */
module Types {
  import opened OneShot

  newtype u64 = x: int | 0 <= x < 0x1_0000_0000_0000_0000

  /** What arrives on the broadcast stream. */
  datatype IncomingMessage = ActionRequest | Challenge(nonce: u64)

  /** What the loops forward to their sinks. */
  datatype OutgoingMessage = ActionCompleted | ActionFailed | ChallengeResponse(nonce: u64)

  /** The notification handed to a subscriber; it carries the sender for the subscriber's one answer. */
  datatype RequestMessage = ActionRequest(responseTx: Sender<ResponseMessage>)

  /** The subscriber's verdict on an action request. */
  datatype ResponseMessage = Completed | Failed

  /** A registration: the sender on which the subscriber wants to be notified. */
  datatype Subscription = Subscription(tx: Sender<RequestMessage>)

  /**
   * The five failure variants. Only the undelivered payloads are kept:
   * the request that could not be delivered, and the outgoing message the
   * closed sink refused.
   */
  datatype Error =
    | SendActionEventFailed(msg: RequestMessage)
    | NoSenderRegistered
    | NoHandlerRegistered(undelivered: OutgoingMessage)
    | ResponseListening
    | SubscriptionListening
}
