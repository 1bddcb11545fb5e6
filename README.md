# typestate-actor in Dafny

typestate-actor is a small actor that coordinates action requests. A
`MessageHandler` moves through three states, each a type of its own:
- `Idle`.
- `Active`: it holds the one-shot sender on which a subscriber wants to be notified.
- `ActionPending`: it holds the one-shot receiver on which the subscriber's verdict arrives.

Two loops read one broadcast stream of incoming messages:
- The **action request coordinator** takes one subscription per cycle and waits for the next action request. It then notifies the subscriber, awaits its verdict, forwards `ActionCompleted` or `ActionFailed` to a sink, and resets the handler to idle.
- The **challenge responder** answers every `Challenge(n)` with `ChallengeResponse(n)`.

Neither loop ever returns `Ok`; each runs until an error stops it.

The model is organised by module:
- `Wrappers`: `Option` and `Result`.
- `OneShot`: a one-shot channel as a class with one slot and a liveness flag per endpoint.
- `Types`: the message types and the five error variants.
- `StateMachine`: the three states and their transitions. `Subscribe` is a function; `HandleRequest` and `UntilRequestMessage` are methods that take a handler and update the channels it holds.
- `StateHandler`: the coordinator, an imperative loop proved against the pure run function `Coordinate`.
- `ChallengeHandler`: the responder.

Streams are sequences read through a cursor; running off the end means the stream is closed. The sink is the sequence of messages it accepted, and its receiver goes away after `sinkAccepts` messages. Subscriber `k` answers with `answers[k]`, and past the end of `answers` it drops its response sender.

## Model

| member | source | states |
|---|---|---|
| OneShot.NewChannel | src/state_machine.rs:53 | A new response channel is fresh and empty, and both of its endpoints are alive. |
| OneShot.Channel.Send | src/state_machine.rs:54-56 | Sending consumes the sender. While the receiver lives, the value lands in the slot and the result is `Ok`. Otherwise the slot stays empty and the value comes back in `Err`. |
| OneShot.Channel.Recv | src/state_machine.rs:68 | Awaiting consumes the receiver. It yields exactly the slot's contents: `None` when the sender was dropped unused. |
| StateMachine.IdleIsDefault | src/state_machine.rs:27-31 | Every idle handler equals the default one, so two defaults compare equal. |
| StateMachine.Subscribe | src/state_machine.rs:37-44 | Subscribing always succeeds. The resulting `Active` holds exactly the given notification sender, and nothing is sent on it. |
| StateMachine.HandleRequest | src/state_machine.rs:51-60 | With a live notification receiver, the slot holds exactly one `ActionRequest`. That request carries the sender of a fresh response channel, and the returned `ActionPending` holds that channel's receiver. With the receiver dropped, the result is `SendActionEventFailed` carrying the undelivered request, and the slot stays empty. The notification sender is consumed either way. |
| StateMachine.ToOutgoing | src/state_machine.rs:75-83 | `Completed` maps to `ActionCompleted` and `Failed` maps to `ActionFailed`, in both directions. |
| StateMachine.UntilRequestMessage | src/state_machine.rs:64-84 | Gives `Ok(ActionCompleted)` for `Completed` and `Ok(ActionFailed)` for `Failed`. Gives `Err(ResponseListening)` when the response sender was dropped without sending. The handler returned is the default idle one in every case. The receiver is consumed, the sender stays gone, and the slot is left as it was. |
| StateMachine.Respond | src/test.rs:16-22 | The subscriber's side: the response sender is consumed, and the slot holds the verdict, or nothing when the subscriber drops the sender. |
| StateMachine.Cycle | src/test.rs:9-33 | Runs a whole default → subscribe → handle_request → until_request_message cycle. It ends on the default handler exactly when the notification receiver listens, and then yields the subscriber's verdict. Otherwise it fails with `SendActionEventFailed`. |
| StateHandler.NextRequest | src/state_handler.rs:45-53 | The index found is in range and holds an action request. Every event before it is a challenge. |
| StateHandler.NextRequestConsumesOne | src/state_handler.rs:42-53 | Finding no action request means none remain. Finding one consumes exactly one of those that remain. |
| StateHandler.UntilRequestEvent | src/state_handler.rs:42-54 | Consumes events up to and including the first action request and returns `Ok`. Every event skipped is a challenge. Gives `Err(NoSenderRegistered)` with the stream exhausted when no action request remains. |
| StateHandler.CycleOutcome | src/state_handler.rs:22-30 | A cycle reaches the point of forwarding exactly when an action request arrives, the subscriber listens and it answers. The message forwarded is its verdict. A subscriber is notified exactly when an action request was consumed and it listens. |
| StateHandler.ForwardedAtMostOnePerSubscription | src/state_handler.rs:15-39 | The sink never receives more messages than there are subscriptions, nor more than it accepts. |
| StateHandler.ForwardedIsVerdict | src/state_handler.rs:28-35 | The `j`-th message forwarded is the verdict of the `j`-th subscriber, who answered rather than dropping its sender. |
| StateHandler.NotifiedNeedsRequests | src/state_handler.rs:22-26 | No subscriber is notified before an action request has been consumed: there are never more notifications than action requests on the stream. |
| StateHandler.OneMessagePerCycle | src/state_handler.rs:28-35 | Each completed cycle appends exactly one message. A subscriber is notified without a message being forwarded only in the last cycle, when its sender was dropped or the sink was closed. When the sink is closed, the refused message is that subscriber's verdict, and the sink has received all it accepts. |
| StateHandler.StopExplained | src/state_handler.rs:15-35 | Each way a run stops is explained by its input. The subscription stream runs out exactly when every subscription was served. A failed notification means the next subscriber had dropped its receiver. A dropped answer means the next subscriber listened and then hung up. A closed broadcast stream means a subscription was waiting and every remaining action request went to a served subscriber. |
| StateHandler.TakenBounds | src/state_handler.rs:15-26 | Only a subscription taken from the subscription stream is ever notified, and no more subscriptions are taken than the stream holds. |
| StateHandler.ServesEverySubscriber | src/state_handler.rs:15-20 | When every subscriber listens and answers, and there are enough action requests and enough room in the sink, every verdict is forwarded. The run then stops only on the exhausted subscription stream. |
| StateHandler.OneSubscriberOneRequest | src/test.rs:36-66 | One listening subscriber, one action request and an open sink: the sink receives the subscriber's verdict, and the coordinator stops on the closed subscription stream. |
| StateHandler.ServeSubscriber | src/state_handler.rs:22-30 | Subscribe, wait for an action request, notify, and await the verdict. The outcome is the one `CycleOutcome` names: forwarding with the cursor past the request, or the error it names. A `SendActionEventFailed` error carries the undelivered request, whose response channel is fresh, empty, and has a live sender and a dropped receiver. The subscriber's slot is filled exactly when it was notified. Its notification receiver is still alive exactly when it was alive before and no notification was delivered. Its notification sender is consumed in every outcome: by the notification, or dropped with the active handler when the broadcast stream closes first. The handler comes back idle. |
| StateHandler.RunUntilError | src/state_handler.rs:8-40 | Never returns `Ok`. The sink receives exactly what `Coordinate` forwards, and the loop stops with the error `Coordinate` names. A `SendActionEventFailed` error carries the undelivered request with its fresh response channel. For each subscriber `i`, `Notification` states three facts. It holds a notification exactly when it is among the notified subscribers. Its notification sender is consumed exactly when its subscription was taken from the stream (`Taken`). While it holds no notification, its receiver is as it was when the loop started. |
| ChallengeHandler.HandleChallenge | src/challenge_handler.rs:37-39 | The response to a challenge echoes its nonce unchanged. |
| ChallengeHandler.NextChallenge | src/challenge_handler.rs:26-34 | The index found is in range and holds a challenge. Every event before it is an action request. |
| ChallengeHandler.NextChallengeSplits | src/challenge_handler.rs:23-35 | Finding the next challenge splits the remaining challenges into that one and those after it. Finding none means none remain. |
| ChallengeHandler.ChallengesOfConcat | src/challenge_handler.rs:11-20 | The responder keeps no state: the challenges of a stream in two parts are those of the first part followed by those of the second. |
| ChallengeHandler.UntilChallengeEvent | src/challenge_handler.rs:23-35 | Returns the nonce of the first challenge at or after the cursor and consumes it. Every event skipped is an action request. Gives `Err(NoSenderRegistered)` with the stream exhausted when no challenge remains. |
| ChallengeHandler.RunUntilError | src/challenge_handler.rs:7-21 | Never returns `Ok`. The sink holds `ChallengeResponse(n)` for the stream's challenges `n`, in stream order, one per challenge, up to what it accepts. The loop stops with `NoSenderRegistered` when the stream closes. When the sink is gone, it stops with `NoHandlerRegistered` carrying the first refused response. |

## Left out

- The tokio runtime, `async`/`.await` and `tokio::spawn`. Each await becomes reading the next element of a sequence or a channel slot.
- Concurrency. The two loops run concurrently in the system; each is modelled on its own. In the coordinator, the subscriber's side is played inside the cycle from the `answers` input.
- Broadcast lag, which the system reports as an error like closure. Also mpsc capacity and backpressure. The end of a sequence stands for a closed stream, and the sink's closure for a count of accepted messages.
- The `Display` strings, the `#[source]` wrappers of the error variants, and the derived `Debug`/`PartialEq` code. Only the variant tags are kept, plus two payloads: the undelivered request and the refused outgoing message.
- StateMachine.UntilRequestMessage: requires that the response sender is already gone. A subscriber that keeps its response sender without ever answering would suspend the coordinator forever; that run is not modelled.
- StateMachine.Cycle: the test subscribes a second time after the cycle, and that extra subscribe is left out, because `StateMachine.IdleIsDefault` already covers the returned handler.
- StateHandler.Coordinate: describes a stop caused by a dropped notification receiver only as a `SendActionEventFailed`. It does not name the request that error carries, because that request holds a channel created during the run, and no function of the inputs can name it. `StateHandler.RunUntilError`, `StateHandler.ServeSubscriber` and `StateMachine.HandleRequest` state the payload.
- StateHandler.RunUntilError: when the loop returns, the system drops its subscription receiver, and with it any subscriptions still queued in that channel's buffer. The model does not tell queued subscriptions from those not yet sent: every subscription the loop did not take keeps its notification sender alive.
- src/lib.rs only declares modules and is not part of this model.
