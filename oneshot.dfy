/**
 * A single-use handoff channel (tokio's `oneshot`): one slot that the sender may
 * fill at most once, plus a flag per endpoint saying whether that endpoint
 * still exists. Dropping an endpoint is observable by the peer.
 */
module OneShot {
  import opened Wrappers

  class Channel<T(==)> {
    /** The slot: `Some(v)` once the sender has delivered `v`. */
    var value: Option<T>
    /** The sender handle still exists (sending consumes it). */
    var senderAlive: bool
    /** The receiver handle still exists (awaiting consumes it). */
    var receiverAlive: bool

    constructor ()
      ensures value == None && senderAlive && receiverAlive
    {
      value := None;
      senderAlive := true;
      receiverAlive := true;
    }

    /** Sends `v`, consuming the sender; fails, handing `v` back, when the receiver is gone. */
    method Send(v: T) returns (r: Result<(), T>)
      requires senderAlive && value.None?
      modifies this
      ensures !senderAlive && receiverAlive == old(receiverAlive)
      ensures r == if old(receiverAlive) then Ok(()) else Err(v)
      ensures value == if old(receiverAlive) then Some(v) else None
    {
      senderAlive := false;
      if receiverAlive {
        value := Some(v);
        r := Ok(());
      } else {
        r := Err(v);
      }
    }

    /** Drops the sender without sending anything. */
    method DropSender()
      requires senderAlive
      modifies this
      ensures !senderAlive && value == old(value) && receiverAlive == old(receiverAlive)
    {
      senderAlive := false;
    }

    /** Drops the receiver without receiving anything. */
    method DropReceiver()
      requires receiverAlive
      modifies this
      ensures !receiverAlive && value == old(value) && senderAlive == old(senderAlive)
    {
      receiverAlive := false;
    }

    /**
     * Awaits the receiver, consuming it: `Some(v)` if `v` was sent, `None` if the
     * sender was dropped without sending. The await completes only once the
     * sender is gone, which is what the precondition says.
     */
    method Recv() returns (r: Option<T>)
      requires receiverAlive && !senderAlive
      modifies this
      ensures r == old(value) && value == old(value)
      ensures !receiverAlive && !senderAlive
    {
      receiverAlive := false;
      r := value;
    }
  }

  datatype Sender<T(==)> = Sender(chan: Channel<T>)

  datatype Receiver<T(==)> = Receiver(chan: Channel<T>)

  /** A fresh channel with both endpoints alive and nothing sent. */
  method NewChannel<T(==)>() returns (tx: Sender<T>, rx: Receiver<T>)
    ensures tx.chan == rx.chan && fresh(tx.chan)
    ensures tx.chan.value == None && tx.chan.senderAlive && tx.chan.receiverAlive
  {
    var chan := new Channel<T>();
    tx, rx := Sender(chan), Receiver(chan);
  }
}
