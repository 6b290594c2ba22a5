/** The `std::sync::mpsc` channel the delegate sends events into, reduced to
    the events sent so far, in order, and whether a receiver is left. */
module Mpsc {
  import opened Wrappers
  import opened Events

  class Channel {
    /** Every event successfully sent, oldest first. */
    var sent: seq<Event>
    /** False once the receiving half has been dropped. */
    var receiverAlive: bool

    /** `mpsc::channel()`: nothing sent yet, receiver held by the caller. */
    constructor ()
      ensures sent == [] && receiverAlive
    {
      sent := [];
      receiverAlive := true;
    }

    /** `Sender::send`: appends the event, or hands it back unsent once the
        receiver is gone. */
    method Send(event: Event) returns (r: Result<(), Event>)
      modifies this
      ensures receiverAlive == old(receiverAlive)
      ensures r.Ok? <==> receiverAlive
      ensures r.Err? ==> r.error == event
      ensures sent == if receiverAlive then old(sent) + [event] else old(sent)
    {
      if receiverAlive {
        sent := sent + [event];
        r := Ok(());
      } else {
        r := Err(event);
      }
    }

    /** Dropping the `Receiver`. */
    method DropReceiver()
      modifies this
      ensures !receiverAlive && sent == old(sent)
    {
      receiverAlive := false;
    }

    /** Once the receiver is dropped, a send hands its event back and
        appends nothing: the outcome on which `send_event` panics. */
    method DropThenSend(event: Event) returns (r: Result<(), Event>)
      modifies this
      ensures r == Err(event)
      ensures sent == old(sent) && !receiverAlive
    {
      DropReceiver();
      r := Send(event);
    }
  }
}
