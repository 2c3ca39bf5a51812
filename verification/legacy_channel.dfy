/**
 * The older shared medium of channel.go: a busy flag, an internal message queue and a
 * listener list, with no statistics, probability table or time slot. As in SimChannel,
 * the transmission goroutine is the explicit step `CompleteTransmission()`.
 */
module LegacyChannel {
  import opened Wrappers
  import opened Messages
  import opened Mailbox

  const MessageQueueCapacity: nat := 100

  class Channel {
    var isBusy: bool
    /** The message whose transmission goroutine holds the medium, if any. */
    var inFlight: Option<Message>
    var messageQueue: seq<Message>
    var listeners: seq<Inbox>

    ghost predicate Valid()
      reads this
    {
      (isBusy <==> inFlight.Some?) && |messageQueue| <= MessageQueueCapacity
    }

    /** `NewChannel()`: idle, nothing queued, nobody listening. */
    constructor ()
      ensures Valid()
      ensures !isBusy && inFlight.None? && messageQueue == [] && listeners == []
    {
      isBusy := false;
      inFlight := None;
      messageQueue := [];
      listeners := [];
    }

    function IsBusy(): (b: bool)
      reads this
      ensures b == isBusy
      ensures Valid() ==> (b <==> inFlight.Some?)
    {
      isBusy
    }

    /** Check-and-claim: a busy medium refuses and nothing changes; an idle one is taken for `msg`. */
    method AttemptTransmit(msg: Message, senderID: string, transmissionTime: int) returns (won: bool)
      requires Valid()
      modifies this`isBusy, this`inFlight
      ensures Valid()
      ensures won <==> old(inFlight).None?
      ensures !won ==> isBusy && inFlight == old(inFlight)
      ensures won ==> isBusy && inFlight == Some(msg)
    {
      if isBusy {
        return false;
      }
      isBusy := true;
      inFlight := Some(msg);
      won := true;
    }

    /**
     * The goroutine body after its sleep: queue the message for dispatch, then release
     * the medium. Not enabled while nothing is in flight or the queue is full.
     */
    method CompleteTransmission() returns (completed: bool)
      requires Valid()
      modifies this`messageQueue, this`isBusy, this`inFlight
      ensures Valid()
      ensures completed <==> old(inFlight).Some? && |old(messageQueue)| < MessageQueueCapacity
      ensures !completed ==> unchanged(this)
      ensures completed ==>
        && messageQueue == old(messageQueue) + [old(inFlight).value]
        && !isBusy && inFlight.None?
    {
      if inFlight.None? || |messageQueue| >= MessageQueueCapacity {
        return false;
      }
      messageQueue := messageQueue + [inFlight.value];
      isBusy := false;
      inFlight := None;
      completed := true;
    }

    method RegisterListener(listener: Inbox)
      modifies this`listeners
      ensures listeners == old(listeners) + [listener]
    {
      listeners := listeners + [listener];
    }

    /** One turn of the dispatch loop: the oldest queued message is offered to every listener. */
    method DispatchNext() returns (dispatched: Option<Message>)
      requires Valid()
      modifies this`messageQueue, set l | l in listeners
      ensures Valid()
      ensures old(messageQueue) == [] ==> dispatched.None? && messageQueue == []
      ensures old(messageQueue) != [] ==>
        && dispatched == Some(old(messageQueue)[0])
        && messageQueue == old(messageQueue)[1..]
      ensures forall l | l in listeners ::
        l.items == if dispatched.None? then old(l.items)
                   else Offered(old(l.items), l.capacity, dispatched.value, multiset(listeners)[l])
    {
      if messageQueue == [] {
        return None;
      }
      var msg := messageQueue[0];
      messageQueue := messageQueue[1..];
      Broadcast(listeners, msg);
      dispatched := Some(msg);
    }
  }

  /** No second claim succeeds before the first transmission completes. */
  method ClaimIsExclusive(c: Channel, m1: Message, m2: Message, s1: string, s2: string, d: int)
    returns (won1: bool, won2: bool)
    requires c.Valid()
    modifies c
    ensures !(won1 && won2)
    ensures !old(c.isBusy) <==> won1
    ensures won1 ==> c.inFlight == Some(m1)
  {
    won1 := c.AttemptTransmit(m1, s1, d);
    won2 := c.AttemptTransmit(m2, s2, d);
  }
}
