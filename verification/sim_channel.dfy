/**
 * The shared medium of simulation/channel.go. Each lock-protected section is one atomic
 * method; the goroutine that `AttemptTransmit` starts is the explicit step
 * `CompleteTransmission(now)`, and the dispatcher goroutine is `DispatchNext()`, one
 * message per call. `now` is a reading of a monotonic nanosecond clock.
 */
module SimChannel {
  import opened Wrappers
  import opened Messages
  import opened Tables
  import opened Mailbox

  /** Buffer size of the channel's internal message queue. */
  const MessageQueueCapacity: nat := 100
  /** `GetPForMessage`'s answer for a priority the table does not map. */
  const DefaultP: real := 0.1

  /** The transmission a successful `AttemptTransmit` hands to its goroutine. */
  datatype Transmission = Transmission(msg: Message, senderID: string, duration: int)

  datatype ChannelRawStats = ChannelRawStats(totalMessagesTransmitted: nat, totalBusyTime: int)

  function Max(a: int, b: int): int { if a >= b then a else b }

  class Channel {
    const id: string
    var isBusy: bool
    /** The transmission goroutine that holds the medium, if any. */
    var inFlight: Option<Transmission>
    var messageQueue: seq<Message>
    var listeners: seq<Inbox>
    var totalMessagesTransmitted: nat
    var totalBusyTime: int
    var lastBusyTimestamp: int
    var pValues: PriorityTable?
    var currentTimeSlot: int

    /** The medium is busy exactly while a transmission goroutine holds it. */
    ghost predicate Valid()
      reads this
    {
      && (isBusy <==> inFlight.Some?)
      && |messageQueue| <= MessageQueueCapacity
      && totalBusyTime >= 0
    }

    /** `NewChannel(id, initialPMap, initialTimeSlot)`. The table is stored, not copied. */
    constructor (id: string, initialPMap: PriorityTable?, initialTimeSlot: int)
      ensures Valid()
      ensures this.id == id && !isBusy && inFlight.None?
      ensures messageQueue == [] && listeners == []
      ensures totalMessagesTransmitted == 0 && totalBusyTime == 0
      ensures pValues == initialPMap && currentTimeSlot == initialTimeSlot
    {
      this.id := id;
      isBusy := false;
      inFlight := None;
      messageQueue := [];
      listeners := [];
      totalMessagesTransmitted := 0;
      totalBusyTime := 0;
      lastBusyTimestamp := 0;
      pValues := initialPMap;
      currentTimeSlot := initialTimeSlot;
    }

    /** Installs the caller's table itself: later writes to it are seen by the channel. */
    method UpdatePValues(newPMap: PriorityTable?)
      modifies this`pValues
      ensures pValues == newPMap
    {
      pValues := newPMap;
    }

    /** The table's entry for the priority, or `DefaultP` when the table does not map it. */
    function GetPForMessage(priority: Priority): (p: real)
      reads this, pValues
      ensures priority in Entries(pValues) ==> p == Entries(pValues)[priority]
      ensures priority !in Entries(pValues) ==> p == DefaultP
    {
      if pValues != null && priority in pValues.entries then pValues.entries[priority] else DefaultP
    }

    method UpdateCurrentTimeSlot(newTimeSlot: int)
      modifies this`currentTimeSlot
      ensures currentTimeSlot == newTimeSlot
    {
      currentTimeSlot := newTimeSlot;
    }

    function GetCurrentTimeSlot(): (d: int)
      reads this
      ensures d == currentTimeSlot
    {
      currentTimeSlot
    }

    function IsBusy(): (b: bool)
      reads this
      ensures b == isBusy
      ensures Valid() ==> (b <==> inFlight.Some?)
    {
      isBusy
    }

    /**
     * The check-and-claim under the lock: a busy medium refuses and nothing changes;
     * an idle one is claimed at `now` for the given transmission.
     */
    method AttemptTransmit(msg: Message, senderID: string, transmissionTime: int, now: int) returns (won: bool)
      requires Valid()
      modifies this`isBusy, this`lastBusyTimestamp, this`inFlight
      ensures Valid()
      ensures won <==> old(inFlight).None?
      ensures !won ==> isBusy && inFlight == old(inFlight) && lastBusyTimestamp == old(lastBusyTimestamp)
      ensures won ==> isBusy && lastBusyTimestamp == now
                      && inFlight == Some(Transmission(msg, senderID, transmissionTime))
    {
      if isBusy {
        return false;
      }
      isBusy := true;
      lastBusyTimestamp := now;
      inFlight := Some(Transmission(msg, senderID, transmissionTime));
      won := true;
    }

    /** Whether the transmission goroutine can finish at `now`: its sleep is over and the queue has room. */
    predicate CanComplete(now: int)
      reads this
    {
      inFlight.Some? && now >= lastBusyTimestamp + Max(0, inFlight.value.duration)
      && |messageQueue| < MessageQueueCapacity
    }

    /**
     * The goroutine body after its sleep: queue the message for dispatch, count it,
     * release the medium and add the time it was held. Not enabled before the sleep
     * ends or while the queue is full (the send blocks).
     */
    method CompleteTransmission(now: int) returns (completed: bool)
      requires Valid()
      modifies this`messageQueue, this`totalMessagesTransmitted, this`isBusy, this`inFlight, this`totalBusyTime
      ensures Valid()
      ensures completed <==> old(CanComplete(now))
      ensures !completed ==> unchanged(this)
      ensures completed ==>
        && messageQueue == old(messageQueue) + [old(inFlight).value.msg]
        && totalMessagesTransmitted == old(totalMessagesTransmitted) + 1
        && !isBusy && inFlight.None?
        && totalBusyTime == old(totalBusyTime) + (now - lastBusyTimestamp)
        && totalBusyTime >= old(totalBusyTime) + Max(0, old(inFlight).value.duration)
    {
      if !CanComplete(now) {
        return false;
      }
      messageQueue := messageQueue + [inFlight.value.msg];
      totalMessagesTransmitted := totalMessagesTransmitted + 1;
      isBusy := false;
      inFlight := None;
      totalBusyTime := totalBusyTime + (now - lastBusyTimestamp);
      completed := true;
    }

    method RegisterListener(listener: Inbox)
      modifies this`listeners
      ensures listeners == old(listeners) + [listener]
    {
      listeners := listeners + [listener];
    }

    /**
     * One turn of the dispatcher: take the oldest queued message and offer it to every
     * listener in registration order; a listener whose queue is full misses it. A
     * listener registered `k` times is offered it `k` times.
     */
    method DispatchNext() returns (dispatched: Option<Message>)
      requires Valid()
      modifies this`messageQueue, set l | l in listeners
      ensures Valid()
      ensures old(messageQueue) == [] ==> dispatched.None? && messageQueue == []
      ensures old(messageQueue) != [] ==>
        && dispatched == Some(old(messageQueue)[0])
        && messageQueue == old(messageQueue)[1..]
      ensures forall l | l in listeners ::
        l.items == if dispatched.None? then old(l.items)
                   else Offered(old(l.items), l.capacity, dispatched.value, multiset(listeners)[l])
    {
      if messageQueue == [] {
        return None;
      }
      var msg := messageQueue[0];
      messageQueue := messageQueue[1..];
      Broadcast(listeners, msg);
      dispatched := Some(msg);
    }

    /** Recovers the channel's counters to zero; the medium, table, slot and listeners stay. */
    method ResetStats()
      requires Valid()
      modifies this`totalBusyTime, this`totalMessagesTransmitted
      ensures Valid()
      ensures totalBusyTime == 0 && totalMessagesTransmitted == 0
    {
      totalBusyTime := 0;
      totalMessagesTransmitted := 0;
    }

    /** The accumulated busy time, never negative while the channel is valid. */
    function GetTotalBusyTime(): (t: int)
      reads this
      ensures Valid() ==> t >= 0
      ensures t == totalBusyTime
    {
      totalBusyTime
    }

    function GetRawStats(): (s: ChannelRawStats)
      reads this
      ensures s.totalMessagesTransmitted == totalMessagesTransmitted && s.totalBusyTime == totalBusyTime
    {
      ChannelRawStats(totalMessagesTransmitted, GetTotalBusyTime())
    }
  }

  /** Two claims in a row with no completion between them: at most one wins, and on an idle medium the first does. */
  method ClaimIsExclusive(c: Channel, m1: Message, m2: Message, s1: string, s2: string, d: int, t1: int, t2: int)
    returns (won1: bool, won2: bool)
    requires c.Valid()
    modifies c
    ensures !(won1 && won2)
    ensures old(c.isBusy) ==> !won1 && !won2
    ensures !old(c.isBusy) ==> won1 && !won2 && c.inFlight == Some(Transmission(m1, s1, d))
  {
    won1 := c.AttemptTransmit(m1, s1, d, t1);
    won2 := c.AttemptTransmit(m2, s2, d, t2);
  }
}
