/**
 * The older ground station of center.go: the same ACK as SimCenter after a constant
 * 100 ms processing delay, sent by a counter-free CSMA loop whose p comes from a table
 * passed in and whose transmission time is a fixed 80 ms.
 */
module LegacyCenter {
  import opened Wrappers
  import opened Messages
  import opened Mailbox
  import opened Tables
  import opened LegacyChannel
  import SimCenter

  const InboxCapacity: nat := 50
  const AckTransmissionTimeNs: int := 80_000_000

  /** `getProcessingDelay`: always 100 ms. */
  function GetProcessingDelay(): (d: int)
    ensures d == 100_000_000
  {
    100_000_000
  }

  /** `processMessage` up to the ACK it hands to `SendMessage`; the ACK is the one SimCenter builds. */
  function ProcessMessage(stationID: string, msg: Message, now: int, marshal: AcknowledgementData -> Result<Bytes>)
    : (ack: Option<Message>)
    ensures msg.GetBaseMessage().aircraftICAOAddress == stationID ==> ack.None?
    ensures ack.Some? <==>
      msg.GetBaseMessage().aircraftICAOAddress != stationID && marshal(SimCenter.AckPayload(msg.GetBaseMessage())).Success?
    ensures ack.Some? ==>
      && ack.value.GetPriority() == Critical
      && ack.value.GetBaseMessage().msgType == MsgTypeAck
      && ack.value.GetBaseMessage().messageID == SimCenter.AckIDPrefix + msg.GetBaseMessage().messageID
      && ack.value.GetData() == marshal(SimCenter.AckPayload(msg.GetBaseMessage())).value
  {
    SimCenter.ProcessMessage(stationID, msg, now, marshal)
  }

  datatype Phase = Polling | Claiming | Sent

  datatype CenterCall = CenterCall(msg: Message, channel: Channel, p: real, phase: Phase)

  datatype Event = Polled(busy: bool, draw: real) | Claimed(won: bool)

  /** p is the table's entry for the message's priority, 0 when unmapped. */
  function BeginSend(msg: Message, channel: Channel, pMap: PriorityTable?): (c: CenterCall)
    reads pMap
    ensures msg.GetPriority() in Entries(pMap) ==> c.p == Entries(pMap)[msg.GetPriority()]
    ensures msg.GetPriority() !in Entries(pMap) ==> c.p == 0.0
    ensures c.phase.Polling?
  {
    CenterCall(msg, channel, Lookup(pMap, msg.GetPriority()), Polling)
  }

  function Step(c: CenterCall, e: Event): (r: CenterCall)
    ensures r.msg == c.msg && r.channel == c.channel && r.p == c.p
    ensures r.phase.Sent? <==> c.phase.Sent? || (c.phase.Claiming? && e.Claimed? && e.won)
    ensures r.phase.Claiming? ==> c.phase.Claiming? || (c.phase.Polling? && e.Polled? && !e.busy && e.draw < c.p)
  {
    match c.phase
    case Polling =>
      if e.Polled? && !e.busy && e.draw < c.p then c.(phase := Claiming) else c
    case Claiming =>
      if !e.Claimed? then c
      else if e.won then c.(phase := Sent)
      else c.(phase := Polling)
    case Sent => c
  }

  function Run(c: CenterCall, events: seq<Event>): CenterCall
    decreases |events|
  {
    if events == [] then c else Run(Step(c, events[0]), events[1..])
  }

  /** Every draw of the trace is at or above 0, as `rand.Float64` guarantees. */
  ghost predicate DrawsNonNegative(events: seq<Event>)
  {
    forall i | 0 <= i < |events| && events[i].Polled? :: events[i].draw >= 0.0
  }

  /** The call returns only through a won claim. */
  lemma {:induction false} SentOnlyAfterWin(c: CenterCall, events: seq<Event>)
    requires !c.phase.Sent?
    ensures Run(c, events).phase.Sent? <==>
      exists i | 0 <= i < |events| :: events[i] == Claimed(true) && Run(c, events[..i]).phase.Claiming?
    decreases |events|
  {
    if events != [] {
      var c' := Step(c, events[0]);
      assert Run(c, events[..0]) == c;
      if c'.phase.Sent? {
        FinishedCallIsInert(c', events[1..]);
        assert events[0] == Claimed(true) && Run(c, events[..0]).phase.Claiming?;
      } else {
        SentOnlyAfterWin(c', events[1..]);
        forall i | 1 <= i <= |events|
          ensures Run(c, events[..i]) == Run(c', events[1..][..i - 1])
        {
          assert events[..i][0] == events[0];
          assert events[..i][1..] == events[1..][..i - 1];
        }
        if Run(c', events[1..]).phase.Sent? {
          var j :| 0 <= j < |events[1..]| && events[1..][j] == Claimed(true) && Run(c', events[1..][..j]).phase.Claiming?;
          assert events[j + 1] == Claimed(true) && Run(c, events[..j + 1]).phase.Claiming?;
        } else {
          forall i | 0 <= i < |events| && events[i] == Claimed(true)
            ensures !Run(c, events[..i]).phase.Claiming?
          {
            if i > 0 {
              assert events[1..][i - 1] == events[i];
            }
          }
        }
      }
    }
  }

  lemma {:induction false} FinishedCallIsInert(c: CenterCall, events: seq<Event>)
    requires c.phase.Sent?
    ensures Run(c, events) == c
    decreases |events|
  {
    if events != [] {
      FinishedCallIsInert(Step(c, events[0]), events[1..]);
    }
  }

  /** With p = 0 (for instance an unmapped priority) no draw passes: the call never claims the channel. */
  lemma {:induction false} ZeroPNeverClaims(c: CenterCall, events: seq<Event>)
    requires c.phase.Polling? && c.p <= 0.0
    requires DrawsNonNegative(events)
    ensures Run(c, events).phase.Polling?
    decreases |events|
  {
    if events != [] {
      assert DrawsNonNegative(events[1..]) by {
        forall i | 0 <= i < |events[1..]| && events[1..][i].Polled?
          ensures events[1..][i].draw >= 0.0
        {
          assert events[1..][i] == events[i + 1];
        }
      }
      ZeroPNeverClaims(Step(c, events[0]), events[1..]);
    }
  }

  class GroundControlCenter {
    const id: string
    const inboundQueue: Inbox

    constructor (id: string)
      ensures this.id == id
      ensures fresh(inboundQueue) && inboundQueue.capacity == InboxCapacity && inboundQueue.items == []
    {
      this.id := id;
      inboundQueue := new Inbox(InboxCapacity);
    }

    /** The registration half of `StartListening`. */
    method RegisterOn(channel: Channel)
      modifies channel`listeners
      ensures channel.listeners == old(channel.listeners) + [inboundQueue]
    {
      channel.RegisterListener(inboundQueue);
    }

    /** One iteration of the listening loop: take the next message and return the ACK to send, if any. */
    method HandleNext(now: int, marshal: AcknowledgementData -> Result<Bytes>) returns (ack: Option<Message>)
      modifies inboundQueue
      ensures old(inboundQueue.items) == [] ==> ack.None? && inboundQueue.items == []
      ensures old(inboundQueue.items) != [] ==>
        && inboundQueue.items == old(inboundQueue.items)[1..]
        && ack == ProcessMessage(id, old(inboundQueue.items)[0], now, marshal)
    {
      var next := inboundQueue.Receive();
      match next
      case None => ack := None;
      case Some(msg) => ack := ProcessMessage(id, msg, now, marshal);
    }

    /** One CSMA round up to the draw; nothing is counted. */
    method Poll(call: CenterCall, draw: real) returns (next: CenterCall)
      requires call.phase.Polling?
      ensures next == Step(call, Polled(call.channel.isBusy, draw))
    {
      next := call;
      if !call.channel.IsBusy() && draw < call.p {
        next := call.(phase := Claiming);
      }
    }

    /** The claim, for 80 ms; a lost race goes back to polling. */
    method Claim(call: CenterCall) returns (next: CenterCall)
      requires call.phase.Claiming? && call.channel.Valid()
      modifies call.channel`isBusy, call.channel`inFlight
      ensures call.channel.Valid()
      ensures next == Step(call, Claimed(old(call.channel.inFlight).None?))
      ensures next.phase.Sent? ==> call.channel.inFlight == Some(call.msg)
      ensures !next.phase.Sent? ==> call.channel.inFlight == old(call.channel.inFlight)
    {
      var won := call.channel.AttemptTransmit(call.msg, id, AckTransmissionTimeNs);
      next := if won then call.(phase := Sent) else call.(phase := Polling);
    }
  }
}
