/**
 * The ground station of simulation/center.go: it acknowledges every message it did not
 * send itself, and sends each ACK with an unbounded p-persistent CSMA loop (no retries),
 * keeping six counters.
 *
 * As for the aircraft, one `SendMessage` goroutine is a `CenterCall` value and each
 * lock-protected interaction is a step method (`Poll`, `Claim`) specified by the pure
 * function `Step`; `Run` folds it over a trace of events.
 */
module SimCenter {
  import opened Wrappers
  import opened Messages
  import opened Mailbox
  import opened SimChannel
  import opened Tables

  /** Capacity of the station's inbox. */
  const InboxCapacity: nat := 50
  /** Flight ID every ACK carries. */
  const GroundFlightID: string := "GND_CTL"
  /** Status every ACK carries. */
  const StatusReceived: string := "RECEIVED"
  /** Prefix of an ACK's message ID. */
  const AckIDPrefix: string := "ACK-"

  /** The header of the ACK for `original`, built by station `stationID` at clock reading `now`. */
  function AckHeader(stationID: string, original: BaseMessage, now: int): BaseMessage
  {
    BaseMessage(stationID, GroundFlightID, AckIDPrefix + original.messageID, now, MsgTypeAck)
  }

  /** The payload of the ACK for `original`. */
  function AckPayload(original: BaseMessage): AcknowledgementData
  {
    AcknowledgementData(original.messageID, StatusReceived)
  }

  /**
   * `processMessage` up to the ACK it hands to a new `SendMessage` goroutine: nothing for
   * the station's own messages or when the payload does not encode; otherwise a Critical
   * ACK that names the original message and is addressed from the station.
   */
  function ProcessMessage(stationID: string, msg: Message, now: int, marshal: AcknowledgementData -> Result<Bytes>)
    : (ack: Option<Message>)
    ensures msg.GetBaseMessage().aircraftICAOAddress == stationID ==> ack.None?
    ensures ack.Some? <==>
      msg.GetBaseMessage().aircraftICAOAddress != stationID && marshal(AckPayload(msg.GetBaseMessage())).Success?
    ensures ack.Some? ==>
      && ack.value.GetPriority() == Critical
      && ack.value.GetBaseMessage().msgType == MsgTypeAck
      && ack.value.GetBaseMessage().aircraftICAOAddress == stationID
      && ack.value.GetBaseMessage().flightID == GroundFlightID
      && ack.value.GetBaseMessage().messageID == AckIDPrefix + msg.GetBaseMessage().messageID
      && ack.value.GetBaseMessage().timestamp == now
      && ack.value.GetData() == marshal(AckPayload(msg.GetBaseMessage())).value
  {
    var original := msg.GetBaseMessage();
    if original.aircraftICAOAddress == stationID then None
    else
      var (ackMessage, err) := NewCriticalHighPriorityMessage(AckHeader(stationID, original, now), AckPayload(original), marshal);
      if err.Some? then None else Some(ackMessage)
  }

  /** Distinct originals get ACKs with distinct IDs. */
  lemma AckIDsDistinct(a: string, b: string)
    ensures AckIDPrefix + a == AckIDPrefix + b <==> a == b
  {
    if AckIDPrefix + a == AckIDPrefix + b {
      assert a == (AckIDPrefix + a)[|AckIDPrefix|..];
      assert b == (AckIDPrefix + b)[|AckIDPrefix|..];
    }
  }

  datatype CenterRawStats = CenterRawStats(
    successfulTx: nat,
    totalTxAttempts: nat,
    totalCollisions: nat,
    totalRqTunnel: nat,
    totalFailRqTunnel: nat,
    totalWaitTimeNs: int)

  /** The program point of a station `SendMessage` call. */
  datatype CenterPhase =
    | Polling    // in the CSMA loop, before the busy check
    | Claiming   // the draw passed; `AttemptTransmit` next
    | Sent       // returned after a successful claim

  /** A call's locals: the ACK, the channel, p read once before the loop, the slot argument and the start time. */
  datatype CenterCall = CenterCall(msg: Message, channel: Channel, p: real, timeSlot: int, sendStartTime: int, phase: CenterPhase)

  datatype CenterEvent =
    | Polled(busy: bool, draw: real)
    | Claimed(won: bool, now: int)

  /**
   * A call as `SendMessage` starts it at clock reading `now`: p is the channel's table
   * entry for the message's priority (the default when unmapped), read once before the loop.
   */
  function BeginSend(channel: Channel, msg: Message, timeSlot: int, now: int): (c: CenterCall)
    reads channel, channel.pValues
    ensures c.msg == msg && c.channel == channel && c.timeSlot == timeSlot && c.sendStartTime == now
    ensures msg.GetPriority() in Entries(channel.pValues) ==> c.p == Entries(channel.pValues)[msg.GetPriority()]
    ensures msg.GetPriority() !in Entries(channel.pValues) ==> c.p == DefaultP
    ensures c.phase.Polling?
  {
    CenterCall(msg, channel, channel.GetPForMessage(msg.GetPriority()), timeSlot, now, Polling)
  }

  /** One step of a call; an event that does not fit its program point changes nothing. */
  function Step(s: CenterRawStats, c: CenterCall, e: CenterEvent): (r: (CenterRawStats, CenterCall))
    ensures r.1.msg == c.msg && r.1.channel == c.channel && r.1.p == c.p
    ensures r.1.timeSlot == c.timeSlot && r.1.sendStartTime == c.sendStartTime
    ensures c.phase.Sent? ==> r == (s, c)
    ensures r.0.totalRqTunnel == s.totalRqTunnel + (if c.phase.Polling? && e.Polled? then 1 else 0)
    ensures r.0.totalFailRqTunnel == s.totalFailRqTunnel + (if c.phase.Polling? && e.Polled? && e.busy then 1 else 0)
    ensures r.0.totalTxAttempts == s.totalTxAttempts + (if c.phase.Claiming? && e.Claimed? then 1 else 0)
    ensures r.0.successfulTx == s.successfulTx + (if c.phase.Claiming? && e.Claimed? && e.won then 1 else 0)
    ensures r.0.totalCollisions == s.totalCollisions + (if c.phase.Claiming? && e.Claimed? && !e.won then 1 else 0)
    ensures r.1.phase.Sent? <==> c.phase.Sent? || (c.phase.Claiming? && e.Claimed? && e.won)
    ensures r.1.phase.Claiming? ==> c.phase.Claiming? || (e.Polled? && !e.busy && e.draw < c.p)
    ensures r.0.totalWaitTimeNs != s.totalWaitTimeNs ==> c.phase.Claiming? && e.Claimed? && e.won
  {
    match c.phase
    case Polling =>
      if !e.Polled? then (s, c)
      else
        var s' := s.(totalRqTunnel := s.totalRqTunnel + 1);
        if e.busy then (s'.(totalFailRqTunnel := s'.totalFailRqTunnel + 1), c)
        else if e.draw < c.p then (s', c.(phase := Claiming))
        else (s', c)
    case Claiming =>
      if !e.Claimed? then (s, c)
      else if e.won then
        (s.(totalWaitTimeNs := s.totalWaitTimeNs + (e.now - c.sendStartTime),
            totalTxAttempts := s.totalTxAttempts + 1,
            successfulTx := s.successfulTx + 1),
         c.(phase := Sent))
      else
        (s.(totalTxAttempts := s.totalTxAttempts + 1, totalCollisions := s.totalCollisions + 1),
         c.(phase := Polling))
    case Sent => (s, c)
  }

  function Run(s: CenterRawStats, c: CenterCall, events: seq<CenterEvent>): (CenterRawStats, CenterCall)
    decreases |events|
  {
    if events == [] then (s, c)
    else
      var (s', c') := Step(s, c, events[0]);
      Run(s', c', events[1..])
  }

  ghost predicate ClockFrom(start: int, events: seq<CenterEvent>)
  {
    forall i | 0 <= i < |events| && events[i].Claimed? :: events[i].now >= start
  }

  /** Every draw of the trace is at or above 0, as `rand.Float64` guarantees. */
  ghost predicate DrawsNonNegative(events: seq<CenterEvent>)
  {
    forall i | 0 <= i < |events| && events[i].Polled? :: events[i].draw >= 0.0
  }

  /** How the counters `s` relate to those `s0` at the start of call `c`. */
  ghost predicate CallInvariant(s0: CenterRawStats, s: CenterRawStats, c: CenterCall)
  {
    && s.successfulTx == s0.successfulTx + (if c.phase.Sent? then 1 else 0)
    && s.totalCollisions >= s0.totalCollisions
    && s.totalTxAttempts == s0.totalTxAttempts + (s.successfulTx - s0.successfulTx) + (s.totalCollisions - s0.totalCollisions)
    && s.totalFailRqTunnel >= s0.totalFailRqTunnel
    && s.totalRqTunnel - s0.totalRqTunnel
       >= (s.totalTxAttempts - s0.totalTxAttempts) + (s.totalFailRqTunnel - s0.totalFailRqTunnel) + (if c.phase.Claiming? then 1 else 0)
    && s.totalWaitTimeNs >= s0.totalWaitTimeNs
  }

  lemma {:induction false} RunKeepsCallInvariant(s0: CenterRawStats, s: CenterRawStats, c: CenterCall, events: seq<CenterEvent>)
    requires CallInvariant(s0, s, c)
    requires ClockFrom(c.sendStartTime, events)
    ensures CallInvariant(s0, Run(s, c, events).0, Run(s, c, events).1)
    decreases |events|
  {
    if events != [] {
      var (s', c') := Step(s, c, events[0]);
      assert CallInvariant(s0, s', c');
      assert ClockFrom(c'.sendStartTime, events[1..]) by {
        forall i | 0 <= i < |events[1..]| && events[1..][i].Claimed?
          ensures events[1..][i].now >= c'.sendStartTime
        {
          assert events[1..][i] == events[i + 1];
        }
      }
      RunKeepsCallInvariant(s0, s', c', events[1..]);
    }
  }

  /**
   * The per-call facts of the station's `SendMessage`: `successfulTx` grows by one
   * exactly when the call has returned, and never by more; every attempt is a success
   * or a collision; attempts plus busy observations never outnumber rounds; the wait
   * total never decreases.
   */
  lemma SendMessageBounds(s0: CenterRawStats, c0: CenterCall, events: seq<CenterEvent>)
    requires c0.phase.Polling?
    requires ClockFrom(c0.sendStartTime, events)
    ensures var (s, c) := Run(s0, c0, events);
      && s.successfulTx <= s0.successfulTx + 1
      && (s.successfulTx == s0.successfulTx + 1 <==> c.phase.Sent?)
      && s.totalTxAttempts - s0.totalTxAttempts == (s.successfulTx - s0.successfulTx) + (s.totalCollisions - s0.totalCollisions)
      && (s.totalTxAttempts - s0.totalTxAttempts) + (s.totalFailRqTunnel - s0.totalFailRqTunnel) <= s.totalRqTunnel - s0.totalRqTunnel
      && s.totalWaitTimeNs >= s0.totalWaitTimeNs
  {
    RunKeepsCallInvariant(s0, s0, c0, events);
  }

  /** With p at or below 0 no draw passes, so the call never claims the channel and never returns. */
  lemma {:induction false} ZeroPNeverClaims(s: CenterRawStats, c: CenterCall, events: seq<CenterEvent>)
    requires c.phase.Polling? && c.p <= 0.0
    requires DrawsNonNegative(events)
    ensures Run(s, c, events).1.phase.Polling?
    ensures Run(s, c, events).0.totalTxAttempts == s.totalTxAttempts
    ensures Run(s, c, events).0.successfulTx == s.successfulTx
    decreases |events|
  {
    if events != [] {
      var (s', c') := Step(s, c, events[0]);
      assert DrawsNonNegative(events[1..]) by {
        forall i | 0 <= i < |events[1..]| && events[1..][i].Polled?
          ensures events[1..][i].draw >= 0.0
        {
          assert events[1..][i] == events[i + 1];
        }
      }
      ZeroPNeverClaims(s', c', events[1..]);
    }
  }

  class GroundControlCenter {
    const id: string
    const inboundQueue: Inbox
    var totalTxAttempts: nat
    var totalCollisions: nat
    var successfulTx: nat
    var totalRqTunnel: nat
    var totalFailRqTunnel: nat
    var totalWaitTimeNs: int

    /** Every transmission attempt ended as a success or a collision. */
    ghost predicate Valid()
      reads this
    {
      totalTxAttempts == successfulTx + totalCollisions
    }

    constructor (id: string)
      ensures Valid()
      ensures this.id == id
      ensures fresh(inboundQueue) && inboundQueue.capacity == InboxCapacity && inboundQueue.items == []
      ensures GetRawStats() == CenterRawStats(0, 0, 0, 0, 0, 0)
    {
      this.id := id;
      inboundQueue := new Inbox(InboxCapacity);
      totalTxAttempts, totalCollisions, successfulTx := 0, 0, 0;
      totalRqTunnel, totalFailRqTunnel, totalWaitTimeNs := 0, 0, 0;
    }

    /** A snapshot of the six counters. */
    function GetRawStats(): (r: CenterRawStats)
      reads this
      ensures r.successfulTx == successfulTx && r.totalTxAttempts == totalTxAttempts
      ensures r.totalCollisions == totalCollisions && r.totalRqTunnel == totalRqTunnel
      ensures r.totalFailRqTunnel == totalFailRqTunnel && r.totalWaitTimeNs == totalWaitTimeNs
    {
      CenterRawStats(successfulTx, totalTxAttempts, totalCollisions, totalRqTunnel, totalFailRqTunnel, totalWaitTimeNs)
    }

    /** The registration half of `StartListening`. */
    method RegisterOn(channel: Channel)
      modifies channel`listeners
      ensures channel.listeners == old(channel.listeners) + [inboundQueue]
    {
      channel.RegisterListener(inboundQueue);
    }

    /**
     * One iteration of the listening loop: take the next message and return the ACK
     * that the spawned `processMessage` goroutine will send, if any.
     */
    method HandleNext(now: int, marshal: AcknowledgementData -> Result<Bytes>) returns (ack: Option<Message>)
      modifies inboundQueue
      ensures old(inboundQueue.items) == [] ==> ack.None? && inboundQueue.items == []
      ensures old(inboundQueue.items) != [] ==>
        && inboundQueue.items == old(inboundQueue.items)[1..]
        && ack == ProcessMessage(id, old(inboundQueue.items)[0], now, marshal)
    {
      var next := inboundQueue.Receive();
      match next
      case None => ack := None;
      case Some(msg) => ack := ProcessMessage(id, msg, now, marshal);
    }

    /** One CSMA round up to the draw. */
    method Poll(call: CenterCall, draw: real) returns (next: CenterCall)
      requires call.phase.Polling? && Valid()
      modifies this`totalRqTunnel, this`totalFailRqTunnel
      ensures Valid()
      ensures (GetRawStats(), next) == Step(old(GetRawStats()), call, Polled(call.channel.isBusy, draw))
    {
      next := call;
      totalRqTunnel := totalRqTunnel + 1;
      if !call.channel.IsBusy() {
        if draw < call.p {
          next := call.(phase := Claiming);
        }
      } else {
        totalFailRqTunnel := totalFailRqTunnel + 1;
      }
    }

    /**
     * The claim at clock reading `now`, for the duration given by the time-slot argument:
     * a win records the wait and a success, a loss a collision; both count an attempt.
     */
    method Claim(call: CenterCall, now: int) returns (next: CenterCall)
      requires call.phase.Claiming? && call.channel.Valid() && Valid()
      modifies this`totalTxAttempts, this`totalCollisions, this`successfulTx, this`totalWaitTimeNs
      modifies call.channel`isBusy, call.channel`lastBusyTimestamp, call.channel`inFlight
      ensures Valid() && call.channel.Valid()
      ensures (GetRawStats(), next) == Step(old(GetRawStats()), call, Claimed(old(call.channel.inFlight).None?, now))
      ensures next.phase.Sent? ==>
        && call.channel.inFlight == Some(Transmission(call.msg, id, call.timeSlot))
        && call.channel.lastBusyTimestamp == now
      ensures !next.phase.Sent? ==>
        call.channel.inFlight == old(call.channel.inFlight) && call.channel.lastBusyTimestamp == old(call.channel.lastBusyTimestamp)
    {
      var won := call.channel.AttemptTransmit(call.msg, id, call.timeSlot, now);
      if won {
        totalWaitTimeNs := totalWaitTimeNs + (now - call.sendStartTime);
        totalTxAttempts := totalTxAttempts + 1;
        successfulTx := successfulTx + 1;
        next := call.(phase := Sent);
      } else {
        totalTxAttempts := totalTxAttempts + 1;
        totalCollisions := totalCollisions + 1;
        next := call.(phase := Polling);
      }
    }

    /** Zeroes all six counters. */
    method ResetStats()
      modifies this`totalTxAttempts, this`totalCollisions, this`successfulTx
      modifies this`totalRqTunnel, this`totalFailRqTunnel, this`totalWaitTimeNs
      ensures Valid()
      ensures GetRawStats() == CenterRawStats(0, 0, 0, 0, 0, 0)
    {
      totalTxAttempts, totalCollisions, successfulTx := 0, 0, 0;
      totalRqTunnel, totalFailRqTunnel, totalWaitTimeNs := 0, 0, 0;
    }
  }
}
