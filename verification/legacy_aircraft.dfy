/**
 * The older aircraft of aircraft.go: a single channel and a p table passed to every
 * send, four counters, and setters for the aircraft's reported state.
 *
 * Its counting differs from SimAircraft: every CSMA round is a transmission attempt,
 * every busy observation is a collision, and a lost `AttemptTransmit` race counts
 * nothing. Steps are modelled as in SimAircraft: a `SendCall` value, one step method
 * per lock-protected interaction, and the pure `Step` function as their specification.
 */
module LegacyAircraft {
  import opened Wrappers
  import opened Messages
  import opened Mailbox
  import opened Tables
  import opened LegacyChannel
  import SimAircraft

  const TransmissionTimeNs: int := 80_000_000
  const AckTimeoutNs: int := 3_000_000_000
  const MaxRetries: nat := 16
  const InboxCapacity: nat := 20

  /** The report records the setters store; floats are reals and times are nanosecond readings. */
  datatype PositionReportData = PositionReportData(
    latitude: real, longitude: real, altitude: real, speed: real, heading: real, timestamp: int)
  datatype EngineReportData = EngineReportData(
    engineID: int, n1RPM: real, egt: real, fuelFlow: real, oilPressure: real, flightPhase: string, reportTimeUTC: int)
  datatype OOOIReportData = OOOIReportData(
    outTime: int, offTime: int, onTime: int, inTime: int, origin: string, dest: string)

  datatype LegacyRawStats = LegacyRawStats(successfulTx: nat, totalTxAttempts: nat, totalCollisions: nat, totalRetries: nat)

  /** `AwaitingAck(since)`: the waiter is stored and the ack timer started at clock reading `since`. */
  datatype Phase = Attempting | Polling | Claiming | AwaitingAck(since: int) | Delivered | GaveUp

  /** A call's locals: the message, its channel, p read once from the table, and the loop counter. */
  datatype SendCall = SendCall(msg: Message, channel: Channel, p: real, retries: nat, phase: Phase)

  datatype Event =
    | Looped                         // the retry loop's head runs
    | Polled(busy: bool, draw: real) // the busy check and the draw of the round
    | Claimed(won: bool, now: int)   // `AttemptTransmit`'s answer and the clock
    | Awaited(acked: bool, now: int) // the select took the ack, or else looked at the timer at `now`

  /** A call as `SendMessage` starts it: p is the table's entry for the priority, 0 when unmapped. */
  function BeginSend(msg: Message, channel: Channel, pMap: PriorityTable?): (c: SendCall)
    reads pMap
    ensures msg.GetPriority() in Entries(pMap) ==> c.p == Entries(pMap)[msg.GetPriority()]
    ensures msg.GetPriority() !in Entries(pMap) ==> c.p == 0.0
    ensures c.phase.Attempting? && c.retries == 0
  {
    SendCall(msg, channel, Lookup(pMap, msg.GetPriority()), 0, Attempting)
  }

  function MessageID(c: SendCall): string
  {
    c.msg.GetBaseMessage().messageID
  }

  function Step(s: LegacyRawStats, c: SendCall, e: Event): (r: (LegacyRawStats, SendCall))
    ensures r.1.msg == c.msg && r.1.channel == c.channel && r.1.p == c.p
    ensures c.phase.Delivered? || c.phase.GaveUp? ==> r == (s, c)
    ensures r.0.totalTxAttempts == s.totalTxAttempts + (if c.phase.Polling? && e.Polled? then 1 else 0)
    ensures r.0.totalCollisions == s.totalCollisions + (if c.phase.Polling? && e.Polled? && e.busy then 1 else 0)
    ensures c.phase.Claiming? ==> r.0 == s
    ensures c.phase.Claiming? && e.Claimed? && !e.won ==> r.1.phase.Polling?
    ensures r.0.successfulTx >= s.successfulTx && r.0.successfulTx <= s.successfulTx + 1
    ensures r.0.successfulTx > s.successfulTx <==> c.phase.AwaitingAck? && e.Awaited? && e.acked
    ensures r.0.successfulTx > s.successfulTx ==> r.1.phase.Delivered?
    ensures r.0.totalRetries >= s.totalRetries && r.0.totalRetries <= s.totalRetries + 1
    ensures r.0.totalRetries > s.totalRetries ==> c.phase.Attempting? && 0 < c.retries < MaxRetries
    ensures c.phase.Claiming? && e.Claimed? && e.won ==> r.1.phase == AwaitingAck(e.now)
    ensures r.1.retries != c.retries ==>
      c.phase.AwaitingAck? && e.Awaited? && !e.acked && e.now >= c.phase.since + AckTimeoutNs
      && r.1.retries == c.retries + 1 && r.1.phase.Attempting?
  {
    match c.phase
    case Attempting =>
      if c.retries >= MaxRetries then (s, c.(phase := GaveUp))
      else if !e.Looped? then (s, c)
      else
        var s' := if c.retries > 0 then s.(totalRetries := s.totalRetries + 1) else s;
        (s', c.(phase := Polling))
    case Polling =>
      if !e.Polled? then (s, c)
      else
        var s' := s.(totalTxAttempts := s.totalTxAttempts + 1);
        if e.busy then (s'.(totalCollisions := s'.totalCollisions + 1), c)
        else if e.draw < c.p then (s', c.(phase := Claiming))
        else (s', c)
    case Claiming =>
      if !e.Claimed? then (s, c)
      else if e.won then (s, c.(phase := AwaitingAck(e.now)))
      else (s, c.(phase := Polling))
    case AwaitingAck(since) =>
      if !e.Awaited? then (s, c)
      else if e.acked then (s.(successfulTx := s.successfulTx + 1), c.(phase := Delivered))
      else if e.now >= since + AckTimeoutNs then (s, c.(retries := c.retries + 1, phase := Attempting))
      else (s, c)
    case Delivered => (s, c)
    case GaveUp => (s, c)
  }

  function Run(s: LegacyRawStats, c: SendCall, events: seq<Event>): (LegacyRawStats, SendCall)
    decreases |events|
  {
    if events == [] then (s, c)
    else
      var (s', c') := Step(s, c, events[0]);
      Run(s', c', events[1..])
  }

  /** How many claims of the trace succeeded. */
  function CommitsIn(s: LegacyRawStats, c: SendCall, events: seq<Event>): nat
    decreases |events|
  {
    if events == [] then 0
    else
      var (s', c') := Step(s, c, events[0]);
      (if c.phase.Claiming? && events[0].Claimed? && events[0].won then 1 else 0) + CommitsIn(s', c', events[1..])
  }

  function CyclesEntered(c: SendCall): nat
  {
    c.retries + (if c.phase.AwaitingAck? || c.phase.Delivered? then 1 else 0)
  }

  function RetriesCounted(c: SendCall): nat
  {
    if c.phase.Attempting? || c.phase.GaveUp? then (if c.retries == 0 then 0 else c.retries - 1)
    else c.retries
  }

  ghost predicate CallInvariant(s0: LegacyRawStats, s: LegacyRawStats, c: SendCall)
  {
    && c.retries <= MaxRetries
    && (!c.phase.Attempting? && !c.phase.GaveUp? ==> c.retries < MaxRetries)
    && (c.phase.GaveUp? ==> c.retries == MaxRetries)
    && s.totalRetries == s0.totalRetries + RetriesCounted(c)
    && s.successfulTx == s0.successfulTx + (if c.phase.Delivered? then 1 else 0)
    && s.totalCollisions >= s0.totalCollisions
    && s.totalTxAttempts - s0.totalTxAttempts >= s.totalCollisions - s0.totalCollisions
  }

  lemma {:induction false} RunKeepsCallInvariant(s0: LegacyRawStats, s: LegacyRawStats, c: SendCall, events: seq<Event>)
    requires CallInvariant(s0, s, c)
    ensures CallInvariant(s0, Run(s, c, events).0, Run(s, c, events).1)
    ensures CommitsIn(s, c, events) + CyclesEntered(c) == CyclesEntered(Run(s, c, events).1)
    decreases |events|
  {
    if events != [] {
      var (s', c') := Step(s, c, events[0]);
      assert CallInvariant(s0, s', c');
      RunKeepsCallInvariant(s0, s', c', events[1..]);
    }
  }

  /**
   * The per-call facts of the older `SendMessage`: at most `MaxRetries` committed
   * transmissions, `totalRetries` grown by at most `MaxRetries - 1`, `successfulTx`
   * grown by one exactly when the call returned after its ack, and collisions never
   * outnumbering attempts.
   */
  lemma SendMessageBounds(s0: LegacyRawStats, msg: Message, channel: Channel, p: real, events: seq<Event>)
    ensures var c0 := SendCall(msg, channel, p, 0, Attempting);
      var (s, c) := Run(s0, c0, events);
      && CommitsIn(s0, c0, events) <= MaxRetries
      && s.totalRetries <= s0.totalRetries + MaxRetries - 1
      && s.successfulTx <= s0.successfulTx + 1
      && (s.successfulTx == s0.successfulTx + 1 <==> c.phase.Delivered?)
      && s.totalCollisions - s0.totalCollisions <= s.totalTxAttempts - s0.totalTxAttempts
  {
    RunKeepsCallInvariant(s0, s0, SendCall(msg, channel, p, 0, Attempting), events);
  }

  /**
   * Whatever the channel, draws and acks do, a call that has given up committed exactly
   * `MaxRetries` transmissions, grew `totalRetries` by exactly `MaxRetries - 1` and
   * counted no success.
   */
  lemma GiveUpAccounting(s0: LegacyRawStats, msg: Message, channel: Channel, p: real, events: seq<Event>)
    requires Run(s0, SendCall(msg, channel, p, 0, Attempting), events).1.phase.GaveUp?
    ensures CommitsIn(s0, SendCall(msg, channel, p, 0, Attempting), events) == MaxRetries
    ensures Run(s0, SendCall(msg, channel, p, 0, Attempting), events).0.totalRetries == s0.totalRetries + MaxRetries - 1
    ensures Run(s0, SendCall(msg, channel, p, 0, Attempting), events).0.successfulTx == s0.successfulTx
  {
    RunKeepsCallInvariant(s0, s0, SendCall(msg, channel, p, 0, Attempting), events);
  }

  class Aircraft {
    const icaoAddress: string
    const registration: string
    const aircraftType: string
    const manufacturer: string
    const serialNumber: string
    const airlineICAOCode: string
    var currentFlightID: string
    var currentFlightPhase: string
    var lastOOOIReport: Option<OOOIReportData>
    var currentPosition: Option<PositionReportData>
    var fuelRemainingKG: real
    var fuelConsumptionRateKGPH: real
    var engineStatus: map<int, EngineReportData>
    var lastDataReportTimestamp: int
    const inboundQueue: Inbox
    /** Registered ack waiters by message ID; the value says whether the waiter's buffer holds a signal. */
    var ackWaiters: map<string, bool>
    /**
     * The waiter ID the listener is stuck sending to, if any: it took an ACK off the inbox
     * for a waiter whose buffer was full, and blocks until that waiter's call takes the signal.
     */
    var listenerBlockedOn: Option<string>
    var totalTxAttempts: nat
    var totalCollisions: nat
    var successfulTx: nat
    var totalRetries: nat

    /** `NewAircraft` at clock reading `now`. */
    constructor (icaoAddr: string, reg: string, aircraftType: string, manufacturer: string,
                 serialNum: string, airlineCode: string, now: int)
      ensures icaoAddress == icaoAddr && registration == reg && this.aircraftType == aircraftType
      ensures this.manufacturer == manufacturer && serialNumber == serialNum && airlineICAOCode == airlineCode
      ensures currentFlightID == "" && currentFlightPhase == ""
      ensures lastOOOIReport.None? && currentPosition.None?
      ensures fuelRemainingKG == 0.0 && fuelConsumptionRateKGPH == 0.0
      ensures engineStatus == map[] && lastDataReportTimestamp == now
      ensures fresh(inboundQueue) && inboundQueue.capacity == InboxCapacity && inboundQueue.items == []
      ensures ackWaiters == map[] && listenerBlockedOn == None
      ensures GetRawStats() == LegacyRawStats(0, 0, 0, 0)
    {
      icaoAddress := icaoAddr;
      registration := reg;
      this.aircraftType := aircraftType;
      this.manufacturer := manufacturer;
      serialNumber := serialNum;
      airlineICAOCode := airlineCode;
      currentFlightID, currentFlightPhase := "", "";
      lastOOOIReport, currentPosition := None, None;
      fuelRemainingKG, fuelConsumptionRateKGPH := 0.0, 0.0;
      engineStatus := map[];
      lastDataReportTimestamp := now;
      inboundQueue := new Inbox(InboxCapacity);
      ackWaiters := map[];
      listenerBlockedOn := None;
      totalTxAttempts, totalCollisions, successfulTx, totalRetries := 0, 0, 0, 0;
    }

    function GetRawStats(): (r: LegacyRawStats)
      reads this
      ensures r.successfulTx == successfulTx && r.totalTxAttempts == totalTxAttempts
      ensures r.totalCollisions == totalCollisions && r.totalRetries == totalRetries
    {
      LegacyRawStats(successfulTx, totalTxAttempts, totalCollisions, totalRetries)
    }

    ghost predicate Tracks(c: SendCall)
      reads this
    {
      c.phase.AwaitingAck? <==> MessageID(c) in ackWaiters
    }

    /**
     * The listener is blocked for good: the waiter it sends to is gone, and any waiter now
     * registered under that ID is empty and could only be filled by the listener itself.
     */
    ghost predicate Wedged()
      reads this
    {
      && listenerBlockedOn.Some?
      && (listenerBlockedOn.value !in ackWaiters || !ackWaiters[listenerBlockedOn.value])
    }

    /** The registration half of `StartListening`. */
    method RegisterOn(channel: Channel)
      modifies channel`listeners
      ensures channel.listeners == old(channel.listeners) + [inboundQueue]
    {
      channel.RegisterListener(inboundQueue);
    }

    /** One iteration of the listener loop (its filter is SimAircraft's), or nothing while it is blocked in a send. */
    method ListenStep(unmarshal: Bytes -> Result<AcknowledgementData>) returns (outcome: SimAircraft.ListenOutcome)
      modifies this`ackWaiters, this`listenerBlockedOn, inboundQueue
      ensures old(listenerBlockedOn).Some? ==>
        outcome.StillBlocked? && inboundQueue.items == old(inboundQueue.items)
      ensures old(listenerBlockedOn).None? && old(inboundQueue.items) == [] ==>
        outcome.NothingToRead? && inboundQueue.items == []
      ensures old(listenerBlockedOn).None? && old(inboundQueue.items) != [] ==>
        && outcome == SimAircraft.ClassifyInbound(old(inboundQueue.items)[0], unmarshal, old(ackWaiters))
        && inboundQueue.items == old(inboundQueue.items)[1..]
      ensures outcome.Signalled? ==> ackWaiters == old(ackWaiters)[outcome.originalID := true]
      ensures !outcome.Signalled? ==> ackWaiters == old(ackWaiters)
      ensures outcome.WaiterFull? ==> listenerBlockedOn == Some(outcome.originalID)
      ensures !outcome.WaiterFull? ==> listenerBlockedOn == old(listenerBlockedOn)
      ensures old(Wedged()) ==> Wedged()
    {
      if listenerBlockedOn.Some? {
        return SimAircraft.StillBlocked;
      }
      if inboundQueue.items == [] {
        return SimAircraft.NothingToRead;
      }
      outcome := SimAircraft.ClassifyInbound(inboundQueue.items[0], unmarshal, ackWaiters);
      var _ := inboundQueue.Receive();
      if outcome.Signalled? {
        ackWaiters := ackWaiters[outcome.originalID := true];
      } else if outcome.WaiterFull? {
        listenerBlockedOn := Some(outcome.originalID);
      }
    }

    /** The head of the retry loop: give up after `MaxRetries` attempts, else count a retransmission. */
    method BeginAttempt(call: SendCall) returns (next: SendCall)
      requires call.phase.Attempting? && Tracks(call)
      modifies this`totalRetries
      ensures Tracks(next)
      ensures (GetRawStats(), next) == Step(old(GetRawStats()), call, Looped)
    {
      if call.retries >= MaxRetries {
        return call.(phase := GaveUp);
      }
      if call.retries > 0 {
        totalRetries := totalRetries + 1;
      }
      next := call.(phase := Polling);
    }

    /** One CSMA round up to the draw: always an attempt, and a collision when the channel is busy. */
    method Poll(call: SendCall, draw: real) returns (next: SendCall)
      requires call.phase.Polling? && Tracks(call)
      modifies this`totalTxAttempts, this`totalCollisions
      ensures Tracks(next)
      ensures (GetRawStats(), next) == Step(old(GetRawStats()), call, Polled(call.channel.isBusy, draw))
    {
      next := call;
      totalTxAttempts := totalTxAttempts + 1;
      if !call.channel.IsBusy() {
        if draw < call.p {
          next := call.(phase := Claiming);
        }
      } else {
        totalCollisions := totalCollisions + 1;
      }
    }

    /**
     * The claim at clock reading `now`: a win registers an empty waiter and starts the
     * ack timer; a lost race counts nothing and keeps polling.
     */
    method Claim(call: SendCall, now: int) returns (next: SendCall)
      requires call.phase.Claiming? && call.channel.Valid() && Tracks(call)
      modifies this`ackWaiters, call.channel`isBusy, call.channel`inFlight
      ensures call.channel.Valid() && Tracks(next)
      ensures (GetRawStats(), next) == Step(old(GetRawStats()), call, Claimed(old(call.channel.inFlight).None?, now))
      ensures next.phase.AwaitingAck? ==>
        ackWaiters == old(ackWaiters)[MessageID(call) := false] && call.channel.inFlight == Some(call.msg)
      ensures !next.phase.AwaitingAck? ==>
        ackWaiters == old(ackWaiters) && call.channel.inFlight == old(call.channel.inFlight)
      ensures old(Wedged()) ==> Wedged()
    {
      var won := call.channel.AttemptTransmit(call.msg, currentFlightID, TransmissionTimeNs);
      if won {
        ackWaiters := ackWaiters[MessageID(call) := false];
        next := call.(phase := AwaitingAck(now));
      } else {
        next := call.(phase := Polling);
      }
    }

    /**
     * The select between the waiter's buffer and the ack timer at clock reading `now`.
     * The timer is ready once `AckTimeoutNs` has passed since the claim; `timerChosen`
     * is Go's random pick when both are ready. With neither ready the call stays
     * blocked; either way out, the waiter is removed.
     */
    method AwaitAck(call: SendCall, now: int, timerChosen: bool) returns (next: SendCall)
      requires call.phase.AwaitingAck? && Tracks(call)
      modifies this`successfulTx, this`ackWaiters, this`listenerBlockedOn
      ensures Tracks(next)
      ensures var signalled := old(ackWaiters)[MessageID(call)];
        var expired := now >= call.phase.since + AckTimeoutNs;
        (GetRawStats(), next) == Step(old(GetRawStats()), call, Awaited(signalled && !(expired && timerChosen), now))
      ensures next == call ==> ackWaiters == old(ackWaiters)
      ensures next != call ==> ackWaiters == old(ackWaiters) - {MessageID(call)}
      ensures listenerBlockedOn ==
        if next.phase.Delivered? && old(listenerBlockedOn) == Some(MessageID(call)) then None
        else old(listenerBlockedOn)
      ensures old(Wedged()) ==> Wedged()
      ensures old(listenerBlockedOn) == Some(MessageID(call)) && next.phase.Attempting? ==> Wedged()
    {
      var id := MessageID(call);
      var signalled := ackWaiters[id];
      var expired := now >= call.phase.since + AckTimeoutNs;
      if !expired && !signalled {
        return call;
      }
      ackWaiters := ackWaiters - {id};
      if signalled && !(expired && timerChosen) {
        successfulTx := successfulTx + 1;
        next := call.(phase := Delivered);
        if listenerBlockedOn == Some(id) {
          listenerBlockedOn := None;
        }
      } else {
        next := call.(retries := call.retries + 1, phase := Attempting);
      }
    }

    method UpdatePosition(lat: real, lon: real, alt: real, speed: real, heading: real, now: int)
      modifies this`currentPosition, this`lastDataReportTimestamp
      ensures currentPosition == Some(PositionReportData(lat, lon, alt, speed, heading, now))
      ensures lastDataReportTimestamp == now
    {
      currentPosition := Some(PositionReportData(lat, lon, alt, speed, heading, now));
      lastDataReportTimestamp := now;
    }

    method UpdateFuel(remainingKG: real, consumptionRateKGPH: real, now: int)
      modifies this`fuelRemainingKG, this`fuelConsumptionRateKGPH, this`lastDataReportTimestamp
      ensures fuelRemainingKG == remainingKG && fuelConsumptionRateKGPH == consumptionRateKGPH
      ensures lastDataReportTimestamp == now
    {
      fuelRemainingKG := remainingKG;
      fuelConsumptionRateKGPH := consumptionRateKGPH;
      lastDataReportTimestamp := now;
    }

    /** Writes the entry of engine `engineID` only. */
    method UpdateEngineStatus(engineID: int, n1: real, egt: real, fuelFlow: real, oilPressure: real,
                              flightPhase: string, now: int)
      modifies this`engineStatus, this`lastDataReportTimestamp
      ensures engineStatus == old(engineStatus)[engineID := EngineReportData(engineID, n1, egt, fuelFlow, oilPressure, flightPhase, now)]
      ensures lastDataReportTimestamp == now
    {
      engineStatus := engineStatus[engineID := EngineReportData(engineID, n1, egt, fuelFlow, oilPressure, flightPhase, now)];
      lastDataReportTimestamp := now;
    }

    method UpdateOOOIReport(outTime: int, offTime: int, onTime: int, inTime: int, origin: string, dest: string, now: int)
      modifies this`lastOOOIReport, this`lastDataReportTimestamp
      ensures lastOOOIReport == Some(OOOIReportData(outTime, offTime, onTime, inTime, origin, dest))
      ensures lastDataReportTimestamp == now
    {
      lastOOOIReport := Some(OOOIReportData(outTime, offTime, onTime, inTime, origin, dest));
      lastDataReportTimestamp := now;
    }
  }
}
