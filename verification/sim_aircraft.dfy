/**
 * The aircraft of simulation/aircraft.go: its ack listener and the retry / p-persistent
 * CSMA / ack-wait loop of `SendMessage`, with seven counters.
 *
 * One `SendMessage` call is a goroutine; its program point and locals are a `SendCall`
 * value. Each lock-protected interaction is one step method: `BeginAttempt` (top of the
 * retry loop: channel choice, p and slot), `Poll` (one CSMA round up to the draw),
 * `Claim` (the `AttemptTransmit` call) and `AwaitAck` (the select between the ack and
 * the timer). Other goroutines may run between steps, which is how a claim can lose
 * after an idle poll. The pure function `Step` is the specification of every step, and
 * `Run` folds it over a trace of events; the per-call facts are lemmas about `Run`.
 */
module SimAircraft {
  import opened Wrappers
  import opened Messages
  import opened Mailbox
  import opened SimChannel
  import SimCommunicationSystem
  import Config

  datatype AircraftRawStats = AircraftRawStats(
    successfulTx: nat,
    totalTxAttempts: nat,
    totalCollisions: nat,
    totalRetries: nat,
    totalRqTunnel: nat,
    totalFailRqTunnel: nat,
    totalWaitTime: int)

  /** The program point of a `SendMessage` call. */
  datatype Phase =
    | Attempting                                     // top of the retry loop
    | Polling(target: Channel, p: real, slot: int)   // in the CSMA loop, before the busy check
    | Claiming(target: Channel, p: real, slot: int)  // the draw passed; `AttemptTransmit` next
    | AwaitingAck(since: int)                        // waiter stored and ack timer started at `since`
    | Delivered                                      // returned after the ack
    | GaveUp                                         // the retry loop ran out

  /** A call's locals: the message, the start time taken before the loop, and the loop counter. */
  datatype SendCall = SendCall(msg: Message, sendStartTime: int, retries: nat, phase: Phase)

  /** What a step observed from its environment. */
  datatype Event =
    | Selected(target: Channel, p: real, slot: int)  // channel choice with its p and time slot
    | Polled(busy: bool, draw: real)                 // the busy check and the draw of the round
    | Claimed(won: bool, now: int)                   // `AttemptTransmit`'s answer and the clock
    | Awaited(acked: bool, now: int)                 // the select took the ack, or else looked at the timer at `now`

  /** A call as `SendMessage` starts it at clock reading `now`: first attempt, no retries yet. */
  function Begin(msg: Message, now: int): (c: SendCall)
    ensures c.msg == msg && c.sendStartTime == now
    ensures c.retries == 0 && c.phase.Attempting?
    ensures MessageID(c) == msg.GetBaseMessage().messageID
  {
    SendCall(msg, now, 0, Attempting)
  }

  function MessageID(c: SendCall): string
  {
    c.msg.GetBaseMessage().messageID
  }

  /**
   * One step of a call. An event that does not fit the call's program point changes
   * nothing; a finished call never moves again.
   */
  function Step(s: AircraftRawStats, c: SendCall, e: Event): (r: (AircraftRawStats, SendCall))
    ensures r.1.msg == c.msg && r.1.sendStartTime == c.sendStartTime
    ensures c.phase.Delivered? || c.phase.GaveUp? ==> r == (s, c)
    ensures r.0.totalRqTunnel == s.totalRqTunnel + (if c.phase.Polling? && e.Polled? then 1 else 0)
    ensures r.0.totalFailRqTunnel == s.totalFailRqTunnel + (if c.phase.Polling? && e.Polled? && e.busy then 1 else 0)
    ensures r.0.totalTxAttempts >= s.totalTxAttempts && r.0.totalTxAttempts <= s.totalTxAttempts + 1
    ensures r.0.totalTxAttempts > s.totalTxAttempts <==>
      c.phase.Polling? && e.Polled? && !e.busy && e.draw < c.phase.p
    ensures r.0.totalCollisions >= s.totalCollisions && r.0.totalCollisions <= s.totalCollisions + 1
    ensures r.0.totalCollisions > s.totalCollisions <==> c.phase.Claiming? && e.Claimed? && !e.won
    ensures r.0.successfulTx >= s.successfulTx && r.0.successfulTx <= s.successfulTx + 1
    ensures r.0.successfulTx > s.successfulTx <==> c.phase.AwaitingAck? && e.Awaited? && e.acked
    ensures r.0.successfulTx > s.successfulTx ==> r.1.phase.Delivered?
    ensures r.0.totalRetries >= s.totalRetries && r.0.totalRetries <= s.totalRetries + 1
    ensures r.0.totalRetries > s.totalRetries ==> c.phase.Attempting? && 0 < c.retries < Config.MaxRetries
    ensures r.0.totalWaitTime != s.totalWaitTime ==> c.phase.Claiming? && e.Claimed? && e.won
    ensures c.phase.Claiming? && e.Claimed? && e.won ==>
      r.0.totalWaitTime == s.totalWaitTime + (e.now - c.sendStartTime) && r.1.phase == AwaitingAck(e.now)
    ensures r.1.retries != c.retries ==>
      c.phase.AwaitingAck? && e.Awaited? && !e.acked && e.now >= c.phase.since + Config.AckTimeoutNs
      && r.1.retries == c.retries + 1 && r.1.phase.Attempting?
  {
    match c.phase
    case Attempting =>
      if c.retries >= Config.MaxRetries then (s, c.(phase := GaveUp))
      else if !e.Selected? then (s, c)
      else
        var s' := if c.retries > 0 then s.(totalRetries := s.totalRetries + 1) else s;
        (s', c.(phase := Polling(e.target, e.p, e.slot)))
    case Polling(target, p, slot) =>
      if !e.Polled? then (s, c)
      else
        var s' := s.(totalRqTunnel := s.totalRqTunnel + 1);
        if e.busy then (s'.(totalFailRqTunnel := s'.totalFailRqTunnel + 1), c)
        else if e.draw < p then (s'.(totalTxAttempts := s'.totalTxAttempts + 1), c.(phase := Claiming(target, p, slot)))
        else (s', c)
    case Claiming(target, p, slot) =>
      if !e.Claimed? then (s, c)
      else if e.won then (s.(totalWaitTime := s.totalWaitTime + (e.now - c.sendStartTime)), c.(phase := AwaitingAck(e.now)))
      else (s.(totalCollisions := s.totalCollisions + 1), c.(phase := Polling(target, p, slot)))
    case AwaitingAck(since) =>
      if !e.Awaited? then (s, c)
      else if e.acked then (s.(successfulTx := s.successfulTx + 1), c.(phase := Delivered))
      else if e.now >= since + Config.AckTimeoutNs then (s, c.(retries := c.retries + 1, phase := Attempting))
      else (s, c)
    case Delivered => (s, c)
    case GaveUp => (s, c)
  }

  /** The state after a trace of events. */
  function Run(s: AircraftRawStats, c: SendCall, events: seq<Event>): (AircraftRawStats, SendCall)
    decreases |events|
  {
    if events == [] then (s, c)
    else
      var (s', c') := Step(s, c, events[0]);
      Run(s', c', events[1..])
  }

  /** How many claims of the trace succeeded, i.e. how many transmissions the call committed. */
  function CommitsIn(s: AircraftRawStats, c: SendCall, events: seq<Event>): nat
    decreases |events|
  {
    if events == [] then 0
    else
      var (s', c') := Step(s, c, events[0]);
      (if c.phase.Claiming? && events[0].Claimed? && events[0].won then 1 else 0) + CommitsIn(s', c', events[1..])
  }

  /** Every clock reading the trace hands to a claim is at or after `start` (the clock is monotonic). */
  ghost predicate ClockFrom(start: int, events: seq<Event>)
  {
    forall i | 0 <= i < |events| && events[i].Claimed? :: events[i].now >= start
  }

  /** Commit/ack-wait cycles a call has entered, read off its program point. */
  function CyclesEntered(c: SendCall): nat
  {
    c.retries + (if c.phase.AwaitingAck? || c.phase.Delivered? then 1 else 0)
  }

  /** Increments of `totalRetries` a call has made, read off its program point. */
  function RetriesCounted(c: SendCall): nat
  {
    if c.phase.Attempting? || c.phase.GaveUp? then (if c.retries == 0 then 0 else c.retries - 1)
    else c.retries
  }

  /** How the counters `s` relate to those `s0` at the start of call `c`, with no other goroutine counting. */
  ghost predicate CallInvariant(s0: AircraftRawStats, s: AircraftRawStats, c: SendCall)
  {
    && c.retries <= Config.MaxRetries
    && (!c.phase.Attempting? && !c.phase.GaveUp? ==> c.retries < Config.MaxRetries)
    && (c.phase.GaveUp? ==> c.retries == Config.MaxRetries)
    && s.totalRetries == s0.totalRetries + RetriesCounted(c)
    && s.successfulTx == s0.successfulTx + (if c.phase.Delivered? then 1 else 0)
    && s.totalCollisions >= s0.totalCollisions
    && s.totalTxAttempts == s0.totalTxAttempts + (s.totalCollisions - s0.totalCollisions)
                            + CyclesEntered(c) + (if c.phase.Claiming? then 1 else 0)
    && s.totalFailRqTunnel >= s0.totalFailRqTunnel
    && s.totalRqTunnel - s0.totalRqTunnel >= (s.totalTxAttempts - s0.totalTxAttempts) + (s.totalFailRqTunnel - s0.totalFailRqTunnel)
    && s.totalWaitTime >= s0.totalWaitTime
  }

  lemma StepKeepsCallInvariant(s0: AircraftRawStats, s: AircraftRawStats, c: SendCall, e: Event)
    requires CallInvariant(s0, s, c)
    requires e.Claimed? ==> e.now >= c.sendStartTime
    ensures CallInvariant(s0, Step(s, c, e).0, Step(s, c, e).1)
    ensures CommitsIn(s, c, [e]) + CyclesEntered(c) == CyclesEntered(Step(s, c, e).1)
  {
  }

  /** The invariant holds after any trace, and the commits along it are the cycles it added. */
  lemma {:induction false} RunKeepsCallInvariant(s0: AircraftRawStats, s: AircraftRawStats, c: SendCall, events: seq<Event>)
    requires CallInvariant(s0, s, c)
    requires ClockFrom(c.sendStartTime, events)
    ensures CallInvariant(s0, Run(s, c, events).0, Run(s, c, events).1)
    ensures CommitsIn(s, c, events) + CyclesEntered(c) == CyclesEntered(Run(s, c, events).1)
    decreases |events|
  {
    if events != [] {
      StepKeepsCallInvariant(s0, s, c, events[0]);
      var (s', c') := Step(s, c, events[0]);
      assert ClockFrom(c'.sendStartTime, events[1..]) by {
        forall i | 0 <= i < |events[1..]| && events[1..][i].Claimed?
          ensures events[1..][i].now >= c'.sendStartTime
        {
          assert events[1..][i] == events[i + 1];
        }
      }
      RunKeepsCallInvariant(s0, s', c', events[1..]);
    }
  }

  /**
   * The per-call facts of `SendMessage`, whatever the channels, draws and acks do:
   * at most `MaxRetries` transmissions are committed; `totalRetries` grows by at most
   * `MaxRetries - 1`; `successfulTx` grows by at most one, and by one exactly when the
   * call has returned after its ack; collisions never outnumber attempts; attempts plus
   * busy observations never outnumber rounds; the total wait time never decreases.
   */
  lemma SendMessageBounds(s0: AircraftRawStats, msg: Message, start: int, events: seq<Event>)
    requires ClockFrom(start, events)
    ensures var (s, c) := Run(s0, Begin(msg, start), events);
      && c.retries <= Config.MaxRetries
      && CommitsIn(s0, Begin(msg, start), events) <= Config.MaxRetries
      && s.totalRetries <= s0.totalRetries + Config.MaxRetries - 1
      && s.successfulTx <= s0.successfulTx + 1
      && (s.successfulTx == s0.successfulTx + 1 <==> c.phase.Delivered?)
      && s.totalCollisions - s0.totalCollisions <= s.totalTxAttempts - s0.totalTxAttempts
      && (s.totalTxAttempts - s0.totalTxAttempts) + (s.totalFailRqTunnel - s0.totalFailRqTunnel)
         <= s.totalRqTunnel - s0.totalRqTunnel
      && s.totalWaitTime >= s0.totalWaitTime
  {
    RunKeepsCallInvariant(s0, s0, Begin(msg, start), events);
  }

  /**
   * Whatever the channels, draws, acks and clock do, a call that has given up committed
   * exactly `MaxRetries` transmissions, grew `totalRetries` by exactly `MaxRetries - 1`
   * and counted no success.
   */
  lemma GiveUpAccounting(s0: AircraftRawStats, msg: Message, start: int, events: seq<Event>)
    requires ClockFrom(start, events)
    requires Run(s0, Begin(msg, start), events).1.phase.GaveUp?
    ensures CommitsIn(s0, Begin(msg, start), events) == Config.MaxRetries
    ensures Run(s0, Begin(msg, start), events).0.totalRetries == s0.totalRetries + Config.MaxRetries - 1
    ensures Run(s0, Begin(msg, start), events).0.successfulTx == s0.successfulTx
  {
    RunKeepsCallInvariant(s0, s0, Begin(msg, start), events);
  }

  /** A call that has returned stays returned: later events change neither it nor the counters. */
  lemma {:induction false} FinishedCallIsInert(s: AircraftRawStats, c: SendCall, events: seq<Event>)
    requires c.phase.Delivered? || c.phase.GaveUp?
    ensures Run(s, c, events) == (s, c)
    ensures CommitsIn(s, c, events) == 0
    decreases |events|
  {
    if events != [] {
      FinishedCallIsInert(s, c, events[1..]);
    }
  }

  /** The state after two traces in a row is the state after their concatenation. */
  lemma {:induction false} RunConcat(s: AircraftRawStats, c: SendCall, a: seq<Event>, b: seq<Event>)
    ensures Run(s, c, a + b) == Run(Run(s, c, a).0, Run(s, c, a).1, b)
    decreases |a|
  {
    if a != [] {
      assert (a + b)[0] == a[0];
      assert (a + b)[1..] == a[1..] + b;
      var s', c' := Step(s, c, a[0]).0, Step(s, c, a[0]).1;
      assert Run(s, c, a + b) == Run(s', c', a[1..] + b);
      assert Run(s, c, a) == Run(s', c', a[1..]);
      RunConcat(s', c', a[1..], b);
    } else {
      assert a + b == b;
    }
  }

  /** One retry-loop iteration in which the transmission commits at once and the timer expires with no ack. */
  function TimeoutCycle(target: Channel, slot: int, now: int): seq<Event>
  {
    [Selected(target, 1.0, slot), Polled(false, 0.0), Claimed(true, now), Awaited(false, now + Config.AckTimeoutNs)]
  }

  function TimeoutCycles(target: Channel, slot: int, now: int, k: nat): seq<Event>
  {
    if k == 0 then [] else TimeoutCycle(target, slot, now) + TimeoutCycles(target, slot, now, k - 1)
  }

  lemma TimeoutCycleRun(s: AircraftRawStats, msg: Message, start: int, r: nat, target: Channel, slot: int, now: int)
    requires r < Config.MaxRetries
    ensures var (s', c') := Run(s, SendCall(msg, start, r, Attempting), TimeoutCycle(target, slot, now));
      && c' == SendCall(msg, start, r + 1, Attempting)
      && s'.successfulTx == s.successfulTx
      && s'.totalRetries == s.totalRetries + (if r == 0 then 0 else 1)
      && s'.totalTxAttempts == s.totalTxAttempts + 1
      && s'.totalCollisions == s.totalCollisions
  {
    var cycle := TimeoutCycle(target, slot, now);
    var c0 := SendCall(msg, start, r, Attempting);
    var (s1, c1) := Step(s, c0, cycle[0]);
    var (s2, c2) := Step(s1, c1, cycle[1]);
    var (s3, c3) := Step(s2, c2, cycle[2]);
    var (s4, c4) := Step(s3, c3, cycle[3]);
    assert c4 == SendCall(msg, start, r + 1, Attempting);
    assert Run(s3, c3, cycle[3..]) == Run(s4, c4, []) by { assert cycle[3..][1..] == []; }
    assert Run(s2, c2, cycle[2..]) == Run(s3, c3, cycle[3..]) by { assert cycle[2..][1..] == cycle[3..]; }
    assert Run(s1, c1, cycle[1..]) == Run(s2, c2, cycle[2..]) by { assert cycle[1..][1..] == cycle[2..]; }
    assert Run(s, c0, cycle) == Run(s1, c1, cycle[1..]);
  }

  lemma {:induction false} TimeoutCyclesRun(s: AircraftRawStats, msg: Message, start: int, r: nat, target: Channel, slot: int, now: int, k: nat)
    requires r + k <= Config.MaxRetries
    ensures var (s', c') := Run(s, SendCall(msg, start, r, Attempting), TimeoutCycles(target, slot, now, k));
      && c' == SendCall(msg, start, r + k, Attempting)
      && s'.successfulTx == s.successfulTx
      && s'.totalRetries == s.totalRetries + (if r == 0 then (if k == 0 then 0 else k - 1) else k)
      && s'.totalTxAttempts == s.totalTxAttempts + k
      && s'.totalCollisions == s.totalCollisions
    decreases k
  {
    if k > 0 {
      var c := SendCall(msg, start, r, Attempting);
      var cycle := TimeoutCycle(target, slot, now);
      RunConcat(s, c, cycle, TimeoutCycles(target, slot, now, k - 1));
      TimeoutCycleRun(s, msg, start, r, target, slot, now);
      var s1, c1 := Run(s, c, cycle).0, Run(s, c, cycle).1;
      TimeoutCyclesRun(s1, msg, start, r + 1, target, slot, now, k - 1);
    }
  }

  /**
   * When every ack wait times out, the call gives up after `MaxRetries` committed
   * transmissions with `totalRetries` grown by `MaxRetries - 1` (retransmissions, not
   * timeouts, are counted) and `successfulTx` unchanged.
   */
  lemma NoAckExhausts(s: AircraftRawStats, msg: Message, start: int, target: Channel, slot: int, now: int)
    requires now >= start
    ensures var events := TimeoutCycles(target, slot, now, Config.MaxRetries) + [Polled(false, 0.0)];
      var (s', c') := Run(s, Begin(msg, start), events);
      && c'.phase.GaveUp?
      && CommitsIn(s, Begin(msg, start), events) == Config.MaxRetries
      && s'.totalRetries == s.totalRetries + Config.MaxRetries - 1
      && s'.successfulTx == s.successfulTx
  {
    var cycles := TimeoutCycles(target, slot, now, Config.MaxRetries);
    var events := cycles + [Polled(false, 0.0)];
    TimeoutCyclesRun(s, msg, start, 0, target, slot, now, Config.MaxRetries);
    RunConcat(s, Begin(msg, start), cycles, [Polled(false, 0.0)]);
    assert ClockFrom(start, events) by {
      assert forall k: nat :: ClockFrom(start, TimeoutCycles(target, slot, now, k)) by {
        forall k: nat ensures ClockFrom(start, TimeoutCycles(target, slot, now, k)) {
          TimeoutCyclesClock(start, target, slot, now, k);
        }
      }
    }
    RunKeepsCallInvariant(s, s, Begin(msg, start), events);
  }

  lemma {:induction false} TimeoutCyclesClock(start: int, target: Channel, slot: int, now: int, k: nat)
    requires now >= start
    ensures ClockFrom(start, TimeoutCycles(target, slot, now, k))
    decreases k
  {
    if k > 0 {
      TimeoutCyclesClock(start, target, slot, now, k - 1);
    }
  }

  /** Capacity of an aircraft's inbox. */
  const InboxCapacity: nat := 20

  /** What one iteration of the listener loop did with the head of the inbox. */
  datatype ListenOutcome =
    | NothingToRead                      // the inbox is empty: the loop waits
    | IgnoredNotAck                      // not an ACK
    | IgnoredUnparsable                  // an ACK whose payload does not decode
    | IgnoredNoWaiter(originalID: string) // nobody waits for the acknowledged message
    | Signalled(originalID: string)      // the waiter's one-slot buffer takes the signal
    | WaiterFull(originalID: string)     // the waiter's buffer already holds a signal: the send blocks
    | StillBlocked                       // the listener is still inside a blocked send and reads nothing

  /**
   * The listener's filter: only an ACK whose payload decodes and names a message some
   * waiter is registered for reaches a waiter. `waiters` maps a message ID to whether
   * that waiter's buffer is already full.
   */
  function ClassifyInbound(msg: Message, unmarshal: Bytes -> Result<AcknowledgementData>, waiters: map<string, bool>)
    : (o: ListenOutcome)
    ensures !o.NothingToRead? && !o.StillBlocked?
    ensures o.IgnoredNotAck? <==> msg.GetBaseMessage().msgType != MsgTypeAck
    ensures o.IgnoredUnparsable? <==> msg.GetBaseMessage().msgType == MsgTypeAck && unmarshal(msg.GetData()).Failure?
    ensures o.Signalled? || o.WaiterFull? <==>
      && msg.GetBaseMessage().msgType == MsgTypeAck
      && unmarshal(msg.GetData()).Success?
      && unmarshal(msg.GetData()).value.originalMessageID in waiters
    ensures o.Signalled? || o.WaiterFull? || o.IgnoredNoWaiter? ==>
      o.originalID == unmarshal(msg.GetData()).value.originalMessageID
    ensures o.Signalled? ==> !waiters[o.originalID]
    ensures o.WaiterFull? ==> waiters[o.originalID]
  {
    if msg.GetBaseMessage().msgType != MsgTypeAck then IgnoredNotAck
    else
      match unmarshal(msg.GetData())
      case Failure(_) => IgnoredUnparsable
      case Success(ack) =>
        var id := ack.originalMessageID;
        if id !in waiters then IgnoredNoWaiter(id)
        else if waiters[id] then WaiterFull(id)
        else Signalled(id)
  }

  class Aircraft {
    const icaoAddress: string
    const registration: string
    const aircraftType: string
    const manufacturer: string
    const serialNumber: string
    const airlineICAOCode: string
    var currentFlightID: string
    const inboundQueue: Inbox
    /** Registered ack waiters by message ID; the value says whether the waiter's buffer holds a signal. */
    var ackWaiters: map<string, bool>
    /**
     * The waiter ID the listener is stuck sending to, if any: it took an ACK off the inbox
     * for a waiter whose buffer was full, and blocks until that waiter's call takes the signal.
     */
    var listenerBlockedOn: Option<string>
    var totalTxAttempts: nat
    var totalCollisions: nat
    var successfulTx: nat
    var totalRetries: nat
    var totalRqTunnel: nat
    var totalFailRqTunnel: nat
    var totalWaitTimeNs: int

    constructor (icaoAddr: string, reg: string, aircraftType: string, manufacturer: string,
                 serialNum: string, airlineCode: string)
      ensures icaoAddress == icaoAddr && registration == reg && this.aircraftType == aircraftType
      ensures this.manufacturer == manufacturer && serialNumber == serialNum && airlineICAOCode == airlineCode
      ensures currentFlightID == ""
      ensures fresh(inboundQueue) && inboundQueue.capacity == InboxCapacity && inboundQueue.items == []
      ensures ackWaiters == map[] && listenerBlockedOn == None
      ensures GetRawStats() == AircraftRawStats(0, 0, 0, 0, 0, 0, 0)
    {
      icaoAddress := icaoAddr;
      registration := reg;
      this.aircraftType := aircraftType;
      this.manufacturer := manufacturer;
      serialNumber := serialNum;
      airlineICAOCode := airlineCode;
      currentFlightID := "";
      inboundQueue := new Inbox(InboxCapacity);
      ackWaiters := map[];
      listenerBlockedOn := None;
      totalTxAttempts, totalCollisions, successfulTx, totalRetries := 0, 0, 0, 0;
      totalRqTunnel, totalFailRqTunnel, totalWaitTimeNs := 0, 0, 0;
    }

    /** A snapshot of the seven counters. */
    function GetRawStats(): (r: AircraftRawStats)
      reads this
      ensures r.successfulTx == successfulTx && r.totalTxAttempts == totalTxAttempts
      ensures r.totalCollisions == totalCollisions && r.totalRetries == totalRetries
      ensures r.totalRqTunnel == totalRqTunnel && r.totalFailRqTunnel == totalFailRqTunnel
      ensures r.totalWaitTime == totalWaitTimeNs
    {
      AircraftRawStats(successfulTx, totalTxAttempts, totalCollisions, totalRetries,
                       totalRqTunnel, totalFailRqTunnel, totalWaitTimeNs)
    }

    /** A call has a registered waiter exactly while it waits for its ack. */
    ghost predicate Tracks(c: SendCall)
      reads this
    {
      c.phase.AwaitingAck? <==> MessageID(c) in ackWaiters
    }

    /**
     * The listener is blocked for good: the waiter it sends to is gone, and any waiter now
     * registered under that ID is empty and could only be filled by the listener itself.
     */
    ghost predicate Wedged()
      reads this
    {
      && listenerBlockedOn.Some?
      && (listenerBlockedOn.value !in ackWaiters || !ackWaiters[listenerBlockedOn.value])
    }

    /**
     * The registration half of `StartListening`: the inbox joins every channel of the
     * system, once per channel entry, so twice when the backup is the primary itself.
     */
    method StartListening(comms: SimCommunicationSystem.CommunicationSystem)
      modifies comms.Channels()`listeners
      ensures forall ch | ch in comms.Channels() ::
        |ch.listeners| > |old(ch.listeners)| && ch.listeners[..|old(ch.listeners)|] == old(ch.listeners)
        && inboundQueue in ch.listeners
      ensures comms.backupChannel == null ==>
        comms.primaryChannel.listeners == old(comms.primaryChannel.listeners) + [inboundQueue]
      ensures comms.backupChannel != null && comms.backupChannel != comms.primaryChannel ==>
        && comms.primaryChannel.listeners == old(comms.primaryChannel.listeners) + [inboundQueue]
        && comms.backupChannel.listeners == old(comms.backupChannel.listeners) + [inboundQueue]
      ensures comms.backupChannel == comms.primaryChannel ==>
        comms.primaryChannel.listeners == old(comms.primaryChannel.listeners) + [inboundQueue, inboundQueue]
    {
      comms.RegisterListener(inboundQueue);
    }

    /**
     * One iteration of the listener loop. The message is taken off the inbox before the
     * waiter is looked up; a full waiter leaves the listener blocked in its send, and
     * while it is blocked nothing is read.
     */
    method ListenStep(unmarshal: Bytes -> Result<AcknowledgementData>) returns (outcome: ListenOutcome)
      modifies this`ackWaiters, this`listenerBlockedOn, inboundQueue
      ensures old(listenerBlockedOn).Some? ==>
        outcome.StillBlocked? && inboundQueue.items == old(inboundQueue.items)
      ensures old(listenerBlockedOn).None? && old(inboundQueue.items) == [] ==>
        outcome.NothingToRead? && inboundQueue.items == []
      ensures old(listenerBlockedOn).None? && old(inboundQueue.items) != [] ==>
        && outcome == ClassifyInbound(old(inboundQueue.items)[0], unmarshal, old(ackWaiters))
        && inboundQueue.items == old(inboundQueue.items)[1..]
      ensures outcome.Signalled? ==> ackWaiters == old(ackWaiters)[outcome.originalID := true]
      ensures !outcome.Signalled? ==> ackWaiters == old(ackWaiters)
      ensures outcome.WaiterFull? ==> listenerBlockedOn == Some(outcome.originalID)
      ensures !outcome.WaiterFull? ==> listenerBlockedOn == old(listenerBlockedOn)
      ensures old(Wedged()) ==> Wedged()
    {
      if listenerBlockedOn.Some? {
        return StillBlocked;
      }
      if inboundQueue.items == [] {
        return NothingToRead;
      }
      outcome := ClassifyInbound(inboundQueue.items[0], unmarshal, ackWaiters);
      var _ := inboundQueue.Receive();
      if outcome.Signalled? {
        ackWaiters := ackWaiters[outcome.originalID := true];
      } else if outcome.WaiterFull? {
        listenerBlockedOn := Some(outcome.originalID);
      }
    }

    /**
     * The top of the retry loop: give up after `MaxRetries` attempts, otherwise count a
     * retransmission (not on the first attempt) and pick the channel, its p and its slot.
     */
    method BeginAttempt(call: SendCall, comms: SimCommunicationSystem.CommunicationSystem, draw: real)
      returns (next: SendCall)
      requires call.phase.Attempting? && Tracks(call)
      modifies this`totalRetries
      ensures Tracks(next)
      ensures var target := comms.SelectChannelForMessage(call.msg, currentFlightID, draw);
        (GetRawStats(), next) == Step(old(GetRawStats()), call,
          Selected(target, target.GetPForMessage(call.msg.GetPriority()), target.GetCurrentTimeSlot()))
    {
      if call.retries >= Config.MaxRetries {
        return call.(phase := GaveUp);
      }
      if call.retries > 0 {
        totalRetries := totalRetries + 1;
      }
      var target := comms.SelectChannelForMessage(call.msg, currentFlightID, draw);
      var p := target.GetPForMessage(call.msg.GetPriority());
      var slot := target.GetCurrentTimeSlot();
      next := call.(phase := Polling(target, p, slot));
    }

    /** One CSMA round up to the draw: busy is counted as a failed request; idle transmits with probability p. */
    method Poll(call: SendCall, draw: real) returns (next: SendCall)
      requires call.phase.Polling? && Tracks(call)
      modifies this`totalRqTunnel, this`totalFailRqTunnel, this`totalTxAttempts
      ensures Tracks(next)
      ensures (GetRawStats(), next) == Step(old(GetRawStats()), call, Polled(call.phase.target.isBusy, draw))
    {
      next := call;
      totalRqTunnel := totalRqTunnel + 1;
      if !call.phase.target.IsBusy() {
        if draw < call.phase.p {
          totalTxAttempts := totalTxAttempts + 1;
          next := call.(phase := Claiming(call.phase.target, call.phase.p, call.phase.slot));
        }
      } else {
        totalFailRqTunnel := totalFailRqTunnel + 1;
      }
    }

    /**
     * The claim of the channel at clock reading `now`: a win adds the time since the
     * call started to the wait total and registers an empty waiter; a loss is a collision.
     */
    method Claim(call: SendCall, now: int) returns (next: SendCall)
      requires call.phase.Claiming? && call.phase.target.Valid() && Tracks(call)
      modifies this`totalWaitTimeNs, this`totalCollisions, this`ackWaiters
      modifies call.phase.target`isBusy, call.phase.target`lastBusyTimestamp, call.phase.target`inFlight
      ensures call.phase.target.Valid() && Tracks(next)
      ensures (GetRawStats(), next) == Step(old(GetRawStats()), call, Claimed(old(call.phase.target.inFlight).None?, now))
      ensures next.phase.AwaitingAck? ==>
        && ackWaiters == old(ackWaiters)[MessageID(call) := false]
        && call.phase.target.inFlight == Some(Transmission(call.msg, currentFlightID, Config.TransmissionTimeNs))
        && call.phase.target.lastBusyTimestamp == now
      ensures !next.phase.AwaitingAck? ==>
        && ackWaiters == old(ackWaiters)
        && call.phase.target.inFlight == old(call.phase.target.inFlight)
        && call.phase.target.lastBusyTimestamp == old(call.phase.target.lastBusyTimestamp)
      ensures old(Wedged()) ==> Wedged()
    {
      var target := call.phase.target;
      var won := target.AttemptTransmit(call.msg, currentFlightID, Config.TransmissionTimeNs, now);
      if won {
        totalWaitTimeNs := totalWaitTimeNs + (now - call.sendStartTime);
        ackWaiters := ackWaiters[MessageID(call) := false];
        next := call.(phase := AwaitingAck(now));
      } else {
        totalCollisions := totalCollisions + 1;
        next := call.(phase := Polling(target, call.phase.p, call.phase.slot));
      }
    }

    /**
     * The select between the waiter's buffer and the ack timer, looked at with clock
     * reading `now`. The timer is ready once `AckTimeoutNs` has passed since the waiter
     * was stored. When both are ready Go picks one at random: `timerChosen` is that pick.
     * With neither ready the call stays blocked; either way out, the waiter is removed.
     */
    method AwaitAck(call: SendCall, now: int, timerChosen: bool) returns (next: SendCall)
      requires call.phase.AwaitingAck? && Tracks(call)
      modifies this`successfulTx, this`ackWaiters, this`listenerBlockedOn
      ensures Tracks(next)
      ensures var signalled := old(ackWaiters)[MessageID(call)];
        var expired := now >= call.phase.since + Config.AckTimeoutNs;
        (GetRawStats(), next) == Step(old(GetRawStats()), call, Awaited(signalled && !(expired && timerChosen), now))
      ensures next == call ==> ackWaiters == old(ackWaiters)
      ensures next != call ==> ackWaiters == old(ackWaiters) - {MessageID(call)}
      ensures listenerBlockedOn ==
        if next.phase.Delivered? && old(listenerBlockedOn) == Some(MessageID(call)) then None
        else old(listenerBlockedOn)
      ensures old(Wedged()) ==> Wedged()
      ensures old(listenerBlockedOn) == Some(MessageID(call)) && next.phase.Attempting? ==> Wedged()
    {
      var id := MessageID(call);
      var signalled := ackWaiters[id];
      var expired := now >= call.phase.since + Config.AckTimeoutNs;
      if !expired && !signalled {
        return call;
      }
      ackWaiters := ackWaiters - {id};
      if signalled && !(expired && timerChosen) {
        successfulTx := successfulTx + 1;
        next := call.(phase := Delivered);
        if listenerBlockedOn == Some(id) {
          listenerBlockedOn := None;
        }
      } else {
        next := call.(retries := call.retries + 1, phase := Attempting);
      }
    }

    /** Zeroes five counters; the two request counters are kept. */
    method ResetStats()
      modifies this`totalTxAttempts, this`totalCollisions, this`successfulTx, this`totalRetries, this`totalWaitTimeNs
      ensures GetRawStats() == AircraftRawStats(0, 0, 0, 0, old(totalRqTunnel), old(totalFailRqTunnel), 0)
    {
      totalTxAttempts, totalCollisions, successfulTx, totalRetries := 0, 0, 0, 0;
      totalWaitTimeNs := 0;
    }
  }
}
