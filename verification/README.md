# Air-Simulator-Go datalink core in Dafny

This project models the media-access and reliable-delivery engine of the Air-Simulator-Go
ACARS datalink simulator, and proves properties of the model.

- **Channel**: a shared medium guarded by a busy flag. `AttemptTransmit` either loses at once
  and changes nothing, or claims the medium. A separate completion step queues the message for
  dispatch, updates the statistics and frees the medium. A dispatcher offers each queued message
  to every registered listener inbox, in registration order. It drops the message only for
  inboxes that are full.
- **Channel selection**: the newer `CommunicationSystem` switches to the backup channel with a
  per-priority probability while the primary is busy. The older one sends Critical and High
  traffic to the backup while the primary is busy.
- **Agents**: the aircraft runs a retry loop of up to `MaxRetries` (16) attempts. Each attempt is
  a p-persistent CSMA loop followed by an ack wait with a timeout. An ack listener wakes the
  waiter registered for the acknowledged message ID. The ground station acknowledges every
  message it did not send itself. It sends each ACK with an unbounded CSMA loop and no retries.
- **Messages**: four wrapper kinds, each with a fixed priority. The header passes through
  unchanged. Constructors either succeed completely or return an error and the zero value.

Each source file is its own module. The older root-package files (`channel.go`, `aircraft.go`,
`center.go`) are the `Legacy*` modules. The newer files under `simulation/` are the `Sim*`
modules.

How the concurrency is made explicit:

- Each lock-protected section of the Go code is one atomic method. The goroutine that
  `AttemptTransmit` starts becomes the step `CompleteTransmission(now)`. The dispatcher loop
  becomes the step `DispatchNext()`.
- A `SendMessage` goroutine is a call value: its program point and its locals. Every interaction
  with a channel or the clock is one step method: `BeginAttempt`, `Poll`, `Claim` and `AwaitAck`.
  Other goroutines can run between steps, so a claim can lose after an idle poll.
- Each step method is proved against a pure `Step` function. Per-call facts are lemmas about
  `Run`, which folds `Step` over any trace of events. The events are busy observations, draws,
  claim results and ack-or-timeout outcomes.
- `rand.Float64()` becomes a `draw: real` parameter. `time.Now()` becomes an integer nanosecond
  reading `now`. The ack timer is ready once `AckTimeoutNs` (3 s) has passed since the claim;
  when both the ack and the timer are ready, Go's random pick is the `timerChosen` input. Go maps of probabilities are the reference
  class `PriorityTable`. A nil map is `null`. Buffered Go channels used as inboxes are the class
  `Mailbox.Inbox`.
- The JSON encoder and decoder of message payloads are abstract partial functions
  `marshal`/`unmarshal`. The lemmas that need a codec assume only that it round-trips.

Where the code differs from what its names suggest, the model follows the code:

- The aircraft counts retransmissions, not timeouts. Every call that gives up has committed
  16 transmissions, and `totalRetries` has grown by 15 (`SimAircraft.GiveUpAccounting`). A call
  whose every ack wait times out is one such call (`SimAircraft.NoAckExhausts`).
- No counter records a message that is given up.
- An ACK that finds its waiter's buffer already full blocks the aircraft's listener in the send.
  If that waiter's call then picks the timer, the listener stays blocked for good (`Wedged`). The
  inbox then stops draining, and the dispatcher drops every later message for that aircraft.
- `simulation/comm_system.go` and `simulation/communication_system.go` both declare
  `CommunicationSystem`. They are modelled as two modules. The aircraft model uses the
  probabilistic one (`simulation/communication_system.go`), because main.go:30-36 builds the
  channels with the three-argument `NewChannel(id, pMap, timeSlot)` and the system with the
  three-argument `NewCommunicationSystem(primary, backup, switchoverProbs)`, which are that
  file's signatures (`Wiring.BuildCommunicationSystem`).
- The root-package files use a message module that is not part of this model. They reuse the
  `Messages` module of `simulation/messages.go`.

## Model

| member | source | states |
|---|---|---|
| Messages.PriorityNamesDistinct | simulation/messages.go:10-15 | The four priority constants are pairwise distinct: two priorities have the same name exactly when they are equal. |
| Messages.Message.GetBaseMessage | simulation/messages.go:82 | Every wrapper returns its embedded header unchanged (also lines 136, 197, 236). |
| Messages.Message.GetData | simulation/messages.go:85 | Every wrapper returns its encoded payload (also lines 139, 200, 239). |
| Messages.Message.GetPriority | simulation/messages.go:88 | The priority is fixed by the wrapper kind: Critical, High, Medium and Low for the four kinds, in both directions (also lines 142, 203, 242). |
| Messages.NewCriticalHighPriorityMessage | simulation/messages.go:91-100 | On successful encoding, the message holds the given header and the encoding, and there is no error. On failure, the zero-value message and the encoder's error. The priority is Critical. |
| Messages.NewHighMediumPriorityMessage | simulation/messages.go:145-154 | The same all-or-nothing construction; the priority is High. |
| Messages.NewMediumLowPriorityMessage | simulation/messages.go:206-215 | The same all-or-nothing construction; the priority is Medium. |
| Messages.NewLowAuxiliaryPriorityMessage | simulation/messages.go:245-254 | The same all-or-nothing construction; the priority is Low. |
| Messages.ConstructedPayloadDecodes | messages_test.go:38-70 | With a codec that round-trips, any of the four constructors yields a message whose data decodes to the original payload and whose header is the one supplied. |
| Tables.PriorityTable.constructor | config/config.go:33-38 | A table holds exactly the entries it is built with. |
| Tables.PriorityTable.Set | simulation/communication_system.go:25 | `m[k] = v` changes the entry for `k` and no other entry. |
| Tables.Entries | simulation/communication_system.go:23 | A nil table reads as empty. |
| Tables.Lookup | aircraft.go:109 | Go's map index: the stored value, or 0 when the key is absent (nil tables included). |
| Mailbox.Inbox.constructor | simulation/aircraft.go:67 | A new buffered inbox is empty and has the given capacity. |
| Mailbox.Inbox.TrySend | simulation/channel.go:128-132 | A non-blocking send appends the message exactly when the inbox is below capacity; otherwise the message is dropped and the inbox is unchanged. |
| Mailbox.Inbox.Receive | simulation/aircraft.go:76 | A receive takes the oldest message, or reports that the inbox is empty. |
| Mailbox.OfferedShape | simulation/channel.go:127-133 | `k` offers of a message to an inbox keep the old contents as a prefix. They add copies of that message up to capacity. A full inbox is left unchanged. |
| Mailbox.OfferedOneMore | simulation/channel.go:127-133 | One more offer after `k` offers is the same as `k + 1` offers. |
| Mailbox.Broadcast | simulation/channel.go:127-133 | After one message is offered to every listener in order, each inbox holds exactly what that many offers (its number of registrations) leave. Nothing else changes. |
| SimChannel.Channel.constructor | simulation/channel.go:36-44 | A new channel is idle, with nothing in flight or queued and no listeners. Its counters are zero. It holds exactly the supplied p table and time slot. |
| SimChannel.Channel.UpdatePValues | simulation/channel.go:46-51 | The channel now refers to the given table; later writes to it are seen. |
| SimChannel.Channel.GetPForMessage | simulation/channel.go:54-61 | The table's entry for the priority, or 0.1 when the priority is unmapped or the table is nil. |
| SimChannel.Channel.UpdateCurrentTimeSlot | simulation/channel.go:64-69 | The time slot becomes the new value. |
| SimChannel.Channel.GetCurrentTimeSlot | simulation/channel.go:72-76 | Returns the last time slot set. |
| SimChannel.Channel.IsBusy | simulation/channel.go:79-83 | Returns the busy flag, which under the invariant means a transmission is in flight. |
| SimChannel.Channel.AttemptTransmit | simulation/channel.go:86-113 | Wins exactly when nothing is in flight. A loss changes nothing. A win marks the channel busy, records the claim time and puts the message in flight with its sender and duration. |
| SimChannel.Channel.CompleteTransmission | simulation/channel.go:98-110 | Enabled once the duration has elapsed and the queue has room; otherwise nothing changes. When enabled, it appends the message to the queue and adds 1 to the transmitted count. It frees the medium and adds `now` minus the claim time (at least the duration) to the busy time. |
| SimChannel.Channel.RegisterListener | simulation/channel.go:116-120 | Appends exactly the given listener. |
| SimChannel.Channel.DispatchNext | simulation/channel.go:122-137 | Takes the oldest queued message and offers it to every listener in registration order, as `Broadcast` states; an empty queue changes nothing. |
| SimChannel.Channel.ResetStats | simulation/channel.go:146-152 | Zeroes busy time and transmitted count; the busy flag, table, slot, queue and listeners are outside its frame. |
| SimChannel.Channel.GetTotalBusyTime | simulation/channel.go:140-144 | Returns the accumulated busy time, which is never negative while the channel is valid. |
| SimChannel.Channel.GetRawStats | simulation/channel.go:160-165 | A snapshot of the transmitted count and the busy time. |
| SimChannel.ClaimIsExclusive | simulation/channel.go:87-105 | Two claims in a row never both win. If the channel was busy, both lose. If it was idle, the first wins and its message is the one in flight. |
| LegacyChannel.Channel.constructor | channel.go:21-26 | A new channel is idle, with nothing queued and no listeners. |
| LegacyChannel.Channel.IsBusy | channel.go:29-33 | Returns the busy flag, which under the invariant means a transmission is in flight. |
| LegacyChannel.Channel.AttemptTransmit | channel.go:39-68 | Wins exactly when the channel was idle; a loss changes nothing; a win marks it busy with the message in flight. |
| LegacyChannel.Channel.CompleteTransmission | channel.go:52-65 | Enabled while a message is in flight and the queue has room. It appends that message to the queue and then frees the medium. |
| LegacyChannel.Channel.RegisterListener | channel.go:71-75 | Appends exactly the given listener. |
| LegacyChannel.Channel.DispatchNext | channel.go:77-90 | Takes the oldest queued message and offers it to every listener, dropping it only for full inboxes. |
| LegacyChannel.ClaimIsExclusive | channel.go:40-48 | Two claims in a row never both win; the first wins exactly when the channel was idle. |
| SimCommunicationSystem.CopyTable | simulation/communication_system.go:22-27 | The copy loop yields a fresh table with exactly the source's entries, or an empty one for a nil source. |
| SimCommunicationSystem.CommunicationSystem.constructor | simulation/communication_system.go:20-34 | Stores the channels and a private fresh copy of the initial table. |
| SimCommunicationSystem.CommunicationSystem.UpdateSwitchoverProbabilities | simulation/communication_system.go:36-46 | Replaces the table by a fresh copy of the given one. |
| SimCommunicationSystem.CommunicationSystem.RegisterListener | simulation/communication_system.go:58-63 | Appends the listener to the primary, and to the backup only when there is one. A backup that is the primary receives it twice. |
| SimCommunicationSystem.CommunicationSystem.SelectChannelForMessage | simulation/communication_system.go:66-94 | Never returns an absent backup. With no backup, or an idle primary, it returns the primary. Otherwise it returns the backup exactly when the draw is below the priority's switchover probability. It reads and changes nothing else. |
| SimCommunicationSystem.SwitchoverDeterminism | simulation/communication_system.go:73-93 | For draws in [0, 1): an unmapped priority or probability 0 never switches. Probability 1 always switches when the primary is busy and a backup exists. |
| SimCommunicationSystem.ConfiguredCriticalAlwaysSwitches | config/config.go:50-55 | With the configured table, Critical traffic always goes to an existing backup while the primary is busy. |
| SimCommSystem.CommunicationSystem.constructor | simulation/comm_system.go:20-26 | Stores the channels; the time slot starts at the 320 ms constant. |
| SimCommSystem.CommunicationSystem.UpdateCurrentTimeSlot | simulation/comm_system.go:31-35 | The time slot becomes the new value. |
| SimCommSystem.CommunicationSystem.GetCurrentTimeSlot | simulation/comm_system.go:38-42 | Returns the last time slot set. |
| SimCommSystem.CommunicationSystem.RegisterListener | simulation/comm_system.go:45-50 | Appends the listener to the primary, and to the backup only when there is one. |
| SimCommSystem.CommunicationSystem.SelectChannelForMessage | simulation/comm_system.go:53-69 | With no backup: the primary. Medium and Low: always the primary. Critical and High: the primary when it is idle, the backup when it is busy. |
| SimAircraft.Begin | simulation/aircraft.go:103-104 | A call starts on its first attempt with no retries, with the given message and the clock reading as its start time. |
| SimAircraft.Step | simulation/aircraft.go:106-165 | Each step adds 1 to `totalRqTunnel` exactly for a CSMA round. `totalFailRqTunnel` grows exactly when the round saw the channel busy. `totalTxAttempts` grows exactly on idle with draw < p. `totalCollisions` grows exactly on a lost claim. `successfulTx` grows by one exactly on an ack, which ends the call. `totalRetries` grows only at the head of a later attempt. A won claim adds the time since the call started to the wait total and starts the ack timer. The loop counter moves only on a timeout, and only once 3 s (`AckTimeoutNs`) have passed since the claim. |
| SimAircraft.StepKeepsCallInvariant | simulation/aircraft.go:106-165 | One step preserves the per-call counter invariant and counts its committed transmission. |
| SimAircraft.RunKeepsCallInvariant | simulation/aircraft.go:106-165 | Every trace preserves the per-call counter invariant, and its committed transmissions are the commit/ack-wait cycles it adds. |
| SimAircraft.SendMessageBounds | simulation/aircraft.go:104-165 | Whatever the channels, draws and acks do, a call commits at most 16 transmissions and adds at most 15 to `totalRetries`. `successfulTx` grows by at most 1, and by 1 exactly when the call returned after its ack. Collisions never outnumber attempts. Attempts plus busy observations never outnumber rounds. The wait total never decreases. |
| SimAircraft.FinishedCallIsInert | simulation/aircraft.go:156-161 | Once a call has returned, later events change neither it nor the counters. |
| SimAircraft.RunConcat | simulation/aircraft.go:106-165 | Running two traces in a row equals running their concatenation. |
| SimAircraft.TimeoutCycleRun | simulation/aircraft.go:106-165 | One attempt that commits at once and times out moves the call to its next attempt. It adds one attempt, and one retry except on the first attempt. |
| SimAircraft.TimeoutCyclesRun | simulation/aircraft.go:106-165 | `k` such attempts add `k` attempts, and `k` retries (`k - 1` from the first attempt), and no success. |
| SimAircraft.TimeoutCyclesClock | simulation/aircraft.go:104 | Those traces never hand a claim a clock reading before the call's start. |
| SimAircraft.GiveUpAccounting | simulation/aircraft.go:104-167 | On every trace with a clock from the start, a call that has given up committed exactly 16 transmissions, grew `totalRetries` by exactly 15 and left `successfulTx` unchanged. |
| SimAircraft.NoAckExhausts | simulation/aircraft.go:106-167 | Giving up is reachable: on the trace where every claim wins at once and every ack wait times out, the call gives up after 16 committed transmissions, with `totalRetries` grown by 15 and `successfulTx` unchanged. |
| SimAircraft.ClassifyInbound | simulation/aircraft.go:76-97 | The listener ignores non-ACK messages, ACKs whose payload does not decode, and ACKs with no waiter for the original ID. It signals the waiter only when that waiter's buffer is empty, and blocks when it is full. |
| SimAircraft.Aircraft.constructor | simulation/aircraft.go:57-70 | Identity fields as given; an empty inbox of capacity 20; no waiters; all seven counters zero. |
| SimAircraft.Aircraft.GetRawStats | simulation/aircraft.go:190-200 | A snapshot of the seven counters. |
| SimAircraft.Aircraft.StartListening | simulation/aircraft.go:72-73 | The inbox is appended to every channel of the system and earlier listeners are kept. Exactly: with no backup, the primary gains the inbox once; with a separate backup, each channel gains it once; when the backup is the primary itself, that channel gains it twice. |
| SimAircraft.Aircraft.ListenStep | simulation/aircraft.go:76-97 | While the listener is blocked in a send it reads nothing and changes nothing. Otherwise it takes the oldest inbox message off and handles it as `ClassifyInbound` decides: a signal fills that waiter's buffer, and a full buffer leaves the listener blocked on that waiter. Only a signal changes the waiters. A listener blocked for good stays so. |
| SimAircraft.Aircraft.BeginAttempt | simulation/aircraft.go:106-116 | The head of the retry loop, as `Step` specifies. The call gives up after 16 attempts. Otherwise it counts a retry after the first attempt, then takes the selected channel's p and time slot. |
| SimAircraft.Aircraft.Poll | simulation/aircraft.go:120-149 | One CSMA round as `Step` specifies it for the observed busy flag and the draw. |
| SimAircraft.Aircraft.Claim | simulation/aircraft.go:124-153 | The claim as `Step` specifies it for `AttemptTransmit`'s answer. A win puts the message in flight for 80 ms, registers an empty waiter for its ID and starts the ack timer at `now`. A loss leaves the channel and the waiters alone. |
| SimAircraft.Aircraft.AwaitAck | simulation/aircraft.go:151-165 | The select as `Step` specifies it: the timer has expired once 3 s have passed since the claim. With no signal and no expired timer the call stays blocked. Otherwise the waiter is removed. A signal counts a success and ends the call unless the timer is also expired and chosen; a timeout starts the next attempt. A waiter exists exactly while its call waits. Taking the ack releases a listener blocked on this waiter; picking the timer instead leaves that listener blocked for good. |
| SimAircraft.Aircraft.ResetStats | simulation/aircraft.go:171-177 | Zeroes attempts, collisions, successes, retries and wait time, and keeps both request counters. |
| SimCenter.ProcessMessage | simulation/center.go:50-84 | Nothing for the station's own messages or an unencodable payload. Otherwise a Critical ACK from the station, with flight ID `GND_CTL` and ID `ACK-` + the original ID. It names the original ID with status `RECEIVED`. |
| SimCenter.AckIDsDistinct | simulation/center.go:70 | Distinct originals get distinct ACK IDs, and conversely. |
| SimCenter.BeginSend | simulation/center.go:88-89 | A call starts polling with p the channel's table entry for the message's priority (0.1 when unmapped), read once, and with the clock reading as its start time; message, channel and slot are the arguments. |
| SimCenter.Step | simulation/center.go:86-116 | Each round adds 1 to `totalRqTunnel`. `totalFailRqTunnel` grows exactly on a busy round. A claim adds one attempt, then a success that ends the call or a collision that resumes polling. Only a won claim moves the wait total. |
| SimCenter.RunKeepsCallInvariant | simulation/center.go:86-116 | Every trace preserves the station's per-call counter invariant. |
| SimCenter.SendMessageBounds | simulation/center.go:86-116 | `successfulTx` grows by at most 1 per call, and by 1 exactly when the call returned. Attempts equal successes plus collisions. Attempts plus busy rounds never exceed rounds. The wait total never decreases. |
| SimCenter.ZeroPNeverClaims | simulation/center.go:94-96 | With p at or below 0 and non-negative draws, the call never claims, attempts or succeeds. |
| SimCenter.GroundControlCenter.constructor | simulation/center.go:27-32 | An empty inbox of capacity 50 and all six counters zero. |
| SimCenter.GroundControlCenter.GetRawStats | simulation/center.go:158-167 | A snapshot of the six counters. |
| SimCenter.GroundControlCenter.RegisterOn | simulation/center.go:39 | Appends the inbox to the channel's listeners. |
| SimCenter.GroundControlCenter.HandleNext | simulation/center.go:43-46 | Takes the oldest message and yields the ACK that `ProcessMessage` builds for it. |
| SimCenter.GroundControlCenter.Poll | simulation/center.go:93-114 | One round as `Step` specifies it; keeps attempts equal to successes plus collisions. |
| SimCenter.GroundControlCenter.Claim | simulation/center.go:96-105 | The claim as `Step` specifies it. The transmission lasts the time-slot argument. It keeps attempts equal to successes plus collisions. |
| SimCenter.GroundControlCenter.ResetStats | simulation/center.go:139-146 | Zeroes all six counters. |
| LegacyAircraft.BeginSend | aircraft.go:109 | p is the table's entry for the priority, or 0 when it is unmapped. |
| LegacyAircraft.Step | aircraft.go:107-168 | Every round is an attempt, and a busy round is also a collision. A lost claim changes no counter and resumes polling. `successfulTx` grows by one exactly on an ack, which ends the call. `totalRetries` grows only at the head of a later attempt. A won claim starts the ack timer; the loop counter moves only on a timeout at least 3 s after the claim. |
| LegacyAircraft.RunKeepsCallInvariant | aircraft.go:107-168 | Every trace preserves the per-call counter invariant, and its commits are the cycles it adds. |
| LegacyAircraft.GiveUpAccounting | aircraft.go:111-167 | On every trace, a call that has given up committed exactly 16 transmissions, grew `totalRetries` by exactly 15 and left `successfulTx` unchanged. |
| LegacyAircraft.SendMessageBounds | aircraft.go:111-164 | At most 16 committed transmissions and at most 15 retries per call. `successfulTx` grows by 1 exactly when the call returned after its ack. Collisions never outnumber attempts. |
| LegacyAircraft.Aircraft.constructor | aircraft.go:54-67 | Identity fields as given, no engine entries, report time `now`, an empty inbox of capacity 20, no waiters, zero counters. |
| LegacyAircraft.Aircraft.GetRawStats | aircraft.go:233-236 | An accessor of the model that mirrors the four atomic counter loads at the head of `GetCommunicationStats`: a snapshot of attempts, collisions, successes and retries. |
| LegacyAircraft.Aircraft.RegisterOn | aircraft.go:70 | Appends the inbox to the channel's listeners. |
| LegacyAircraft.Aircraft.ListenStep | aircraft.go:73-95 | The same filter as `SimAircraft.ClassifyInbound` and the same blocked send: nothing is read while blocked, a full waiter blocks the listener, only a signal changes the waiters, and a listener blocked for good stays so. |
| LegacyAircraft.Aircraft.BeginAttempt | aircraft.go:111-116 | The head of the retry loop as `Step` specifies it. |
| LegacyAircraft.Aircraft.Poll | aircraft.go:118-143 | One round as `Step` specifies it for the observed busy flag and the draw. |
| LegacyAircraft.Aircraft.Claim | aircraft.go:120-147 | The claim as `Step` specifies it. A win registers an empty waiter and starts the ack timer at `now`. A lost race changes no counter and no waiter. |
| LegacyAircraft.Aircraft.AwaitAck | aircraft.go:145-164 | The select as `Step` specifies it, with the timer expired 3 s after the claim. Blocked with no signal and no expired timer. Otherwise the waiter is removed. A signal counts a success unless the expired timer is chosen; a timeout starts the next attempt. Taking the ack releases a listener blocked on this waiter; the timer leaves it blocked for good. |
| LegacyAircraft.Aircraft.UpdatePosition | aircraft.go:171-181 | Stores the new position and the report time; no other field is in its frame. |
| LegacyAircraft.Aircraft.UpdateFuel | aircraft.go:184-188 | Stores the fuel figures and the report time; no other field is in its frame. |
| LegacyAircraft.Aircraft.UpdateEngineStatus | aircraft.go:191-202 | Writes the entry of the given engine only, and the report time. |
| LegacyAircraft.Aircraft.UpdateOOOIReport | aircraft.go:205-215 | Stores the new OOOI report and the report time. |
| LegacyCenter.GetProcessingDelay | center.go:41-43 | The processing delay is always 100 ms. |
| LegacyCenter.ProcessMessage | center.go:46-85 | Nothing for the station's own messages. Otherwise the same Critical ACK as the newer station, naming the original message. |
| LegacyCenter.BeginSend | center.go:89 | p is the table's entry for the priority, or 0 when it is unmapped. |
| LegacyCenter.Step | center.go:94-108 | The call ends exactly on a won claim. It claims only after an idle round whose draw is below p. |
| LegacyCenter.SentOnlyAfterWin | center.go:95-100 | A call has returned exactly when some claim in its trace, made while claiming, won. |
| LegacyCenter.FinishedCallIsInert | center.go:99 | A returned call is unaffected by later events. |
| LegacyCenter.ZeroPNeverClaims | center.go:95-96 | With p = 0 and non-negative draws the call never calls `AttemptTransmit`. |
| LegacyCenter.GroundControlCenter.constructor | center.go:18-23 | An empty inbox of capacity 50. |
| LegacyCenter.GroundControlCenter.RegisterOn | center.go:30 | Appends the inbox to the channel's listeners. |
| LegacyCenter.GroundControlCenter.HandleNext | center.go:34-37 | Takes the oldest message and yields the ACK `ProcessMessage` builds for it. |
| LegacyCenter.GroundControlCenter.Poll | center.go:95-106 | One round as `Step` specifies it. |
| LegacyCenter.GroundControlCenter.Claim | center.go:97-100 | The claim as `Step` specifies it; a win puts the ACK in flight. The 80 ms duration is passed to `AttemptTransmit`, whose model ignores it. |
| Wiring.BuildCommunicationSystem | main.go:30-36 | A fresh primary channel named "Primary" with the configured primary p table and 320 ms slot; a fresh, distinct backup with the backup table and slot exactly when the backup is enabled; a system holding the configured switchover table. No listeners yet. |
| AckDelivery.StationAckReachesWaiter | simulation/center.go:63-76 | With a round-tripping codec, the ACK built for an aircraft's message signals the empty waiter for that message's ID. It is ignored when nobody waits for that ID. |

## Left out

- Goroutines, locks and `time.Sleep`: each lock-protected section is one atomic step. The sleeps between CSMA rounds are not modelled; only the clock readings passed to the steps matter. `SimChannel.Channel.CompleteTransmission` is enabled only once the transmission duration has passed since the claim, and the busy time grows by at least that duration. `LegacyChannel.Channel.CompleteTransmission` abstracts the delay: it may run at any time after the claim.
- `rand.Float64` and `time.Now`: they are the `draw` and `now` parameters, and a monotonic clock is an assumption of the trace lemmas (`ClockFrom`).
- 64-bit counters and `time.Duration` are unbounded integers; wrap-around is not modelled.
- Counter updates of one step happen together in the model; in Go they are separate atomic adds, so a concurrent `ResetStats` could interleave with them.
- SimChannel.Channel.CompleteTransmission: the queue send and the count run outside the lock in Go. Here they happen in one step with the release.
- SimAircraft.Aircraft.Claim: in Go the waiter is stored just after `AttemptTransmit` returns. Here both happen in one step, so an ACK cannot arrive before the waiter exists.
- SimAircraft.Aircraft.ListenStep and LegacyAircraft.Aircraft.ListenStep: a blocked send is recorded by the waiter's message ID, not by the Go channel instance. This is exact because only the listener fills waiters: a waiter registered under that ID after the blocked one was removed stays empty, so it is never taken as an ack and never releases the listener.
- The aircraft's `CurrentFlightID` is a public field in both languages. main.go:48 and environment/server.go:82 assign it directly after `NewAircraft`, and the model leaves that write to its callers (the constructor sets it to the empty string, as Go's zero value). The newer aircraft's position, fuel, engine and OOOI fields are not used by the core and are left out.
- `GetInfo` and `GetCommunicationStats` (string and floating-point rate formatting) are left out.
- `CommunicationSystem.StartDispatching` only starts each channel's dispatcher goroutine. Dispatch itself is `Channel.DispatchNext`.
- The listening loops spawn one goroutine per message. `HandleNext` returns the ACK that goroutine would send. The send is then a separate `SendMessage` call.
- The processing delay before an ACK is built is not modelled; the ACK's timestamp is the `now` given to `ProcessMessage`.
- JSON encoding and decoding are the abstract `marshal` and `unmarshal` functions; whole-message JSON round trips (the header's own encoding) are not modelled.
- The outbound priority queue, the pending-ack table and the discretely stepped `Step`/`GetObservation`/`Reset` agent interface are not part of this model (no implementation of them exists in the code).
- environment/, api/, collector/ and simulation/simulation_plan.go (service wiring, episode control, Excel output, scripted timelines) are not part of this model. Of main.go only the construction of the channels and the system is modelled (`Wiring.BuildCommunicationSystem`); its agent goroutines and logging are not.
- A nil primary channel is excluded: `primaryChannel` is a non-null `Channel`. Go's constructors accept nil; `StartDispatching` checks for it, while `RegisterListener` and `SelectChannelForMessage` would dereference it and panic.
