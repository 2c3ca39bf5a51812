/**
 * How the two ends of the acknowledgement protocol fit together: the ACK a ground
 * station builds for an aircraft's message is recognised by that aircraft's listener,
 * provided the payload codec round-trips.
 */
module AckDelivery {
  import opened Wrappers
  import opened Messages
  import SimCenter
  import SimAircraft

  /**
   * The ACK for `msg` wakes the waiter registered for `msg`'s ID when that waiter's
   * buffer is empty, and is ignored when nobody waits for that ID.
   */
  lemma StationAckReachesWaiter(
    stationID: string, msg: Message, now: int,
    marshal: AcknowledgementData -> Result<Bytes>, unmarshal: Bytes -> Result<AcknowledgementData>,
    waiters: map<string, bool>)
    requires RoundTrips(marshal, unmarshal)
    requires msg.GetBaseMessage().aircraftICAOAddress != stationID
    requires marshal(SimCenter.AckPayload(msg.GetBaseMessage())).Success?
    ensures var ack := SimCenter.ProcessMessage(stationID, msg, now, marshal);
      && ack.Some?
      && (msg.GetBaseMessage().messageID in waiters && !waiters[msg.GetBaseMessage().messageID] ==>
            SimAircraft.ClassifyInbound(ack.value, unmarshal, waiters) == SimAircraft.Signalled(msg.GetBaseMessage().messageID))
      && (msg.GetBaseMessage().messageID !in waiters ==>
            SimAircraft.ClassifyInbound(ack.value, unmarshal, waiters) == SimAircraft.IgnoredNoWaiter(msg.GetBaseMessage().messageID))
  {
  }
}
