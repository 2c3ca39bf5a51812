/**
 * The message and priority model of simulation/messages.go: a header shared by every
 * message, four wrapper types that each carry a fixed priority and an encoded payload,
 * and their constructors. The JSON encoder is an abstract partial function `marshal`.
 */
module Messages {
  import opened Wrappers

  /** The four values of the `Priority` string type. */
  datatype Priority = High | Critical | Low | Medium

  /** The string each priority constant stands for. */
  function PriorityName(p: Priority): string
  {
    match p
    case High => "HIGH"
    case Critical => "CRITICAL"
    case Low => "LOW"
    case Medium => "Medium"
  }

  /** No two priority constants share a string, so a priority is recovered from its name. */
  lemma PriorityNamesDistinct(p: Priority, q: Priority)
    ensures PriorityName(p) == PriorityName(q) <==> p == q
  {
  }

  /** `MessageType` is a string type; these are its named values. Any other string may still arrive. */
  type MessageType = string

  const MsgTypeAircraftFault: MessageType := "AIRCRAFT_FAULT"
  const MsgTypeATCMessage: MessageType := "ATC_MESSAGE"
  const MsgTypeOOOI: MessageType := "OOOI_REPORT"
  const MsgTypePosition: MessageType := "POSITION_REPORT"
  const MsgTypeFuel: MessageType := "FUEL_REPORT"
  const MsgTypeEngineReport: MessageType := "ENGINE_REPORT"
  const MsgTypeWeather: MessageType := "WEATHER_REPORT"
  const MsgTypePDC: MessageType := "PDC"
  const MsgTypeDATIS: MessageType := "D_ATIS"
  const MsgTypeFreeText: MessageType := "FREE_TEXT"
  const MsgTypeLinkTest: MessageType := "LINK_TEST"
  const MsgTypeAck: MessageType := "ACKNOWLEDGEMENT"

  /** Bytes of an encoded payload (`json.RawMessage`). */
  type Bytes = seq<bv8>

  /** The common header. Timestamps are readings of an abstract nanosecond clock. */
  datatype BaseMessage = BaseMessage(
    aircraftICAOAddress: string,
    flightID: string,
    messageID: string,
    timestamp: int,
    msgType: MessageType)

  /** Go's zero value of the header: empty strings, the zero time, the empty type. */
  const ZeroBase := BaseMessage("", "", "", 0, "")

  /** The payload of an acknowledgement. */
  datatype AcknowledgementData = AcknowledgementData(originalMessageID: string, status: string)

  /** The four wrapper types; each embeds the header and holds the encoded payload. */
  datatype Message =
    | CriticalHighPriorityMessage(header: BaseMessage, data: Bytes)
    | HighMediumPriorityMessage(header: BaseMessage, data: Bytes)
    | MediumLowPriorityMessage(header: BaseMessage, data: Bytes)
    | LowAuxiliaryPriorityMessage(header: BaseMessage, data: Bytes)
  {
    /** The embedded header, as it was stored. */
    function GetBaseMessage(): (b: BaseMessage)
      ensures b == header
    {
      header
    }

    /** The encoded payload, as it was stored. */
    function GetData(): (d: Bytes)
      ensures d == data
    {
      data
    }

    /** The priority is fixed by the wrapper type, and each type has its own. */
    function GetPriority(): (p: Priority)
      ensures CriticalHighPriorityMessage? <==> p == Critical
      ensures HighMediumPriorityMessage? <==> p == High
      ensures MediumLowPriorityMessage? <==> p == Medium
      ensures LowAuxiliaryPriorityMessage? <==> p == Low
    {
      match this
      case CriticalHighPriorityMessage(_, _) => Critical
      case HighMediumPriorityMessage(_, _) => High
      case MediumLowPriorityMessage(_, _) => Medium
      case LowAuxiliaryPriorityMessage(_, _) => Low
    }
  }

  /**
   * What a constructor promises about its `(message, error)` pair: the error is absent
   * exactly when the payload encodes; then the message holds `base` and the encoding;
   * otherwise the message is the zero value and the error is the encoder's.
   */
  ghost predicate Built<P>(r: (Message, Option<string>), base: BaseMessage, data: P, marshal: P -> Result<Bytes>)
  {
    && (r.1.None? <==> marshal(data).Success?)
    && (marshal(data).Success? ==> r.0.GetBaseMessage() == base && r.0.GetData() == marshal(data).value)
    && (marshal(data).Failure? ==>
          r.0.GetBaseMessage() == ZeroBase && r.0.GetData() == [] && r.1 == Some(marshal(data).error))
  }

  function NewCriticalHighPriorityMessage<P>(base: BaseMessage, data: P, marshal: P -> Result<Bytes>)
    : (r: (Message, Option<string>))
    ensures Built(r, base, data, marshal)
    ensures r.0.GetPriority() == Critical
  {
    match marshal(data)
    case Failure(e) => (CriticalHighPriorityMessage(ZeroBase, []), Some(e))
    case Success(raw) => (CriticalHighPriorityMessage(base, raw), None)
  }

  function NewHighMediumPriorityMessage<P>(base: BaseMessage, data: P, marshal: P -> Result<Bytes>)
    : (r: (Message, Option<string>))
    ensures Built(r, base, data, marshal)
    ensures r.0.GetPriority() == High
  {
    match marshal(data)
    case Failure(e) => (HighMediumPriorityMessage(ZeroBase, []), Some(e))
    case Success(raw) => (HighMediumPriorityMessage(base, raw), None)
  }

  function NewMediumLowPriorityMessage<P>(base: BaseMessage, data: P, marshal: P -> Result<Bytes>)
    : (r: (Message, Option<string>))
    ensures Built(r, base, data, marshal)
    ensures r.0.GetPriority() == Medium
  {
    match marshal(data)
    case Failure(e) => (MediumLowPriorityMessage(ZeroBase, []), Some(e))
    case Success(raw) => (MediumLowPriorityMessage(base, raw), None)
  }

  function NewLowAuxiliaryPriorityMessage<P>(base: BaseMessage, data: P, marshal: P -> Result<Bytes>)
    : (r: (Message, Option<string>))
    ensures Built(r, base, data, marshal)
    ensures r.0.GetPriority() == Low
  {
    match marshal(data)
    case Failure(e) => (LowAuxiliaryPriorityMessage(ZeroBase, []), Some(e))
    case Success(raw) => (LowAuxiliaryPriorityMessage(base, raw), None)
  }

  /** `unmarshal` undoes `marshal` on every payload `marshal` accepts. */
  ghost predicate RoundTrips<P(!new)>(marshal: P -> Result<Bytes>, unmarshal: Bytes -> Result<P>)
  {
    forall p :: marshal(p).Success? ==> unmarshal(marshal(p).value) == Success(p)
  }

  /**
   * With a round-tripping codec, every constructor's message yields the original payload
   * back from its data and keeps the header it was given.
   */
  lemma ConstructedPayloadDecodes<P(!new)>(
    base: BaseMessage, data: P, marshal: P -> Result<Bytes>, unmarshal: Bytes -> Result<P>)
    requires RoundTrips(marshal, unmarshal)
    requires marshal(data).Success?
    ensures forall r | r in {NewCriticalHighPriorityMessage(base, data, marshal),
                             NewHighMediumPriorityMessage(base, data, marshal),
                             NewMediumLowPriorityMessage(base, data, marshal),
                             NewLowAuxiliaryPriorityMessage(base, data, marshal)} ::
              r.1.None? && r.0.GetBaseMessage() == base && unmarshal(r.0.GetData()) == Success(data)
  {
  }
}
