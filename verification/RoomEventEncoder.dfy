/** Room events as packets: the encoder the registry uses and the decoder a client applies. */
module RoomEventEncoder {
  import opened Bytes
  import opened Common
  import opened PacketCodec
  import opened Framing
  import opened Room
  import opened GameplayPayload

  function ReasonCode(r: Reason): (code: nat)
    ensures code < 0x1_0000 && ReasonOf(code) == Some(r)
  {
    match r
    case LeftRoom => 1
    case ClientClosed => 2
    case ProtocolError => 3
    case IoError => 4
    case OutboundOverflow => 5
    case ServerShutdown => 6
  }

  function ReasonOf(code: nat): Option<Reason>
  {
    match code
    case 1 => Some(LeftRoom)
    case 2 => Some(ClientClosed)
    case 3 => Some(ProtocolError)
    case 4 => Some(IoError)
    case 5 => Some(OutboundOverflow)
    case 6 => Some(ServerShutdown)
    case _ => None
  }

  function EventType(event: Event): PacketType
  {
    match event
    case Joined(_, _) => PacketType.PlayerJoined
    case Moved(_, _) => PacketType.PlayerMoved
    case Left(_, _) => PacketType.PlayerLeft
  }

  function EventPayload(event: Event): (payload: seq<Byte>)
    ensures |payload| == if event.Left? then LEFT_SIZE else STATE_SIZE
  {
    Encode(event.id, 8) + if event.Left? then Encode(ReasonCode(event.reason), 2) else PositionImage(event.position)
  }

  /** The packet broadcast for an event. */
  function EventPacket(event: Event): (p: seq<Byte>)
    ensures HEADER_SIZE < |p| <= HEADER_SIZE + STATE_SIZE
  {
    Packet(EventType(event), EventPayload(event))
  }

  /** What a client reads out of a decoded packet; other packet types carry no event. */
  function EventOf(view: PacketView): Option<Event>
  {
    match view.packetType
    case PlayerJoined =>
      var r := DecodeState(view.payload);
      if r.Success? then Some(Joined(r.value.id, r.value.position)) else None
    case PlayerMoved =>
      var r := DecodeState(view.payload);
      if r.Success? then Some(Moved(r.value.id, r.value.position)) else None
    case PlayerLeft =>
      var r := DecodeLeft(view.payload);
      if r.Success? && ReasonOf(r.value.reason).Some? then Some(Left(r.value.id, ReasonOf(r.value.reason).value)) else None
    case _ => None
  }

  lemma PayloadRoundTrip(event: Event)
    ensures EventOf(PacketView(EventType(event), EventPayload(event), |EventPacket(event)|)) == Some(event)
  {
    hide Encode, Value, EventPacket;
    if event.Left? {
      LeftRoundTrip(event);
    } else {
      StateRoundTrip(event);
    }
  }

  lemma LeftRoundTrip(event: Event)
    requires event.Left?
    ensures DecodeLeft(EventPayload(event)) == Success(GameplayPayload.PlayerLeft(event.id, ReasonCode(event.reason)))
    ensures ReasonOf(ReasonCode(event.reason)) == Some(event.reason)
  {
    hide Encode, Value;
    var payload := EventPayload(event);
    WordSizes();
    assert payload[0..8] == Encode(event.id, 8);
    ValueOfEncode(event.id, 8);
    assert payload[8..10] == Encode(ReasonCode(event.reason), 2);
    ValueOfEncode(ReasonCode(event.reason), 2);
  }

  lemma StateRoundTrip(event: Event)
    requires !event.Left?
    ensures DecodeState(EventPayload(event)) == Success(PlayerState(event.id, event.position))
  {
    hide Encode, Value;
    var payload := EventPayload(event);
    WordSizes();
    assert payload[0..8] == Encode(event.id, 8);
    ValueOfEncode(event.id, 8);
    assert payload[8..16] == PositionImage(event.position);
    PositionRoundTrip(payload, 8, event.position);
  }

  /** Every event survives the wire: its packet decodes, whatever follows, to exactly that event. */
  lemma EventRoundTrip(event: Event, rest: seq<Byte>)
    ensures var r := DecodeOne(EventPacket(event) + rest);
            r.Success? && r.value.consumed == |EventPacket(event)| && EventOf(r.value) == Some(event)
  {
    DecodeOfPacket(EventType(event), EventPayload(event), rest);
    PayloadRoundTrip(event);
  }

  /** encode_room_event: payload filled by the shift loop, then framed; it never fails. */
  method EncodeRoomEvent(event: Event) returns (r: Result<seq<Byte>, EncodeError>)
    ensures r == Success(EventPacket(event))
  {
    hide Encode, Packet, PositionImage;
    var size := if event.Left? then LEFT_SIZE else STATE_SIZE;
    var payload := new Byte[size];
    WriteShifted(payload, 0, 8, event.id);
    assert payload[..8] == Encode(event.id, 8);
    if event.Left? {
      WriteShifted(payload, 8, 2, ReasonCode(event.reason));
      assert payload[..] == Encode(event.id, 8) + Encode(ReasonCode(event.reason), 2);
    } else {
      WritePosition(payload, event.position);
      assert payload[..] == payload[..8] + payload[8..];
    }
    r := EncodePacket(Code(EventType(event)), payload[..]);
  }

  /** write_position: the two coordinates behind the session id. */
  method WritePosition(payload: array<Byte>, position: Position)
    requires payload.Length == STATE_SIZE
    modifies payload
    ensures payload[..8] == old(payload[..8]) && payload[8..] == PositionImage(position)
  {
    hide Encode;
    WriteShifted(payload, 8, 4, ToBits(position.x));
    ghost var x := payload[8..12];
    WriteShifted(payload, 12, 4, ToBits(position.y));
    assert payload[8..12] == x && payload[8..] == payload[8..12] + payload[12..];
  }

  /** The events in a sequence of packets, in order. */
  function EventsIn(views: seq<PacketView>): seq<Event>
  {
    if views == [] then []
    else
      var last := EventOf(views[|views| - 1]);
      EventsIn(views[..|views| - 1]) + if last.Some? then [last.value] else []
  }

  lemma {:induction false} EventsInPrefix(a: seq<PacketView>, b: seq<PacketView>)
    requires a <= b
    ensures EventsIn(a) <= EventsIn(b)
  {
    if |a| < |b| {
      var init := b[..|b| - 1];
      assert a <= init;
      EventsInPrefix(a, init);
    } else {
      assert a == b;
    }
  }

  /** The event a packet carries, if any. */
  function PacketEvent(p: seq<Byte>): Option<Event>
  {
    var r := DecodeOne(p);
    if r.Success? then EventOf(r.value) else None
  }

  function PacketEvents(packets: seq<seq<Byte>>): seq<Event>
  {
    if packets == [] then []
    else
      var last := PacketEvent(packets[|packets| - 1]);
      PacketEvents(packets[..|packets| - 1]) + if last.Some? then [last.value] else []
  }

  lemma PacketEventsStep(packets: seq<seq<Byte>>, p: seq<Byte>)
    ensures PacketEvents(packets + [p]) ==
            PacketEvents(packets) + if PacketEvent(p).Some? then [PacketEvent(p).value] else []
  {
  }

  lemma {:induction false} PacketEventsCons(packets: seq<seq<Byte>>)
    requires packets != []
    ensures PacketEvents(packets) ==
            (if PacketEvent(packets[0]).Some? then [PacketEvent(packets[0]).value] else []) + PacketEvents(packets[1..])
  {
    hide PacketEvent;
    if |packets| > 1 {
      var init := packets[..|packets| - 1];
      PacketEventsCons(init);
      assert init[1..] == packets[1..][..|packets| - 2];
    }
  }

  lemma EventPacketCarries(event: Event)
    ensures WellFormed(EventPacket(event)) && PacketEvent(EventPacket(event)) == Some(event)
  {
    EventRoundTrip(event, []);
    assert EventPacket(event) + [] == EventPacket(event);
  }

  lemma {:induction false} PacketEventsAreDecoded(packets: seq<seq<Byte>>)
    requires forall p :: p in packets ==> WellFormed(p)
    ensures PacketEvents(packets) == EventsIn(Views(packets))
  {
    hide EventOf, DecodeOne;
    if packets != [] {
      var init, last := packets[..|packets| - 1], packets[|packets| - 1];
      PacketEventsAreDecoded(init);
      assert packets == init + [last];
      ViewsStep(init, last);
      assert (Views(init) + [DecodeOne(last).value])[..|Views(init)|] == Views(init);
    }
  }

  lemma {:induction false} ViewsStep(packets: seq<seq<Byte>>, p: seq<Byte>)
    requires WellFormed(p) && forall q :: q in packets ==> WellFormed(q)
    ensures Views(packets + [p]) == Views(packets) + [DecodeOne(p).value]
  {
    hide DecodeOne;
    if packets != [] {
      ViewsStep(packets[1..], p);
      assert (packets + [p])[1..] == packets[1..] + [p];
    }
  }
}
