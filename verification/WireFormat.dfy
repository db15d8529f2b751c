/** The wire format in literal bytes, and exactly which bytes each decoder accepts and why it refuses the others. */
module WireFormat {
  import opened Bytes
  import opened Common
  import opened GameplayPayload
  import opened PacketCodec
  import opened Room
  import opened RoomEventEncoder

  // Numbers.

  lemma {:induction false} EncodeZero(width: nat)
    ensures Encode(0, width) == seq(width, _ => 0)
  {
    if width > 0 {
      EncodeZero(width - 1);
    }
  }

  lemma Encode2(v: nat)
    requires v < 0x1_0000
    ensures Encode(v, 2) == [v / 256, v % 256]
  {
    EncodeLast(v, 1);
    EncodeLast(v / 256, 0);
  }

  lemma Encode4(high: nat, low: nat)
    requires high < 0x1_0000 && low < 0x1_0000
    ensures Encode(high * 0x1_0000 + low, 4) == Encode(high, 2) + Encode(low, 2)
  {
    hide Encode;
    var v, top, last := high * 0x1_0000 + low, low / 256, low % 256;
    var rest := top + 256 * high;
    assert v == last + 256 * rest;
    LowByte(last, rest);
    LowByte(top, high);
    EncodeLast(v, 3);
    EncodeLast(rest, 2);
    Encode2(low);
    assert Encode(high, 2) + [top] + [last] == Encode(high, 2) + [top, last];
  }

  lemma EncodeLast(v: nat, width: nat)
    ensures Encode(v, width + 1) == Encode(v / 256, width) + [v % 256]
  {
  }

  lemma Encode8(v: nat)
    requires v < 0x1_0000
    ensures Encode(v, 8) == [0, 0, 0, 0, 0, 0, v / 256, v % 256]
  {
    assert v / 256 / 256 == 0;
    assert Encode(v, 8) == Encode(v / 256, 7) + [v % 256];
    assert Encode(v / 256, 7) == Encode(0, 6) + [v / 256 % 256];
    EncodeZero(6);
  }

  // Packets.

  /** The type codes of the protocol, as numbers on the wire. */
  lemma TypeCodes()
    ensures Code(Ping) == 1 && Code(JoinRoom) == 2 && Code(PacketType.Move) == 3 && Code(Attack) == 4 && Code(LeaveRoom) == 5
    ensures Code(PacketType.PlayerJoined) == 101 && Code(PlayerMoved) == 102 && Code(PacketType.PlayerLeft) == 103
    ensures forall code: nat :: KnownType(code).Some? <==> 1 <= code <= 5 || 101 <= code <= 103
  {
  }

  /** Four bytes of payload size, two of type, both most significant first, then the payload. */
  lemma Layout(t: PacketType, payload: seq<Byte>)
    requires |payload| <= 65536
    ensures var n := |payload|;
            Packet(t, payload) == [0, n / 65536, n / 256 % 256, n % 256, 0, Code(t)] + payload
  {
    hide Encode;
    var n := |payload|;
    SizeBytes(n);
    Encode2(Code(t));
    assert Encode(Code(t), 2) == [0, Code(t)];
  }

  lemma SizeBytes(n: nat)
    requires n <= 65536
    ensures Encode(n, 4) == [0, n / 65536, n / 256 % 256, n % 256]
  {
    hide Encode;
    var high, low := n / 65536, n % 65536;
    assert n == high * 0x1_0000 + low && high <= 1;
    Encode4(high, low);
    Encode2(high);
    Encode2(low);
    assert low / 256 == n / 256 % 256 && low % 256 == n % 256;
  }

  lemma CodeOfKnown(code: nat)
    requires KnownType(code).Some?
    ensures Code(KnownType(code).value) == code
  {
  }

  /** bytes are a packet of type t with that payload, or begin with it. */
  predicate Begins(bytes: seq<Byte>, t: PacketType, payload: seq<Byte>)
  {
    |payload| <= 65536 && Packet(t, payload) <= bytes
  }

  /** bytes are a packet that has not arrived in full. */
  predicate Unfinished(bytes: seq<Byte>, t: PacketType, payload: seq<Byte>)
  {
    |payload| <= 65536 && bytes < Packet(t, payload)
  }

  lemma HeaderOf(bytes: seq<Byte>, t: PacketType, payload: seq<Byte>)
    requires |bytes| >= 6 && |payload| <= 65536 && (bytes <= Packet(t, payload) || Packet(t, payload) <= bytes)
    ensures Value(bytes[0..4]) == |payload| && Value(bytes[4..6]) == Code(t)
  {
    WordSizes();
    var packet := Packet(t, payload);
    assert bytes[0..4] == packet[0..4] == Encode(|payload|, 4);
    assert bytes[4..6] == packet[4..6] == Encode(Code(t), 2);
    ValueOfEncode(|payload|, 4);
    ValueOfEncode(Code(t), 2);
  }

  /** The header says which packet the bytes are, or begin, if any. */
  lemma HeaderMeans(bytes: seq<Byte>, t: PacketType, payload: seq<Byte>)
    requires |bytes| >= 6 && Value(bytes[0..4]) == |payload| <= 65536 && Value(bytes[4..6]) == Code(t)
    ensures Packet(t, payload)[..6] == bytes[..6]
  {
    EncodeOfValue(bytes[0..4]);
    EncodeOfValue(bytes[4..6]);
    assert Packet(t, payload)[..6] == Encode(|payload|, 4) + Encode(Code(t), 2);
    assert bytes[..6] == bytes[0..4] + bytes[4..6];
  }

  /** What decoding answers, read off the header: too large before unknown before incomplete. */
  lemma VerdictByHeader(bytes: seq<Byte>)
    ensures DecodeOne(bytes) == Failure(IncompleteHeader) <==> |bytes| < 6
    ensures DecodeOne(bytes) == Failure(PayloadTooLarge) <==> |bytes| >= 6 && Value(bytes[0..4]) > 65536
    ensures DecodeOne(bytes) == Failure(UnknownPacketType) <==>
            |bytes| >= 6 && Value(bytes[0..4]) <= 65536 && forall t :: Value(bytes[4..6]) != Code(t)
    ensures DecodeOne(bytes) == Failure(IncompletePayload) <==>
            |bytes| >= 6 && |bytes| < 6 + Value(bytes[0..4]) <= 65542 && exists t :: Value(bytes[4..6]) == Code(t)
  {
    if |bytes| >= 6 {
      var code := Value(bytes[4..6]);
      if KnownType(code).Some? {
        CodeOfKnown(code);
      }
      forall t
        ensures code == Code(t) ==> KnownType(code) == Some(t)
      {
      }
    }
  }

  /** A header and more of a packet that has not arrived in full: incomplete, and nothing else is. */
  lemma IncompleteExactly(bytes: seq<Byte>)
    requires |bytes| >= 6
    ensures DecodeOne(bytes).Failure? && IsIncomplete(DecodeOne(bytes).error) <==>
            exists t, payload :: Unfinished(bytes, t, payload)
  {
    hide DecodeOne, Packet;
    VerdictByHeader(bytes);
    forall t, payload | Unfinished(bytes, t, payload)
      ensures DecodeOne(bytes) == Failure(IncompletePayload)
    {
      HeaderOf(bytes, t, payload);
    }
    if DecodeOne(bytes) == Failure(IncompletePayload) {
      var t :| Value(bytes[4..6]) == Code(t);
      var payload := bytes[6..] + seq(6 + Value(bytes[0..4]) - |bytes|, _ => 0);
      HeaderMeans(bytes, t, payload);
      PacketTail(t, payload);
      assert bytes == bytes[..6] + bytes[6..];
      assert Unfinished(bytes, t, payload);
    }
  }

  lemma PacketTail(t: PacketType, payload: seq<Byte>)
    ensures Packet(t, payload) == Packet(t, payload)[..6] + payload
  {
  }

  /** A decode succeeds on exactly the bytes that begin with a packet, and returns that packet. */
  lemma SuccessExactly(bytes: seq<Byte>, t: PacketType, payload: seq<Byte>)
    ensures DecodeOne(bytes) == Success(PacketView(t, payload, 6 + |payload|)) <==> Begins(bytes, t, payload)
  {
    if Begins(bytes, t, payload) {
      var n := 6 + |payload|;
      assert bytes == Packet(t, payload) + bytes[n..];
      DecodeOfPacket(t, payload, bytes[n..]);
    } else if DecodeOne(bytes) == Success(PacketView(t, payload, 6 + |payload|)) {
      PacketOfDecode(bytes);
      assert false;
    }
  }

  // Payloads.

  /** A move payload is the image of one position; eight bytes always are. */
  lemma MoveExactly(payload: seq<Byte>, p: Position)
    ensures DecodeMove(payload) == Success(p) <==> payload == PositionImage(p)
    ensures DecodeMove(payload).Failure? <==> |payload| != 8
  {
    if payload == PositionImage(p) {
      assert payload[0..8] == payload;
      PositionRoundTrip(payload, 0, p);
    } else if |payload| == 8 {
      ImageOfPosition(payload, 0);
      assert payload[0..8] == payload;
    }
  }

  lemma ImageOfPosition(bytes: seq<Byte>, offset: nat)
    requires offset + 8 <= |bytes|
    ensures PositionImage(ReadPosition(bytes, offset)) == bytes[offset..offset + 8]
  {
    var x, y := bytes[offset..offset + 4], bytes[offset + 4..offset + 8];
    EncodeOfValue(x);
    EncodeOfValue(y);
    BitsOf(ReadUint32(bytes, offset));
    BitsOf(ReadUint32(bytes, offset + 4));
    assert bytes[offset..offset + 8] == x + y;
  }

  lemma BitsOf(bits: nat)
    requires bits < 0x1_0000_0000
    ensures ToBits(FromBits(bits)) == bits
  {
  }

  /** A packet carries an event if and only if it is that event's packet. */
  lemma EventExactly(view: PacketView, event: Event)
    ensures EventOf(view) == Some(event) <==> view.packetType == EventType(event) && view.payload == EventPayload(event)
  {
    hide EventPacket;
    if view.packetType == EventType(event) && view.payload == EventPayload(event) {
      PayloadRoundTrip(event);
      EventIgnoresSize(view, PacketView(EventType(event), EventPayload(event), |EventPacket(event)|));
    } else if EventOf(view) == Some(event) {
      PayloadOfEvent(view, event);
      assert false;
    }
  }

  lemma EventIgnoresSize(view: PacketView, other: PacketView)
    requires view.packetType == other.packetType && view.payload == other.payload
    ensures EventOf(view) == EventOf(other)
  {
  }

  lemma PayloadOfEvent(view: PacketView, event: Event)
    requires EventOf(view) == Some(event)
    ensures view.packetType == EventType(event) && view.payload == EventPayload(event)
  {
    hide Encode, Value, PositionImage;
    var payload := view.payload;
    EncodeOfValue(payload[0..8]);
    if event.Left? {
      EncodeOfValue(payload[8..10]);
      ReasonOfCode(Value(payload[8..10]));
      assert payload == payload[0..8] + payload[8..10];
    } else {
      ImageOfPosition(payload, 8);
      assert payload == payload[0..8] + payload[8..16];
    }
  }

  lemma ReasonOfCode(code: nat)
    ensures ReasonOf(code).Some? ==> ReasonCode(ReasonOf(code).value) == code
  {
  }

  /** The disconnect reasons, as numbers on the wire. */
  lemma ReasonCodes()
    ensures ReasonCode(LeftRoom) == 1 && ReasonCode(ClientClosed) == 2 && ReasonCode(ProtocolError) == 3
    ensures ReasonCode(IoError) == 4 && ReasonCode(OutboundOverflow) == 5 && ReasonCode(ServerShutdown) == 6
  {
  }

  /** Events byte by byte: a player at the origin, one at (1, -2), and one that overflowed. */
  lemma JoinedBytes()
    ensures EventPacket(Joined(7, ORIGIN)) == [0, 0, 0, 16, 0, 101, 0, 0, 0, 0, 0, 0, 0, 7, 0, 0, 0, 0, 0, 0, 0, 0]
  {
    hide Encode, Packet;
    Encode8(7);
    EncodeSmall(0);
    Layout(PacketType.PlayerJoined, EventPayload(Joined(7, ORIGIN)));
  }

  lemma MovedBytes()
    ensures EventPacket(Moved(258, Position(1, -2))) ==
            [0, 0, 0, 16, 0, 102, 0, 0, 0, 0, 0, 0, 1, 2, 0, 0, 0, 1, 255, 255, 255, 254]
  {
    hide Encode, Packet;
    Encode8(258);
    EncodeSmall(1);
    Encode4(0xFFFF, 0xFFFE);
    Encode2(0xFFFF);
    Encode2(0xFFFE);
    Layout(PlayerMoved, EventPayload(Moved(258, Position(1, -2))));
  }

  lemma LeftBytes()
    ensures EventPacket(Left(7, OutboundOverflow)) == [0, 0, 0, 10, 0, 103, 0, 0, 0, 0, 0, 0, 0, 7, 0, 5]
  {
    hide Encode, Packet;
    Encode8(7);
    EncodeSmall(5);
    Layout(PacketType.PlayerLeft, EventPayload(Left(7, OutboundOverflow)));
  }

  lemma EncodeSmall(v: nat)
    requires v < 256
    ensures Encode(v, 4) == [0, 0, 0, v] && Encode(v, 2) == [0, v]
  {
    Encode4(0, v);
    Encode2(0);
    Encode2(v);
  }
}
