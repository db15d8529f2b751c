/**
 The length-prefixed wire format: a four-byte big-endian payload size, a two-byte
 big-endian packet type, then the payload.
 */
module PacketCodec {
  import opened Bytes
  import opened Common

  const HEADER_SIZE: nat := 6
  const MAX_PAYLOAD: nat := 0x1_0000
  const MAX_PACKET: nat := HEADER_SIZE + MAX_PAYLOAD

  datatype PacketType =
    | Ping | JoinRoom | Move | Attack | LeaveRoom
    | PlayerJoined | PlayerMoved | PlayerLeft

  datatype DecodeError = IncompleteHeader | PayloadTooLarge | UnknownPacketType | IncompletePayload

  datatype EncodeError = OversizedPayload | UnknownType

  datatype PacketView = PacketView(packetType: PacketType, payload: seq<Byte>, consumed: nat)

  function Code(t: PacketType): (code: nat)
    ensures code < 0x1_0000
    ensures KnownType(code) == Some(t)
  {
    match t
    case Ping => 1
    case JoinRoom => 2
    case Move => 3
    case Attack => 4
    case LeaveRoom => 5
    case PlayerJoined => 101
    case PlayerMoved => 102
    case PlayerLeft => 103
  }

  /** is_known, returning the enumerator itself. */
  function KnownType(code: nat): (t: Option<PacketType>)
  {
    match code
    case 1 => Some(Ping)
    case 2 => Some(JoinRoom)
    case 3 => Some(Move)
    case 4 => Some(Attack)
    case 5 => Some(LeaveRoom)
    case 101 => Some(PlayerJoined)
    case 102 => Some(PlayerMoved)
    case 103 => Some(PlayerLeft)
    case _ => None
  }

  predicate IsIncomplete(e: DecodeError)
  {
    e == IncompleteHeader || e == IncompletePayload
  }

  /** The wire image of a packet. */
  function Packet(t: PacketType, payload: seq<Byte>): (p: seq<Byte>)
    ensures |p| == HEADER_SIZE + |payload|
  {
    Encode(|payload|, 4) + Encode(Code(t), 2) + payload
  }

  /** read_big_endian: a native load followed by a byteswap. */
  function ReadWord(bytes: seq<Byte>, offset: nat, width: nat): (v: nat)
    requires offset + width <= |bytes|
    ensures v == Value(bytes[offset..offset + width])
  {
    LoadSwapped(bytes[offset..offset + width]);
    Byteswap(NativeLoad(bytes[offset..offset + width]), width)
  }

  function DecodeOne(bytes: seq<Byte>): (r: Result<PacketView, DecodeError>)
    ensures r.Success? ==> HEADER_SIZE <= r.value.consumed == HEADER_SIZE + |r.value.payload| <= |bytes|
  {
    if |bytes| < HEADER_SIZE then Failure(IncompleteHeader)
    else
      var size := ReadWord(bytes, 0, 4);
      var code := ReadWord(bytes, 4, 2);
      if size > MAX_PAYLOAD then Failure(PayloadTooLarge)
      else if KnownType(code).None? then Failure(UnknownPacketType)
      else if |bytes| < HEADER_SIZE + size then Failure(IncompletePayload)
      else Success(PacketView(KnownType(code).value, bytes[HEADER_SIZE..HEADER_SIZE + size], HEADER_SIZE + size))
  }

  /** encode_packet: sizes and types are checked, then the buffer is filled in place. */
  method EncodePacket(code: nat, payload: seq<Byte>) returns (r: Result<seq<Byte>, EncodeError>)
    requires code < 0x1_0000
    ensures r == Failure(OversizedPayload) <==> |payload| > MAX_PAYLOAD
    ensures r == Failure(UnknownType) <==> |payload| <= MAX_PAYLOAD && KnownType(code).None?
    ensures r.Success? <==> |payload| <= MAX_PAYLOAD && KnownType(code).Some?
    ensures r.Success? ==> r.value == Packet(KnownType(code).value, payload)
  {
    if |payload| > MAX_PAYLOAD {
      return Failure(OversizedPayload);
    }
    if KnownType(code).None? {
      return Failure(UnknownType);
    }
    var encoded := new Byte[HEADER_SIZE + |payload|];
    WordSizes();
    WriteWord(encoded, 0, 4, |payload|);
    WriteWord(encoded, 4, 2, code);
    forall i | 0 <= i < |payload| {
      encoded[HEADER_SIZE + i] := payload[i];
    }
    assert encoded[..4] == Encode(|payload|, 4);
    assert encoded[4..6] == Encode(code, 2);
    assert encoded[..] == encoded[..4] + encoded[4..6] + payload;
    r := Success(encoded[..]);
  }

  /** write_big_endian of the codec: byteswap, then memcpy. */
  method WriteWord(bytes: array<Byte>, offset: nat, width: nat, value: nat)
    requires offset + width <= bytes.Length
    requires value < Pow256(width)
    modifies bytes
    ensures bytes[offset..offset + width] == Encode(value, width)
    ensures forall i :: 0 <= i < bytes.Length && !(offset <= i < offset + width) ==> bytes[i] == old(bytes[i])
  {
    StoreSwapped(value, width);
    var image := NativeStore(Byteswap(value, width), width);
    forall i | 0 <= i < width {
      bytes[offset + i] := image[i];
    }
    assert bytes[offset..offset + width] == image;
  }

  /** Decoding an encoded packet returns it, whatever bytes follow. */
  lemma DecodeOfPacket(t: PacketType, payload: seq<Byte>, rest: seq<Byte>)
    requires |payload| <= MAX_PAYLOAD
    ensures DecodeOne(Packet(t, payload) + rest) == Success(PacketView(t, payload, HEADER_SIZE + |payload|))
  {
    var bytes := Packet(t, payload) + rest;
    WordSizes();
    assert bytes[0..4] == Encode(|payload|, 4);
    assert bytes[4..6] == Encode(Code(t), 2);
    ValueOfEncode(|payload|, 4);
    ValueOfEncode(Code(t), 2);
    assert bytes[HEADER_SIZE..HEADER_SIZE + |payload|] == payload;
  }

  /** Conversely, the bytes a successful decode consumes are exactly the encoding of what it returns. */
  lemma PacketOfDecode(bytes: seq<Byte>)
    requires DecodeOne(bytes).Success?
    ensures var view := DecodeOne(bytes).value;
            |view.payload| <= MAX_PAYLOAD && bytes[..view.consumed] == Packet(view.packetType, view.payload)
  {
    var view := DecodeOne(bytes).value;
    EncodeOfValue(bytes[0..4]);
    EncodeOfValue(bytes[4..6]);
    var code := Value(bytes[4..6]);
    assert Code(view.packetType) == code;
    assert bytes[..view.consumed] == bytes[0..4] + bytes[4..6] + view.payload;
  }

  /** Success and fatal verdicts do not change when more bytes arrive. */
  lemma DecodeStable(bytes: seq<Byte>, more: seq<Byte>)
    requires DecodeOne(bytes).Success? || !IsIncomplete(DecodeOne(bytes).error)
    ensures DecodeOne(bytes + more) == DecodeOne(bytes)
  {
    var all := bytes + more;
    assert all[0..4] == bytes[0..4];
    assert all[4..6] == bytes[4..6];
    if DecodeOne(bytes).Success? {
      var view := DecodeOne(bytes).value;
      assert all[HEADER_SIZE..view.consumed] == bytes[HEADER_SIZE..view.consumed];
    }
  }

  /** An undecodable but not invalid buffer is shorter than one maximal packet. */
  lemma IncompleteIsShort(bytes: seq<Byte>)
    requires DecodeOne(bytes).Failure? && IsIncomplete(DecodeOne(bytes).error)
    ensures |bytes| < MAX_PACKET
  {
  }
}
