/** The gameplay payloads carried inside packets. */
module GameplayPayload {
  import opened Bytes
  import opened Common
  import opened Room

  const MOVE_SIZE: nat := 8
  const STATE_SIZE: nat := 16
  const LEFT_SIZE: nat := 10

  datatype PayloadError = ExpectedEmpty | InvalidMoveSize | InvalidStateSize | InvalidLeftSize

  datatype PlayerState = PlayerState(id: SessionId, position: Position)

  datatype PlayerLeft = PlayerLeft(id: SessionId, reason: nat)

  function ReadUint16(bytes: seq<Byte>, offset: nat): (v: nat)
    requires offset + 2 <= |bytes|
    ensures v == Value(bytes[offset..offset + 2])
  {
    UnrolledReads(bytes[offset..offset + 2]);
    (bytes[offset] as nat) * 0x100 + bytes[offset + 1]
  }

  function ReadUint32(bytes: seq<Byte>, offset: nat): (v: nat)
    requires offset + 4 <= |bytes|
    ensures v == Value(bytes[offset..offset + 4]) && v < 0x1_0000_0000
  {
    UnrolledReads(bytes[offset..offset + 4]);
    WordSizes();
    (bytes[offset] as nat) * 0x100_0000 + (bytes[offset + 1] as nat) * 0x1_0000
    + (bytes[offset + 2] as nat) * 0x100 + bytes[offset + 3]
  }

  /** What the accumulating loop Bytes.ReadAccumulated computes over eight bytes. */
  function ReadUint64(bytes: seq<Byte>, offset: nat): (v: UInt64)
    requires offset + 8 <= |bytes|
  {
    WordSizes();
    Value(bytes[offset..offset + 8])
  }

  function ReadPosition(bytes: seq<Byte>, offset: nat): Position
    requires offset + 8 <= |bytes|
  {
    Position(FromBits(ReadUint32(bytes, offset)), FromBits(ReadUint32(bytes, offset + 4)))
  }

  function DecodeMove(payload: seq<Byte>): Result<Position, PayloadError>
  {
    if |payload| != MOVE_SIZE then Failure(InvalidMoveSize) else Success(ReadPosition(payload, 0))
  }

  function DecodeState(payload: seq<Byte>): Result<PlayerState, PayloadError>
  {
    if |payload| != STATE_SIZE then Failure(InvalidStateSize)
    else Success(PlayerState(ReadUint64(payload, 0), ReadPosition(payload, 8)))
  }

  function DecodeLeft(payload: seq<Byte>): Result<PlayerLeft, PayloadError>
  {
    if |payload| != LEFT_SIZE then Failure(InvalidLeftSize)
    else Success(PlayerLeft(ReadUint64(payload, 0), ReadUint16(payload, 8)))
  }

  function PositionImage(p: Position): (bytes: seq<Byte>)
    ensures |bytes| == 8
  {
    Encode(ToBits(p.x), 4) + Encode(ToBits(p.y), 4)
  }

  lemma PositionRoundTrip(bytes: seq<Byte>, offset: nat, p: Position)
    requires offset + 8 <= |bytes| && bytes[offset..offset + 8] == PositionImage(p)
    ensures ReadPosition(bytes, offset) == p
  {
    WordSizes();
    var image := PositionImage(p);
    assert bytes[offset..offset + 4] == image[..4] == Encode(ToBits(p.x), 4);
    assert bytes[offset + 4..offset + 8] == image[4..] == Encode(ToBits(p.y), 4);
    ValueOfEncode(ToBits(p.x), 4);
    ValueOfEncode(ToBits(p.y), 4);
  }

  method WriteUint32(bytes: array<Byte>, offset: nat, value: nat)
    requires offset + 4 <= bytes.Length && value < 0x1_0000_0000
    modifies bytes
    ensures bytes[offset..offset + 4] == Encode(value, 4)
    ensures forall i :: 0 <= i < bytes.Length && !(offset <= i < offset + 4) ==> bytes[i] == old(bytes[i])
  {
    bytes[offset] := value / 0x100_0000 % 256;
    bytes[offset + 1] := value / 0x1_0000 % 256;
    bytes[offset + 2] := value / 0x100 % 256;
    bytes[offset + 3] := value % 256;
    PowersUpTo3();
    ByteOfEncode(value, 4, 0);
    ByteOfEncode(value, 4, 1);
    ByteOfEncode(value, 4, 2);
    ByteOfEncode(value, 4, 3);
  }

  /** encode_move_payload: the client's encoding is what the server's decoder reads back. */
  method EncodeMove(p: Position) returns (payload: seq<Byte>)
    ensures |payload| == MOVE_SIZE && DecodeMove(payload) == Success(p)
  {
    var encoded := new Byte[MOVE_SIZE];
    WriteUint32(encoded, 0, ToBits(p.x));
    WriteUint32(encoded, 4, ToBits(p.y));
    payload := encoded[..];
    assert payload[0..4] == encoded[0..4] && payload[4..8] == encoded[4..8];
    assert payload[0..8] == PositionImage(p);
    PositionRoundTrip(payload, 0, p);
  }
}
