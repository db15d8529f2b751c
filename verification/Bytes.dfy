/**
 Bytes and the three big-endian integer forms the server uses:
 the codec's byteswap of a native little-endian word, the event encoder's shift loop
 and the payload reader's shift-and-accumulate loop.
 A right shift by 8k bits is division by 256^k, a mask with 0xFF is remainder by 256, and
 "(v << 8) | b" for a byte b is v * 256 + b.
 */
module Bytes {
  import opened Common

  type Byte = b: nat | b < 256

  function Pow256(n: nat): (p: nat)
    ensures p >= 1
  {
    if n == 0 then 1 else 256 * Pow256(n - 1)
  }

  /** The big-endian image of v in width bytes. */
  function Encode(v: nat, width: nat): (bytes: seq<Byte>)
    ensures |bytes| == width
  {
    if width == 0 then [] else Encode(v / 256, width - 1) + [v % 256]
  }

  /** The number a big-endian byte sequence stands for. */
  function Value(bytes: seq<Byte>): (v: nat)
    ensures v < Pow256(|bytes|)
  {
    if bytes == [] then 0 else Value(bytes[..|bytes| - 1]) * 256 + bytes[|bytes| - 1]
  }

  lemma {:induction false} ValueOfEncode(v: nat, width: nat)
    requires v < Pow256(width)
    ensures Value(Encode(v, width)) == v
  {
    if width > 0 {
      ValueOfEncode(v / 256, width - 1);
      assert Encode(v, width)[..width - 1] == Encode(v / 256, width - 1);
    }
  }

  lemma {:induction false} EncodeOfValue(bytes: seq<Byte>)
    ensures Encode(Value(bytes), |bytes|) == bytes
  {
    if bytes != [] {
      var init := bytes[..|bytes| - 1];
      EncodeOfValue(init);
      assert Value(bytes) / 256 == Value(init);
      assert bytes == init + [bytes[|bytes| - 1]];
    }
  }

  lemma MulAssoc(a: nat, p: nat)
    ensures a * (256 * p) == (a * p) * 256
  {
  }

  lemma {:induction false} ValueHead(bytes: seq<Byte>)
    requires bytes != []
    ensures Value(bytes) == bytes[0] * Pow256(|bytes| - 1) + Value(bytes[1..])
  {
    if |bytes| == 1 {
      assert bytes[..0] == [];
      assert bytes[1..] == [];
    } else {
      var init, rest := bytes[..|bytes| - 1], bytes[1..];
      ValueHead(init);
      assert rest[..|rest| - 1] == init[1..];
      MulAssoc(bytes[0], Pow256(|bytes| - 2));
    }
  }

  // The codec: memcpy of a native little-endian word, then byteswap.

  /** What memcpy into a little-endian word reads. */
  function NativeLoad(bytes: seq<Byte>): nat
  {
    if bytes == [] then 0 else bytes[0] + 256 * NativeLoad(bytes[1..])
  }

  /** What memcpy from a little-endian word writes. */
  function NativeStore(v: nat, width: nat): (bytes: seq<Byte>)
    ensures |bytes| == width
  {
    if width == 0 then [] else [v % 256] + NativeStore(v / 256, width - 1)
  }

  function Byteswap(v: nat, width: nat): nat
  {
    if width == 0 then 0 else (v % 256) * Pow256(width - 1) + Byteswap(v / 256, width - 1)
  }

  lemma LowByte(low: Byte, high: nat)
    ensures (low + 256 * high) % 256 == low && (low + 256 * high) / 256 == high
  {
  }

  lemma {:induction false} LoadSwapped(bytes: seq<Byte>)
    ensures Byteswap(NativeLoad(bytes), |bytes|) == Value(bytes)
  {
    if bytes != [] {
      LowByte(bytes[0], NativeLoad(bytes[1..]));
      LoadSwapped(bytes[1..]);
      ValueHead(bytes);
    }
  }

  lemma {:induction false} LoadLast(bytes: seq<Byte>)
    requires bytes != []
    ensures NativeLoad(bytes) == NativeLoad(bytes[..|bytes| - 1]) + bytes[|bytes| - 1] * Pow256(|bytes| - 1)
  {
    if |bytes| > 1 {
      var rest := bytes[1..];
      LoadLast(rest);
      assert bytes[..|bytes| - 1][1..] == rest[..|rest| - 1];
      MulAssoc(bytes[|bytes| - 1], Pow256(|bytes| - 2));
    }
  }

  lemma {:induction false} SwapOfValue(bytes: seq<Byte>)
    ensures Byteswap(Value(bytes), |bytes|) == NativeLoad(bytes)
  {
    if bytes != [] {
      var init := bytes[..|bytes| - 1];
      assert Value(bytes) / 256 == Value(init) && Value(bytes) % 256 == bytes[|bytes| - 1];
      SwapOfValue(init);
      LoadLast(bytes);
    }
  }

  lemma {:induction false} StoreOfLoad(bytes: seq<Byte>)
    ensures NativeStore(NativeLoad(bytes), |bytes|) == bytes
  {
    if bytes != [] {
      StoreOfLoad(bytes[1..]);
      LowByte(bytes[0], NativeLoad(bytes[1..]));
      assert bytes == [bytes[0]] + bytes[1..];
    }
  }

  /** The codec's write_big_endian: storing the swapped word lays the value out big-endian. */
  lemma StoreSwapped(v: nat, width: nat)
    requires v < Pow256(width)
    ensures NativeStore(Byteswap(v, width), width) == Encode(v, width)
  {
    ValueOfEncode(v, width);
    SwapOfValue(Encode(v, width));
    StoreOfLoad(Encode(v, width));
  }

  // The event encoder: one shifted byte per index.

  lemma DivDiv(v: nat, p: nat)
    requires p >= 1
    ensures v / 256 / p == v / (256 * p)
  {
    var q, r := v / 256 / p, v / 256 % p;
    var low := v % 256;
    assert v == 256 * (q * p + r) + low;
    assert v == (256 * p) * q + (256 * r + low) by {
      assert 256 * (q * p) == (256 * p) * q;
    }
    assert 0 <= 256 * r + low < 256 * p;
    QuotientUnique(v, 256 * p, q, 256 * r + low);
  }

  lemma QuotientUnique(v: nat, d: nat, q: nat, r: nat)
    requires d >= 1 && r < d && v == d * q + r
    ensures v / d == q
  {
    var quotient := v / d;
    assert d * quotient <= v < d * quotient + d by { DivBounds(v, d); }
    if quotient > q {
      MulLe(q + 1, quotient, d);
    } else if quotient < q {
      MulLe(quotient + 1, q, d);
    }
  }

  lemma {:induction false} ByteOfEncode(v: nat, width: nat, index: nat)
    requires index < width
    ensures Encode(v, width)[index] == v / Pow256(width - index - 1) % 256
  {
    if index < width - 1 {
      ByteOfEncode(v / 256, width - 1, index);
      DivDiv(v, Pow256(width - index - 2));
    }
  }

  /** write_big_endian of the event encoder, in place. */
  method WriteShifted(bytes: array<Byte>, offset: nat, width: nat, value: nat)
    requires offset + width <= bytes.Length
    modifies bytes
    ensures bytes[..] == old(bytes[..offset]) + Encode(value, width) + old(bytes[offset + width..])
  {
    for index := 0 to width
      invariant bytes[..offset] == old(bytes[..offset])
      invariant bytes[offset..offset + index] == Encode(value, width)[..index]
      invariant bytes[offset + width..] == old(bytes[offset + width..])
    {
      ByteOfEncode(value, width, index);
      bytes[offset + index] := value / Pow256(width - index - 1) % 256;
      assert bytes[offset..offset + index + 1] == bytes[offset..offset + index] + [bytes[offset + index]];
    }
  }

  // The payload reader: shift and accumulate.

  /** read_uint64_big_endian, for any width. */
  method ReadAccumulated(bytes: seq<Byte>, offset: nat, width: nat) returns (value: nat)
    requires offset + width <= |bytes|
    ensures value == Value(bytes[offset..offset + width])
  {
    value := 0;
    for index := 0 to width
      invariant value == Value(bytes[offset..offset + index])
    {
      var next := bytes[offset..offset + index + 1];
      assert next[..index] == bytes[offset..offset + index];
      value := value * 256 + bytes[offset + index];
    }
  }

  /** The unrolled 16- and 32-bit readers agree with the general form. */
  lemma UnrolledReads(bytes: seq<Byte>)
    ensures |bytes| == 2 ==> Value(bytes) == (bytes[0] as nat) * 0x100 + bytes[1]
    ensures |bytes| == 4 ==>
              Value(bytes) == (bytes[0] as nat) * 0x100_0000 + (bytes[1] as nat) * 0x1_0000
                              + (bytes[2] as nat) * 0x100 + bytes[3]
  {
  }

  lemma PowersUpTo3()
    ensures Pow256(0) == 1 && Pow256(1) == 0x100 && Pow256(2) == 0x1_0000 && Pow256(3) == 0x100_0000
  {
  }

  lemma WordSizes()
    ensures Pow256(2) == 0x1_0000
    ensures Pow256(4) == 0x1_0000_0000
    ensures Pow256(8) == 0x1_0000_0000_0000_0000
  {
  }

  // Two's complement: bit_cast between signed and unsigned 32-bit words.

  type Int32 = x: int | -0x8000_0000 <= x < 0x8000_0000

  type UInt64 = x: nat | x < 0x1_0000_0000_0000_0000

  function ToBits(x: Int32): (bits: nat)
    ensures bits < 0x1_0000_0000
    ensures FromBits(bits) == x
  {
    if x < 0 then x + 0x1_0000_0000 else x
  }

  function FromBits(bits: nat): (x: Int32)
    requires bits < 0x1_0000_0000
  {
    if bits < 0x8000_0000 then bits else bits - 0x1_0000_0000
  }
}
