/**
 Decoding a byte stream into packets, as a whole and as it arrives in reads:
 the loop both ends of the connection run over their receive buffer.
 */
module Framing {
  import opened Bytes
  import opened Common
  import opened PacketCodec

  /** What a decode loop makes of a stream: the packets, the bytes it left, and the protocol error that stopped it. */
  datatype Stream = Stream(packets: seq<PacketView>, leftover: seq<Byte>, error: Option<DecodeError>)

  /** The loop over the readable bytes, run until they are used up, incomplete or invalid. */
  function DecodeStream(bytes: seq<Byte>): (r: Stream)
    decreases |bytes|
  {
    if bytes == [] then Stream([], [], None)
    else
      match DecodeOne(bytes)
      case Failure(e) => Stream([], bytes, if IsIncomplete(e) then None else Some(e))
      case Success(view) =>
        var rest := DecodeStream(bytes[view.consumed..]);
        rest.(packets := [view] + rest.packets)
  }

  /** Chunks appended one at a time to the buffered bytes, decoding after each; a protocol error ends the reading. */
  function DecodeChunks(buffered: seq<Byte>, chunks: seq<seq<Byte>>): (r: (Stream, seq<seq<Byte>>))
    ensures |r.1| <= |chunks|
    decreases |chunks|
  {
    if chunks == [] then (Stream([], buffered, None), [])
    else
      var first := DecodeStream(buffered + chunks[0]);
      if first.error.Some? then (first, chunks[1..])
      else
        var rest := DecodeChunks(first.leftover, chunks[1..]);
        (rest.0.(packets := first.packets + rest.0.packets), rest.1)
  }

  /** What decoding makes of a stream that goes on with more bytes. */
  function Extend(d: Stream, more: seq<Byte>): (r: Stream)
  {
    if d.error.Some? then d.(leftover := d.leftover + more)
    else
      var e := DecodeStream(d.leftover + more);
      e.(packets := d.packets + e.packets)
  }

  lemma ExtendPrepend(view: PacketView, d: Stream, more: seq<Byte>)
    ensures Extend(d.(packets := [view] + d.packets), more)
         == Extend(d, more).(packets := [view] + Extend(d, more).packets)
  {
  }

  /** Decoding a longer stream continues from where decoding its beginning stopped. */
  lemma {:induction false} DecodeAppend(a: seq<Byte>, b: seq<Byte>)
    ensures DecodeStream(a + b) == Extend(DecodeStream(a), b)
    decreases |a|
  {
    if a == [] {
      assert a + b == [] + b;
      var e := DecodeStream([] + b);
      assert [] + e.packets == e.packets;
    } else if DecodeOne(a).Success? {
      var view := DecodeOne(a).value;
      DecodeStable(a, b);
      assert (a + b)[view.consumed..] == a[view.consumed..] + b;
      DecodeAppend(a[view.consumed..], b);
      ExtendPrepend(view, DecodeStream(a[view.consumed..]), b);
    } else if IsIncomplete(DecodeOne(a).error) {
      assert [] + DecodeStream(a + b).packets == DecodeStream(a + b).packets;
    } else {
      DecodeStable(a, b);
    }
  }

  lemma {:induction false} LeftoverIsStuck(bytes: seq<Byte>)
    requires DecodeStream(bytes).error.None?
    ensures var left := DecodeStream(bytes).leftover;
            DecodeStream(left) == Stream([], left, None) && |left| < MAX_PACKET
    decreases |bytes|
  {
    if bytes != [] && DecodeOne(bytes).Success? {
      LeftoverIsStuck(bytes[DecodeOne(bytes).value.consumed..]);
    } else if bytes != [] {
      IncompleteIsShort(bytes);
    }
  }

  lemma {:induction false} ReadsFromStuck(buffered: seq<Byte>, chunks: seq<seq<Byte>>)
    requires DecodeStream(buffered) == Stream([], buffered, None)
    ensures var (got, unread) := DecodeChunks(buffered, chunks);
            DecodeStream(buffered + Flatten(chunks)) == got.(leftover := got.leftover + Flatten(unread))
    decreases |chunks|
  {
    hide DecodeStream;
    if chunks == [] {
      assert buffered + [] == buffered;
    } else {
      var first, others := DecodeStream(buffered + chunks[0]), chunks[1..];
      DecodeAppend(buffered + chunks[0], Flatten(others));
      assert buffered + Flatten(chunks) == (buffered + chunks[0]) + Flatten(others);
      if first.error.None? {
        LeftoverIsStuck(buffered + chunks[0]);
        ReadsFromStuck(first.leftover, others);
      }
    }
  }

  /** However a stream is split into chunks, the packets, the first protocol error and the bytes left are the same. */
  lemma ChunkingIndependence(chunks: seq<seq<Byte>>)
    ensures var (got, unread) := DecodeChunks([], chunks);
            var whole := DecodeStream(Flatten(chunks));
            && got.packets == whole.packets
            && got.error == whole.error
            && got.leftover + Flatten(unread) == whole.leftover
            && (got.error.None? ==> unread == [])
  {
    ReadsFromStuck([], chunks);
    assert [] + Flatten(chunks) == Flatten(chunks);
    UnreadOnlyOnError([], chunks);
  }

  lemma {:induction false} UnreadOnlyOnError(buffered: seq<Byte>, chunks: seq<seq<Byte>>)
    ensures DecodeChunks(buffered, chunks).0.error.None? ==> DecodeChunks(buffered, chunks).1 == []
    decreases |chunks|
  {
    if chunks != [] && DecodeStream(buffered + chunks[0]).error.None? {
      UnreadOnlyOnError(DecodeStream(buffered + chunks[0]).leftover, chunks[1..]);
    }
  }

  /** A packet as the sending side lays it out. */
  ghost predicate WellFormed(p: seq<Byte>)
  {
    DecodeOne(p).Success? && DecodeOne(p).value.consumed == |p|
  }

  function Views(packets: seq<seq<Byte>>): (views: seq<PacketView>)
    requires forall p :: p in packets ==> WellFormed(p)
  {
    if packets == [] then []
    else
      assert WellFormed(packets[0]);
      [DecodeOne(packets[0]).value] + Views(packets[1..])
  }

  lemma {:induction false} DecodeOfFlatten(packets: seq<seq<Byte>>)
    requires forall p :: p in packets ==> WellFormed(p)
    ensures DecodeStream(Flatten(packets)) == Stream(Views(packets), [], None)
  {
    if packets != [] {
      var p, rest := packets[0], Flatten(packets[1..]);
      assert p in packets;
      DecodeOfFlatten(packets[1..]);
      DecodeStable(p, rest);
      assert (p + rest)[|p|..] == rest;
    }
  }

  /** A reader that has seen only part of what was sent has decoded a prefix of the packets, and no error. */
  lemma DecodeOfPart(packets: seq<seq<Byte>>, wire: seq<Byte>)
    requires forall p :: p in packets ==> WellFormed(p)
    requires wire <= Flatten(packets)
    ensures DecodeStream(wire).error.None?
    ensures DecodeStream(wire).packets <= Views(packets)
  {
    var missing := Flatten(packets)[|wire|..];
    assert wire + missing == Flatten(packets);
    DecodeAppend(wire, missing);
    DecodeOfFlatten(packets);
  }
}
