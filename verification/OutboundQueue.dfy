/** The bounded queue of packets waiting for a session's writer. */
module OutboundQueue {
  import opened Bytes
  import opened Common

  type Packet = seq<Byte>

  datatype PushError = Closed | InvalidPacket | PacketTooLarge | ByteLimitExceeded

  function Total(packets: seq<Packet>): nat
  {
    if packets == [] then 0 else Total(packets[..|packets| - 1]) + |packets[|packets| - 1]|
  }

  lemma {:induction false} TotalAppend(a: seq<Packet>, b: seq<Packet>)
    ensures Total(a + b) == Total(a) + Total(b)
  {
    if b == [] {
      assert a + b == a;
    } else {
      var init := b[..|b| - 1];
      TotalAppend(a, init);
      assert (a + b)[..|a + b| - 1] == a + init;
    }
  }

  lemma {:induction false} TotalIsFlattenedSize(packets: seq<Packet>)
    ensures |Flatten(packets)| == Total(packets)
  {
    if packets != [] {
      TotalIsFlattenedSize(packets[1..]);
      TotalCons(packets);
    }
  }

  lemma TotalCons(packets: seq<Packet>)
    requires packets != []
    ensures Total(packets) == |packets[0]| + Total(packets[1..])
  {
    var first: seq<Packet> := packets[..1];
    assert first[..0] == [];
    TotalAppend(first, packets[1..]);
    assert first + packets[1..] == packets;
  }

  /** push's verdict on an optional (shared, possibly null) packet. */
  function PushVerdict(pending: seq<Packet>, closed: bool, limit: nat, packet: Option<Packet>): Result<Packet, PushError>
  {
    if closed then Failure(Closed)
    else if packet.None? || packet.value == [] then Failure(InvalidPacket)
    else if |packet.value| > limit then Failure(PacketTooLarge)
    else if |packet.value| > limit - Total(pending) then Failure(ByteLimitExceeded)
    else Success(packet.value)
  }

  /** Each refusal has exactly its reason, and a push succeeds exactly if the queue then stays within its limit. */
  lemma PushExactly(pending: seq<Packet>, closed: bool, limit: nat, packet: Option<Packet>)
    requires Total(pending) <= limit
    ensures var verdict := PushVerdict(pending, closed, limit, packet);
            && (verdict == Failure(Closed) <==> closed)
            && (verdict == Failure(InvalidPacket) <==> !closed && packet in {None, Some([])})
            && (verdict == Failure(PacketTooLarge) <==> !closed && packet.Some? && |packet.value| > limit)
            && (verdict == Failure(ByteLimitExceeded) <==>
                  !closed && packet.Some? && |packet.value| <= limit < Total(pending + [packet.value]))
            && (verdict.Success? <==> !closed && packet.Some? && packet.value != [] && Total(pending + [packet.value]) <= limit)
            && (verdict.Success? ==> packet == Some(verdict.value))
  {
    if packet.Some? {
      assert (pending + [packet.value])[..|pending|] == pending;
    }
  }

  /** How many packets one batch takes: the greedy loop of pop_batch, from n already taken. */
  function Greedy(pending: seq<Packet>, n: nat, slots: nat, maxBytes: nat): (count: nat)
    requires n <= |pending| && n <= slots
    ensures n <= count <= |pending| && count <= slots
    decreases |pending| - n
  {
    if n < slots && n < |pending| &&
       (n == 0 || (Total(pending[..n]) < maxBytes && |pending[n]| <= maxBytes - Total(pending[..n])))
    then Greedy(pending, n + 1, slots, maxBytes)
    else n
  }

  function BatchCount(pending: seq<Packet>, slots: nat, maxBytes: nat): (count: nat)
    ensures count <= |pending| && count <= slots
  {
    if slots == 0 || maxBytes == 0 then 0 else Greedy(pending, 0, slots, maxBytes)
  }

  /** A first part of the queue that one batch may carry: within both limits, or a lone oversized packet. */
  ghost predicate Fits(pending: seq<Packet>, k: nat, slots: nat, maxBytes: nat)
  {
    k <= |pending| && k <= slots && (k <= 1 || Total(pending[..k]) <= maxBytes)
  }

  lemma {:induction false} TotalMonotone(pending: seq<Packet>, j: nat, k: nat)
    requires j <= k <= |pending|
    ensures Total(pending[..j]) <= Total(pending[..k])
  {
    assert pending[..k] == pending[..j] + pending[j..k];
    TotalAppend(pending[..j], pending[j..k]);
  }

  lemma {:induction false} GreedyIsLongest(pending: seq<Packet>, n: nat, slots: nat, maxBytes: nat, k: nat)
    requires maxBytes > 0 && Fits(pending, n, slots, maxBytes)
    requires forall p :: p in pending ==> p != []
    ensures Fits(pending, Greedy(pending, n, slots, maxBytes), slots, maxBytes)
    ensures Fits(pending, k, slots, maxBytes) ==> k <= Greedy(pending, n, slots, maxBytes)
    decreases |pending| - n
  {
    if n < slots && n < |pending| {
      assert pending[..n + 1][..n] == pending[..n];
      assert Total(pending[..n + 1]) == Total(pending[..n]) + |pending[n]|;
      if Greedy(pending, n, slots, maxBytes) == n {
        assert pending[n] in pending;
        if n < k <= |pending| {
          TotalMonotone(pending, n + 1, k);
        }
      } else {
        GreedyIsLongest(pending, n + 1, slots, maxBytes, k);
      }
    }
  }

  /** A batch is the longest first part of the queue that fits, so it is empty only if the queue is, or a limit is zero. */
  lemma BatchIsLongest(pending: seq<Packet>, slots: nat, maxBytes: nat, k: nat)
    requires forall p :: p in pending ==> p != []
    ensures var n := BatchCount(pending, slots, maxBytes);
            && Fits(pending, n, slots, maxBytes)
            && (maxBytes > 0 && Fits(pending, k, slots, maxBytes) ==> k <= n)
            && (n == 0 <==> pending == [] || slots == 0 || maxBytes == 0)
  {
    if slots > 0 && maxBytes > 0 {
      GreedyIsLongest(pending, 0, slots, maxBytes, k);
      GreedyIsLongest(pending, 0, slots, maxBytes, 1);
    }
  }

  /** One turn of the batching loop: whether the next packet still goes in, and the sums if it does. */
  lemma GreedyTurn(pending: seq<Packet>, n: nat, slots: nat, maxBytes: nat)
    requires n < |pending| && n < slots
    ensures var sum := Total(pending[..n]);
            if n != 0 && (sum >= maxBytes || |pending[n]| > maxBytes - sum) then Greedy(pending, n, slots, maxBytes) == n
            else Greedy(pending, n, slots, maxBytes) == Greedy(pending, n + 1, slots, maxBytes)
    ensures Total(pending[..n + 1]) == Total(pending[..n]) + |pending[n]|
    ensures Total(pending[n..]) == |pending[n]| + Total(pending[n + 1..])
  {
    assert pending[..n + 1][..n] == pending[..n];
    TotalCons(pending[n..]);
    assert pending[n..][1..] == pending[n + 1..];
  }

  lemma GreedyEnds(pending: seq<Packet>, n: nat, slots: nat, maxBytes: nat)
    requires n <= |pending| && n <= slots
    ensures n == |pending| || n == slots ==> Greedy(pending, n, slots, maxBytes) == n
  {
  }

  lemma TailStep(a: seq<Packet>, b: seq<Packet>, n: nat)
    requires n < |a| == |b| && a[n..] == b[n..]
    ensures a[n + 1..] == b[n + 1..]
  {
    assert a[n..][1..] == a[n + 1..] && b[n..][1..] == b[n + 1..];
  }

  class OutboundQueue {
    const limit: nat
    var packets: seq<Packet>
    var pendingBytes: nat
    var closed: bool

    /** The byte counter is exact, within the limit, and empty packets never enter. */
    ghost predicate Valid()
      reads this
    {
      && pendingBytes == Total(packets) <= limit
      && (forall p :: p in packets ==> p != [])
      && (closed ==> packets == [])
    }

    constructor (limit: nat)
      ensures Valid() && this.limit == limit && packets == [] && !closed
    {
      this.limit := limit;
      packets := [];
      pendingBytes := 0;
      closed := false;
    }

    method Push(packet: Option<Packet>) returns (r: Result<(), PushError>)
      requires Valid()
      modifies this
      ensures Valid() && closed == old(closed)
      ensures var verdict := PushVerdict(old(packets), closed, limit, packet);
              if verdict.Success? then r == Success(()) && packets == old(packets) + [verdict.value]
              else r == Failure(verdict.error) && packets == old(packets)
    {
      if closed {
        return Failure(Closed);
      }
      if packet.None? || packet.value == [] {
        return Failure(InvalidPacket);
      }
      if |packet.value| > limit {
        return Failure(PacketTooLarge);
      }
      if |packet.value| > limit - pendingBytes {
        return Failure(ByteLimitExceeded);
      }
      packets := packets + [packet.value];
      pendingBytes := pendingBytes + |packet.value|;
      r := Success(());
    }

    method MoveFront(destination: array<Packet>, index: nat)
      requires Valid() && packets != [] && index < destination.Length
      modifies this, destination
      ensures Valid() && closed == old(closed) && packets == old(packets)[1..]
      ensures destination[..index] == old(destination[..index]) && destination[index] == old(packets)[0]
      ensures destination[index + 1..] == old(destination[index + 1..])
    {
      TotalCons(packets);
      var packetBytes := |packets[0]|;
      destination[index] := packets[0];
      packets := packets[1..];
      pendingBytes := pendingBytes - packetBytes;
      assert forall p :: p in packets ==> p in old(packets);
    }

    /** Moves a batch to the front of destination; the rest of destination is unchanged. */
    method PopBatch(destination: array<Packet>, maxBytes: nat) returns (count: nat)
      requires Valid()
      modifies this, destination
      ensures Valid() && closed == old(closed)
      ensures count == BatchCount(old(packets), destination.Length, maxBytes)
      ensures destination[..count] == old(packets)[..count] && packets == old(packets)[count..]
      ensures destination[count..] == old(destination[count..])
    {
      if destination.Length == 0 || maxBytes == 0 {
        assert old(packets)[0..] == old(packets);
        return 0;
      }
      ghost var pending := packets;
      ghost var slots := old(destination[..]);
      assert pending[0..] == pending && Total(pending[..0]) == 0;
      hide Total, Greedy, Valid;
      count := 0;
      var batchBytes := 0;
      while count < destination.Length && packets != []
        invariant Valid() && closed == old(closed)
        invariant count <= destination.Length && count <= |pending|
        invariant packets == pending[count..]
        invariant destination[..count] == pending[..count] && destination[count..] == slots[count..]
        invariant batchBytes == Total(pending[..count])
        invariant Greedy(pending, count, destination.Length, maxBytes)
               == Greedy(pending, 0, destination.Length, maxBytes)
        decreases |packets|
      {
        GreedyTurn(pending, count, destination.Length, maxBytes);
        var packetBytes := |packets[0]|;
        if count != 0 && (batchBytes >= maxBytes || packetBytes > maxBytes - batchBytes) {
          break;
        }
        TailStep(destination[..], slots, count);
        MoveFront(destination, count);
        batchBytes := batchBytes + packetBytes;
        count := count + 1;
        assert destination[..count] == pending[..count - 1] + [pending[count - 1]];
      }
      GreedyEnds(pending, count, destination.Length, maxBytes);
    }

    method Close()
      modifies this
      ensures Valid() && closed && packets == []
    {
      packets := [];
      pendingBytes := 0;
      closed := true;
    }
  }
}
