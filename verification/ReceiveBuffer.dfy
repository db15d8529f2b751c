/** The session's receive buffer: an offset into a growable block that is compacted when it helps. */
module ReceiveBuffer {
  import opened Bytes

  class ReceiveBuffer {
    const limit: nat
    var storage: array<Byte>
    var size: nat
    var readOffset: nat

    ghost predicate Valid()
      reads this
    {
      && readOffset <= size <= storage.Length
      && size - readOffset <= limit
      && (readOffset == size ==> size == 0)
      && storage.Length <= 2 * limit
    }

    /** readable_bytes: what the buffer stands for. */
    function Readable(): (bytes: seq<Byte>)
      requires Valid()
      reads this, storage
      ensures |bytes| == size - readOffset
    {
      storage[readOffset..size]
    }

    constructor (limit: nat, initialCapacity: nat)
      ensures Valid() && fresh(storage) && this.limit == limit
      ensures Readable() == [] && storage.Length == if initialCapacity < limit then initialCapacity else limit
    {
      this.limit := limit;
      storage := new Byte[if initialCapacity < limit then initialCapacity else limit];
      size := 0;
      readOffset := 0;
    }

    /**
     Appends or refuses as a whole. The block is compacted only when it has a consumed part and
     too little room behind it, and grown (to at most the larger of twice its capacity and what is
     needed) only when there is still too little room.
     */
    method Append(bytes: seq<Byte>) returns (ok: bool)
      requires Valid()
      modifies this, storage
      ensures Valid() && (storage == old(storage) || fresh(storage))
      ensures ok <==> old(|Readable()|) + |bytes| <= limit
      ensures ok ==> Readable() == old(Readable()) + bytes
      ensures !ok ==> unchanged(this) && unchanged(storage)
    {
      if |bytes| == 0 {
        assert storage[readOffset..size] == old(storage[readOffset..size]);
        return true;
      }
      if |bytes| > limit - (size - readOffset) {
        return false;
      }
      var unusedTail := storage.Length - size;
      if readOffset != 0 && unusedTail < |bytes| {
        Compact();
      }
      ghost var before := storage[..size];
      Insert(bytes);
      assert storage[readOffset..size] == (before + bytes)[readOffset..];
      assert (before + bytes)[readOffset..] == before[readOffset..] + bytes;
      ok := true;
    }

    /** The vector's insertion at its end. */
    method Insert(bytes: seq<Byte>)
      requires readOffset <= size <= storage.Length <= 2 * limit && size - readOffset + |bytes| <= limit
      requires readOffset != 0 ==> size + |bytes| <= storage.Length
      modifies this, storage
      ensures storage == old(storage) || fresh(storage)
      ensures size == old(size) + |bytes| <= storage.Length <= 2 * limit && readOffset == old(readOffset)
      ensures storage[..size] == old(storage[..size]) + bytes
    {
      if storage.Length - size < |bytes| {
        Grow(size + |bytes|);
      }
      ghost var before := storage[..size];
      ghost var block := storage;
      for i := 0 to |bytes|
        invariant storage == block && size == old(size) && readOffset == old(readOffset)
        invariant storage[..size + i] == before + bytes[..i]
      {
        storage[size + i] := bytes[i];
        assert storage[..size + i + 1] == storage[..size + i] + [bytes[i]];
        assert bytes[..i + 1] == bytes[..i] + [bytes[i]];
      }
      size := size + |bytes|;
    }

    /** The vector's reallocation, with any growth of at most doubling. */
    method Grow(needed: nat)
      requires readOffset <= size <= storage.Length < needed <= limit
      modifies this
      ensures fresh(storage) && needed <= storage.Length <= 2 * limit
      ensures size == old(size) && readOffset == old(readOffset)
      ensures storage[..size] == old(storage[..size])
    {
      var bound := if 2 * storage.Length > needed then 2 * storage.Length else needed;
      var capacity :| needed <= capacity <= bound;
      var larger := new Byte[capacity];
      forall i | 0 <= i < size {
        larger[i] := storage[i];
      }
      storage := larger;
    }

    /** compact: a forward memmove of the readable bytes to the front. */
    method Compact()
      requires readOffset <= size <= storage.Length
      modifies this, storage
      ensures storage == old(storage) && readOffset == 0 && size == old(size - readOffset)
      ensures storage[..size] == old(storage[readOffset..size])
    {
      var readable := size - readOffset;
      for i := 0 to readable
        invariant storage == old(storage) && size == old(size) && readOffset == old(readOffset)
        invariant storage[..i] == old(storage[readOffset..size])[..i]
        invariant storage[i..] == old(storage[..])[i..]
      {
        assert storage[i + readOffset] == old(storage[..])[i..][readOffset];
        storage[i] := storage[i + readOffset];
        assert storage[i + 1..] == old(storage[..])[i + 1..];
      }
      size := readable;
      readOffset := 0;
    }

    /** consume: the caller never consumes more than is readable. */
    method Consume(count: nat)
      requires Valid() && count <= |Readable()|
      modifies this
      ensures Valid() && storage == old(storage)
      ensures Readable() == old(Readable())[count..]
    {
      readOffset := readOffset + count;
      if readOffset == size {
        size := 0;
        readOffset := 0;
      }
    }
  }
}
