/** The metrics ledgers: release-once tokens for posted deliveries and write batches, and the closed-session ring. */
module ServerMetrics {
  import opened Common
  import B = BatchTokens
  import D = DeliveryTokens

  /** A session's posted-delivery gauges and the PendingDelivery objects that account for them. */
  class DeliveryLedger {
    var jobs: int
    var bytes: int
    var abandoned: nat
    var objects: map<nat, Option<nat>>
    ghost var constructed: nat
    ghost var begun: nat

    ghost function View(): D.Ledger
      reads this
    {
      D.Ledger(jobs, bytes, abandoned, objects, constructed, begun)
    }

    constructor ()
      ensures View() == D.INITIAL && D.Accounted(View())
    {
      jobs, bytes, abandoned, constructed, begun := 0, 0, 0, 0, 0;
      objects := map[];
      new;
      D.InitialIsAccounted();
    }

    method Construct(o: nat, size: nat)
      requires D.Accounted(View()) && o !in objects
      modifies this
      ensures View() == D.Next(old(View()), D.Construct(o, size)) && D.Accounted(View())
    {
      D.StepAccounts(View(), D.Construct(o, size));
      jobs := jobs + 1;
      bytes := bytes + size;
      constructed := constructed + 1;
      objects := objects[o := Some(size)];
    }

    /** The move constructor: the reservation changes hands and the gauges do not move. */
    method MoveConstruct(from: nat, to: nat)
      requires D.Accounted(View()) && from in objects && to !in objects
      modifies this`objects
      ensures View() == D.Next(old(View()), D.Move(from, to)) && D.Accounted(View())
    {
      D.StepAccounts(View(), D.Move(from, to));
      var held := objects[from];
      objects := objects[from := None][to := held];
    }

    /** post_released. */
    method Release(size: nat)
      modifies this`jobs, this`bytes
      ensures jobs == old(jobs) - 1 && bytes == old(bytes) - size
    {
      jobs := jobs - 1;
      bytes := bytes - size;
    }

    /** The handler runs: the reservation is released and the object will not release it again. */
    method Begin(o: nat)
      requires D.Accounted(View()) && o in objects
      modifies this
      ensures View() == D.Next(old(View()), D.Begin(o)) && D.Accounted(View())
    {
      D.StepAccounts(View(), D.Begin(o));
      var held := objects[o];
      if held.Some? {
        objects := objects[o := None];
        Release(held.value);
        begun := begun + 1;
      }
    }

    /** Destruction releases what is still held and counts it as abandoned. */
    method Destroy(o: nat)
      requires D.Accounted(View()) && o in objects
      modifies this
      ensures View() == D.Next(old(View()), D.Destroy(o)) && D.Accounted(View())
    {
      D.StepAccounts(View(), D.Destroy(o));
      var held := objects[o];
      objects := objects - {o};
      if held.Some? {
        Release(held.value);
        abandoned := abandoned + 1;
      }
    }
  }

  /**
   The server's batch counters, each session's overwritten in-flight gauge, and the WriteBatch objects, which hold a
   batch until they complete or are destroyed.
   */
  class BatchLedger {
    var started: nat
    var completed: nat
    var failed: nat
    var abandoned: nat
    var requested: nat
    var transferred: nat
    var gauge: map<nat, B.Batch>
    var objects: map<nat, Option<B.Token>>

    function View(): B.Ledger
      reads this
    {
      B.Ledger(started, completed, failed, abandoned, requested, transferred, gauge, objects)
    }

    constructor ()
      ensures View() == B.INITIAL
    {
      started, completed, failed, abandoned, requested, transferred := 0, 0, 0, 0, 0, 0;
      gauge, objects := map[], map[];
    }

    method Construct(o: nat, session: nat, batch: B.Batch)
      requires o !in objects
      modifies this
      ensures View() == B.Next(old(View()), B.Construct(o, session, batch))
    {
      gauge := gauge[session := batch];
      started := started + 1;
      requested := requested + batch.bytes;
      objects := objects[o := Some(B.Token(session, batch))];
    }

    /** Completing an object that holds nothing any more does nothing. */
    method Complete(o: nat, bytes: nat, error: bool)
      requires o in objects
      modifies this
      ensures View() == B.Next(old(View()), B.Complete(o, bytes, error))
    {
      var held := objects[o];
      if held.None? {
        return;
      }
      objects := objects[o := None];
      gauge := gauge[held.value.session := B.ZERO];
      transferred := transferred + bytes;
      completed := completed + 1;
      if error {
        failed := failed + 1;
      }
    }

    /** The destructor, which every object meets, completed or not. */
    method Destroy(o: nat)
      requires o in objects
      modifies this
      ensures View() == B.Next(old(View()), B.Destroy(o))
    {
      var held := objects[o];
      objects := objects - {o};
      if held.Some? {
        gauge := gauge[held.value.session := B.ZERO];
        abandoned := abandoned + 1;
      }
    }
  }

  const CAPACITY: nat := 128

  datatype Snapshot = Snapshot(
    id: nat,
    postedJobs: nat, postedBytes: nat,
    queuedPackets: nat, queuedBytes: nat,
    inflightPackets: nat, inflightBytes: nat,
    postedPeakBytes: nat, queuePeakBytes: nat, inflightPeakBytes: nat)

  /** A SessionMetrics object; it retires itself only if it is the one its id is registered to. */
  datatype SessionObject = SessionObject(id: nat, tracked: bool)

  /** The live session entries, the objects behind them, and the ring of the sessions closed last. */
  class ClosedHistory {
    const ring: array<Snapshot>
    var next: nat
    var count: nat
    var overwritten: nat
    var sessions: map<nat, nat>
    var objects: map<nat, SessionObject>
    ghost var retired: seq<Snapshot>

    /** The ring holds the last retirements in slots by number, and entries and tracked objects refer to each other. */
    ghost predicate Valid()
      reads this, ring
    {
      && ring.Length == CAPACITY
      && count == (if |retired| < CAPACITY then |retired| else CAPACITY)
      && overwritten == |retired| - count
      && next == |retired| % CAPACITY
      && (forall i :: |retired| - count <= i < |retired| ==> ring[i % CAPACITY] == retired[i])
      && Linked(sessions, objects)
    }

    static ghost predicate Linked(sessions: map<nat, nat>, objects: map<nat, SessionObject>)
    {
      && (forall id :: id in sessions ==> sessions[id] in objects && objects[sessions[id]] == SessionObject(id, true))
      && (forall o :: o in objects && objects[o].tracked ==> objects[o].id in sessions && sessions[objects[o].id] == o)
    }

    constructor ()
      ensures Valid() && fresh(ring) && retired == [] && sessions == map[] && objects == map[]
    {
      ring := new Snapshot[CAPACITY](_ => Snapshot(0, 0, 0, 0, 0, 0, 0, 0, 0, 0));
      next, count, overwritten := 0, 0, 0;
      sessions, objects := map[], map[];
      retired := [];
    }

    /**
     The new object o is entered under its id. If the id is taken the object is destroyed again before the error
     leaves create_session, and that neither removes nor retires the session that has the id.
     */
    method CreateSession(o: nat, id: nat, state: Snapshot) returns (created: bool)
      requires Valid() && o !in objects && state.id == id
      modifies this, ring
      ensures Valid() && created == (id !in old(sessions))
      ensures retired == old(retired) && ring[..] == old(ring[..])
      ensures if created then sessions == old(sessions)[id := o] && objects == old(objects)[o := SessionObject(id, true)]
              else sessions == old(sessions) && objects == old(objects)
    {
      objects := objects[o := SessionObject(id, false)];
      if id in sessions {
        DestroySession(o, state);
        assert objects == old(objects);
        return false;
      }
      sessions := sessions[id := o];
      objects := objects[o := SessionObject(id, true)];
      created := true;
    }

    /** The destructor, given the object's last snapshot. */
    method DestroySession(o: nat, state: Snapshot)
      requires Valid() && o in objects && state.id == objects[o].id
      modifies this, ring
      ensures Valid() && objects == old(objects) - {o}
      ensures if old(objects)[o].tracked then retired == old(retired) + [state] && sessions == old(sessions) - {state.id}
              else retired == old(retired) && sessions == old(sessions) && ring[..] == old(ring[..])
    {
      if objects[o].tracked {
        RetireSession(o, state);
      } else {
        objects := objects - {o};
      }
    }

    method RetireSession(o: nat, state: Snapshot)
      requires Valid() && o in objects && objects[o] == SessionObject(state.id, true)
      modifies this, ring
      ensures Valid() && retired == old(retired) + [state]
      ensures sessions == old(sessions) - {state.id} && objects == old(objects) - {o}
    {
      hide Linked;
      SlotsDiffer(|retired|, count);
      Unlink(sessions, objects, o);
      sessions := sessions - {state.id};
      objects := objects - {o};
      ring[next] := state;
      next := (next + 1) % CAPACITY;
      if count < CAPACITY {
        count := count + 1;
      } else {
        overwritten := overwritten + 1;
      }
      retired := retired + [state];
    }

    static lemma Unlink(sessions: map<nat, nat>, objects: map<nat, SessionObject>, o: nat)
      requires Linked(sessions, objects) && o in objects && objects[o].tracked
      ensures Linked(sessions - {objects[o].id}, objects - {o})
    {
    }

    /** The slot being written holds none of the entries that stay. */
    static lemma SlotsDiffer(n: nat, count: nat)
      requires count == if n < CAPACITY then n else CAPACITY
      ensures (n % CAPACITY + 1) % CAPACITY == (n + 1) % CAPACITY
      ensures forall i :: n + 1 - CAPACITY <= i < n && 0 <= i ==> i % CAPACITY != n % CAPACITY
    {
    }

    /** The ring part of snapshot: the sessions closed last, oldest first. */
    method Recent() returns (list: seq<Snapshot>)
      requires Valid()
      ensures list == retired[|retired| - count..]
      ensures |list| == (if |retired| < 128 then |retired| else 128) && overwritten == |retired| - |list|
    {
      list := [];
      var first := (next + CAPACITY - count) % CAPACITY;
      for index := 0 to count
        invariant |list| == index
        invariant forall i :: 0 <= i < index ==> list[i] == retired[|retired| - count + i]
      {
        SlotOf(|retired|, count, index);
        list := list + [ring[(first + index) % CAPACITY]];
      }
    }

    static lemma SlotOf(n: nat, count: nat, index: nat)
      requires count == (if n < CAPACITY then n else CAPACITY) && index < count
      ensures ((n % CAPACITY + CAPACITY - count) % CAPACITY + index) % CAPACITY == (n - count + index) % CAPACITY
    {
      var q, r := n / CAPACITY, n % CAPACITY;
      if n >= CAPACITY {
        ModOfSum(1, r);
        ModOfSum(q - 1, r + index);
      } else {
        ModOfSum(0, n);
        ModOfSum(1, 0);
      }
    }

    static lemma ModOfSum(q: int, r: int)
      ensures (CAPACITY * q + r) % CAPACITY == r % CAPACITY
    {
    }
  }
}
