/** What every session operation keeps about the outbound side: one writer, no lost wake-up, FIFO conservation, bounds. */
module SessionWriter {
  import opened Bytes
  import opened Common
  import opened OutboundQueue
  import opened SessionSteps
  import F = Framing
  import P = PacketCodec
  import R = Room

  ghost predicate Inv(s: Session)
  {
    OneWriter(s) && Conserved(s) && Bounded(s) && Balanced(s)
  }

  /** At most one writer, known to write_in_progress_; a running session with packets waiting has it. */
  ghost predicate OneWriter(s: Session)
  {
    && s.writers == (if s.writeInProgress then 1 else 0)
    && (s.batch != [] ==> s.writeInProgress)
    && (s.queue != [] ==> s.writeInProgress)
    && (s.stopped ==> s.queue == [])
  }

  /** Until stop, every accepted packet is written, in flight or queued, in order; the socket never gets anything else. */
  ghost predicate Conserved(s: Session)
  {
    && (!s.stopped ==> s.accepted == s.written + s.batch + s.queue)
    && s.written + s.batch <= s.accepted
    && (!s.stopped || s.batch != [] ==> s.wire == Flatten(s.written))
    && s.wire <= Flatten(s.accepted)
  }

  ghost predicate Bounded(s: Session)
  {
    && Total(s.queue) <= OUTBOUND_LIMIT
    && |s.batch| <= BATCH_PACKETS
    && (|s.batch| <= 1 || Total(s.batch) <= BATCH_BYTES)
    && (forall p :: p in s.accepted ==> F.WellFormed(p))
  }

  /** One attempted Leave for every accepted Join, but for the one of a session that is still joined. */
  ghost predicate Balanced(s: Session)
  {
    s.joins == s.leaves + if s.joined then 1 else 0
  }

  lemma WellFormedSize(p: Packet)
    requires F.WellFormed(p)
    ensures 0 < |p| <= P.MAX_PACKET
  {
  }

  lemma FlattenPrefix(a: seq<Packet>, b: seq<Packet>)
    requires a <= b
    ensures Flatten(a) <= Flatten(b)
  {
  }

  lemma StopKeepsInv(s: Session, reason: R.Reason)
    requires Inv(s)
    ensures Inv(Stop(s, reason).session)
  {
  }

  lemma EnqueueKeepsInv(s: Session, packet: Packet)
    requires Inv(s) && F.WellFormed(packet)
    ensures Inv(Enqueue(s, packet).0.session)
  {
    StopKeepsInv(s, R.OutboundOverflow);
    StopKeepsInv(s, R.IoError);
    if Enqueue(s, packet).1 {
      PushKeepsInv(s, packet, Enqueue(s, packet).0.session);
    }
  }

  lemma PushKeepsInv(s: Session, packet: Packet, s': Session)
    requires Inv(s) && F.WellFormed(packet) && !s.stopped && Total(s.queue) + |packet| <= OUTBOUND_LIMIT
    requires s' == s.(queue := s.queue + [packet], accepted := s.accepted + [packet], writeInProgress := true,
                      writers := 1)
    ensures Inv(s')
  {
    assert Conserved(s') by {
      AppendConserves(s.accepted, s.written + s.batch, s.queue, packet);
      FlattenPrefix(s.accepted, s'.accepted);
    }
    assert Bounded(s') by {
      assert s'.queue[..|s.queue|] == s.queue;
    }
  }

  lemma AppendConserves(accepted: seq<Packet>, sent: seq<Packet>, queue: seq<Packet>, packet: Packet)
    requires accepted == sent + queue
    ensures accepted + [packet] == sent + (queue + [packet])
    ensures sent <= accepted + [packet] && accepted <= accepted + [packet]
  {
  }

  lemma WriterTurnKeepsInv(s: Session)
    requires Inv(s) && s.writers > 0 && s.batch == []
    ensures Inv(WriterTurn(s))
  {
    var count := BatchCount(s.queue, BATCH_PACKETS, BATCH_BYTES);
    QueuedAreNonempty(s);
    BatchIsLongest(s.queue, BATCH_PACKETS, BATCH_BYTES, 0);
    if !s.stopped && count > 0 {
      TakeBatchKeepsInv(s, count);
    }
  }

  lemma TakeBatchKeepsInv(s: Session, count: nat)
    requires Inv(s) && s.writers > 0 && s.batch == [] && !s.stopped
    requires count > 0 && Fits(s.queue, count, BATCH_PACKETS, BATCH_BYTES)
    ensures Inv(s.(batch := s.queue[..count], queue := s.queue[count..]))
  {
    hide Total, Flatten, F.WellFormed, Balanced;
    var batch, rest := s.queue[..count], s.queue[count..];
    SplitConserves(s.written, s.queue, count);
    TotalAppend(batch, rest);
    Rebalance(s, s.(batch := batch, queue := rest));
  }

  lemma SplitConserves(written: seq<Packet>, queue: seq<Packet>, count: nat)
    requires count <= |queue|
    ensures queue[..count] + queue[count..] == queue
    ensures written + [] + queue == written + queue[..count] + queue[count..]
  {
  }

  lemma Rebalance(s: Session, s': Session)
    requires Balanced(s) && s'.joined == s.joined && s'.joins == s.joins && s'.leaves == s.leaves
    ensures Balanced(s')
  {
  }

  lemma QueuedAreNonempty(s: Session)
    requires Conserved(s) && Bounded(s) && OneWriter(s)
    ensures forall p :: p in s.queue ==> p != [] && F.WellFormed(p)
  {
    forall p | p in s.queue
      ensures p != [] && F.WellFormed(p)
    {
      assert p in s.accepted;
      WellFormedSize(p);
    }
  }

  lemma AfterWriteKeepsInv(s: Session, transferred: nat)
    requires Inv(s) && s.batch != [] && s.writers > 0 && transferred <= |Flatten(s.batch)|
    ensures Inv(Transferred(s, transferred, false))
  {
    var s' := Transferred(s, transferred, false);
    FlattenAppend(s.written, s.batch);
    FlattenPrefix(s'.written, s.accepted);
    assert s'.written + s'.batch == s.written + s.batch;
    assert s.written + s.batch + s.queue == s'.written + s'.batch + s'.queue;
  }

  lemma FailureKeepsInv(s: Session, transferred: nat)
    requires Inv(s) && s.batch != [] && s.writers > 0 && transferred <= |Flatten(s.batch)|
    ensures Inv(Stop(Transferred(s, transferred, true), R.IoError).session)
  {
    var f := Transferred(s, transferred, true);
    FlattenAppend(s.written, s.batch);
    FlattenPrefix(s.written + s.batch, s.accepted);
    assert f.wire <= Flatten(s.written + s.batch);
    assert f.written + f.batch <= s.written + s.batch;
  }

  lemma WriteCompletedKeepsInv(s: Session, transferred: nat, failed: bool)
    requires Inv(s) && s.batch != [] && transferred <= |Flatten(s.batch)|
    ensures Inv(WriteCompleted(s, transferred, failed).session)
  {
    if failed {
      FailureKeepsInv(s, transferred);
    } else {
      AfterWriteKeepsInv(s, transferred);
      WriterTurnKeepsInv(Transferred(s, transferred, false));
    }
  }

  lemma ReadKeepsInv(s: Session, bytes: seq<Byte>, error: ReadError)
    requires Inv(s)
    ensures Inv(Received(s, bytes).0.session) && Inv(ReadFailed(s, error).session)
  {
    hide Inv, Stop;
    UnfoldBalance(s);
    OtherFields(s, WithMore(s, bytes));
    StopKeepsInv(s, R.ProtocolError);
    StopKeepsInv(s, R.ClientClosed);
    StopKeepsInv(s, R.IoError);
  }

  /** The two differ at most in their inbound side and in the Room flag and its history. */
  ghost predicate SameOutbound(s: Session, s': Session)
  {
    && s'.queue == s.queue && s'.batch == s.batch && s'.writers == s.writers
    && s'.writeInProgress == s.writeInProgress && s'.stopped == s.stopped
    && s'.accepted == s.accepted && s'.written == s.written && s'.wire == s.wire
  }

  lemma OtherFields(s: Session, s': Session)
    requires Inv(s) && SameOutbound(s, s') && Balanced(s')
    ensures Inv(s')
  {
  }

  lemma UnfoldBalance(s: Session)
    requires Inv(s)
    ensures Balanced(s)
  {
  }

  lemma HandleKeepsInv(s: Session, view: P.PacketView, open: bool)
    requires Inv(s) && view.consumed <= |s.inbox| && |view.payload| <= P.MAX_PAYLOAD
    ensures Inv(HandlePacket(s, view, open).0.session)
  {
    hide Inv, Stop, Enqueue, P.Packet, P.MAX_PAYLOAD;
    UnfoldBalance(s);
    StopKeepsInv(s, R.ProtocolError);
    StopKeepsInv(s, R.ServerShutdown);
    var s' := HandlePacket(s, view, open).0.session;
    if view.packetType.Ping? {
      OtherFields(s, Consume(s, view));
      PacketIsWellFormed(P.Ping, view.payload);
      EnqueueKeepsInv(Consume(s, view), P.Packet(P.Ping, view.payload));
    } else if HandlePacket(s, view, open).1.More? {
      OtherFields(s, s');
    }
  }

  lemma PacketIsWellFormed(t: P.PacketType, payload: seq<Byte>)
    requires |payload| <= P.MAX_PAYLOAD
    ensures F.WellFormed(P.Packet(t, payload))
    ensures P.DecodeOne(P.Packet(t, payload)) == Success(P.PacketView(t, payload, |P.Packet(t, payload)|))
  {
    P.DecodeOfPacket(t, payload, []);
    assert P.Packet(t, payload) + [] == P.Packet(t, payload);
  }

  lemma ProcessKeepsInv(s: Session, open: bool)
    requires Inv(s)
    ensures Inv(ProcessOne(s, open).0.session)
  {
    StopKeepsInv(s, R.ProtocolError);
    if s.inbox != [] && P.DecodeOne(s.inbox).Success? {
      P.PacketOfDecode(s.inbox);
      HandleKeepsInv(s, P.DecodeOne(s.inbox).value, open);
    }
  }

  /** Queued and in-flight bytes together stay below the configured queue limit plus one maximal packet. */
  lemma OutboundBound(s: Session)
    requires Inv(s)
    ensures Total(s.queue) + Total(s.batch) <= 262144 + 65542
    ensures |Flatten(s.queue)| + |Flatten(s.batch)| <= 262144 + 65542
  {
    if |s.batch| == 1 {
      assert s.batch[0] in s.written + s.batch;
      assert s.batch[0] in s.accepted;
      WellFormedSize(s.batch[0]);
      TotalCons(s.batch);
    }
    TotalIsFlattenedSize(s.queue);
    TotalIsFlattenedSize(s.batch);
  }

  /** For the packets a session handles, the only push error it can meet while running is the byte limit. */
  lemma OnlyByteLimitFails(s: Session, packet: Packet)
    requires Inv(s) && !s.stopped && F.WellFormed(packet)
    ensures PushVerdict(s.queue, s.stopped, OUTBOUND_LIMIT, Some(packet)) ==
            if Total(s.queue) + |packet| <= OUTBOUND_LIMIT then Success(packet) else Failure(ByteLimitExceeded)
  {
    WellFormedSize(packet);
  }

  /** What has been written or is being written is a first part of the accepted packets. */
  lemma OnTheWireIsAccepted(s: Session)
    requires Inv(s)
    ensures s.wire + Flatten(s.batch) <= Flatten(s.accepted)
  {
    if s.batch == [] {
      assert s.wire + [] == s.wire;
    } else {
      FlattenAppend(s.written, s.batch);
      FlattenPrefix(s.written + s.batch, s.accepted);
    }
  }

  /** The writer's next turn when nothing new is pushed: its first fetch, or its write completing in full. */
  function Turn(s: Session): Session
    requires s.writers > 0
  {
    if s.batch == [] then WriterTurn(s) else WriteCompleted(s, 0, false).session
  }

  function AfterTurns(s: Session, n: nat): Session
    decreases n
  {
    if n == 0 || s.writers == 0 then s else AfterTurns(Turn(s), n - 1)
  }

  /** A turn keeps everything accepted and leaves less to fetch or to write. */
  lemma TurnProgress(s: Session)
    requires Inv(s) && !s.stopped && s.writers > 0
    ensures var s' := Turn(s);
            && Inv(s') && !s'.stopped && s'.accepted == s.accepted
            && (if s.queue == [] then s'.writers == 0 && s'.batch == [] && s'.queue == []
                else s'.writers > 0 && s'.batch != [] && |s'.queue| < |s.queue|)
  {
    hide Conserved, Bounded, Balanced;
    if s.batch == [] {
      FetchProgress(s);
    } else {
      AfterWriteKeepsInv(s, 0);
      FetchProgress(Transferred(s, 0, false));
    }
  }

  lemma FetchProgress(s: Session)
    requires Inv(s) && !s.stopped && s.writers > 0 && s.batch == []
    ensures var s' := WriterTurn(s);
            && Inv(s') && !s'.stopped && s'.accepted == s.accepted
            && (if s.queue == [] then s'.writers == 0 && s'.batch == [] && s'.queue == []
                else s'.writers > 0 && s'.batch != [] && |s'.queue| < |s.queue|)
  {
    hide Fits;
    WriterTurnKeepsInv(s);
    QueuedAreNonempty(s);
    BatchIsLongest(s.queue, BATCH_PACKETS, BATCH_BYTES, 0);
  }

  /**
   With no new pushes the writer, just spawned or in the middle of a write, sends everything it was given, in order,
   in at most one turn per queued packet and one more, and ends.
   */
  lemma {:induction false} WriterDrains(s: Session)
    requires Inv(s) && !s.stopped && s.writers > 0
    ensures var s' := AfterTurns(s, |s.queue| + 1);
            && s'.writers == 0 && !s'.writeInProgress && s'.queue == [] && s'.batch == []
            && s'.accepted == s.accepted && s'.written == s.accepted && s'.wire == Flatten(s.accepted)
    decreases |s.queue|
  {
    TurnProgress(s);
    var next := Turn(s);
    if s.queue == [] {
      assert next.written + next.batch + next.queue == next.written;
      assert AfterTurns(next, 0) == next;
    } else {
      WriterDrains(next);
      hide Turn, Inv;
      MoreTurnsChangeNothing(next, |next.queue| + 1, |s.queue|);
    }
  }

  lemma {:induction false} MoreTurnsChangeNothing(s: Session, n: nat, m: nat)
    requires n <= m && AfterTurns(s, n).writers == 0
    ensures AfterTurns(s, m) == AfterTurns(s, n)
    decreases n
  {
    hide Turn;
    if s.writers != 0 && n > 0 {
      MoreTurnsChangeNothing(Turn(s), n - 1, m - 1);
    }
  }
}
