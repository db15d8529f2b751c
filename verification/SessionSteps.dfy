/**
 One session as values: what each stretch of session code between two suspension points does to the
 session's fields and which Room commands it tries to submit.
 */
module SessionSteps {
  import opened Bytes
  import opened Common
  import opened OutboundQueue
  import P = PacketCodec
  import G = GameplayPayload
  import R = Room

  const READ_CHUNK: nat := 0x1000
  const BUFFER_LIMIT: nat := P.HEADER_SIZE + P.MAX_PAYLOAD + READ_CHUNK
  const OUTBOUND_LIMIT: nat := 0x4_0000
  const BATCH_PACKETS: nat := 64
  const BATCH_BYTES: nat := 0x1_0000

  /**
   inbox is the readable part of the receive buffer, queue the outbound queue (closed exactly when
   stopped), batch the packets of the write in flight and writers the writer coroutines alive.
   The rest is history: packets the queue took, packets whose write completed, bytes whose write completed,
   accepted Joins, attempted Leaves, bytes taken from the socket and packets taken out of them.
   */
  datatype Session = Session(
    id: R.SessionId,
    inbox: seq<Byte>,
    queue: seq<Packet>,
    batch: seq<Packet>,
    writers: nat,
    joined: bool,
    writeInProgress: bool,
    stopped: bool,
    accepted: seq<Packet>,
    written: seq<Packet>,
    wire: seq<Byte>,
    joins: nat,
    leaves: nat,
    received: seq<Byte>,
    handled: seq<P.PacketView>)

  function NewSession(id: R.SessionId): Session
  {
    Session(id, [], [], [], 0, false, false, false, [], [], [], 0, 0, [], [])
  }

  /** The session afterwards and the commands it tried to submit; they are accepted while the queue is open. */
  datatype Out = Out(session: Session, attempted: seq<R.Command>)

  function LeaveIfJoined(s: Session, reason: R.Reason): Out
  {
    if !s.joined then Out(s, [])
    else Out(s.(joined := false, leaves := s.leaves + 1), [R.Leave(s.id, reason)])
  }

  function Stop(s: Session, reason: R.Reason): Out
  {
    if s.stopped then Out(s, [])
    else
      var left := LeaveIfJoined(s.(stopped := true), reason);
      left.(session := left.session.(queue := []))
  }

  /** enqueue_outbound; a first packet spawns the writer. */
  function Enqueue(s: Session, packet: Packet): (Out, bool)
  {
    if s.stopped then (Out(s, []), false)
    else
      match PushVerdict(s.queue, false, OUTBOUND_LIMIT, Some(packet))
      case Failure(ByteLimitExceeded) => (Stop(s, R.OutboundOverflow), false)
      case Failure(_) => (Stop(s, R.IoError), false)
      case Success(p) =>
        (Out(s.(queue := s.queue + [p], accepted := s.accepted + [p], writeInProgress := true,
                writers := s.writers + if s.writeInProgress then 0 else 1), []), true)
  }

  /** Enqueueing accepts the packet or leaves the session stopped, and touches nothing else that these name. */
  lemma EnqueueFields(s: Session, packet: Packet)
    ensures var s' := Enqueue(s, packet).0.session;
            && s'.received == s.received && s'.handled == s.handled && s'.inbox == s.inbox && s'.batch == s.batch
            && (s.stopped ==> s'.stopped)
            && s'.accepted == if s'.stopped then s.accepted else s.accepted + [packet]
  {
  }

  /** The writer loop from its head to its next asynchronous write or its end. */
  function WriterTurn(s: Session): Session
    requires s.writers > 0
  {
    var count := BatchCount(s.queue, BATCH_PACKETS, BATCH_BYTES);
    if s.stopped || count == 0 then s.(writeInProgress := false, writers := s.writers - 1)
    else s.(batch := s.queue[..count], queue := s.queue[count..])
  }

  /** The completion of the write in flight: all of it, or a first part of it and an error. */
  function WriteCompleted(s: Session, transferred: nat, failed: bool): Out
    requires s.writers > 0 && transferred <= |Flatten(s.batch)|
  {
    var s' := Transferred(s, transferred, failed);
    if failed then Stop(s', R.IoError) else Out(WriterTurn(s'), [])
  }

  /** What the write did, before the writer goes on or the session is stopped for its failure. */
  function Transferred(s: Session, transferred: nat, failed: bool): (s': Session)
    requires s.writers > 0 && transferred <= |Flatten(s.batch)|
  {
    if failed then
      s.(batch := [], wire := s.wire + Flatten(s.batch)[..transferred], writeInProgress := false,
         writers := s.writers - 1)
    else s.(batch := [], wire := s.wire + Flatten(s.batch), written := s.written + s.batch)
  }

  function WithMore(s: Session, more: seq<Byte>): Session
  {
    s.(inbox := s.inbox + more, received := s.received + more)
  }

  /** A successful read; false when the receive buffer refuses it. */
  function Received(s: Session, bytes: seq<Byte>): (Out, bool)
  {
    if |bytes| > 0 && |bytes| > BUFFER_LIMIT - |s.inbox| then (Stop(s, R.ProtocolError), false)
    else (Out(WithMore(s, bytes), []), true)
  }

  /** Eof stands for the end of the stream and for a connection reset. */
  datatype ReadError = Eof | Aborted | Other

  /** A failed read ends run(); an abort of a session that is already stopped does nothing more. */
  function ReadFailed(s: Session, error: ReadError): Out
  {
    if error.Eof? then Stop(s, R.ClientClosed)
    else if error.Aborted? && s.stopped then Out(s, [])
    else Stop(s, R.IoError)
  }

  /** More packets may follow, or the pass is over and run() goes on reading or returns. */
  datatype Verdict = More | Done(go: bool)

  function Consume(s: Session, view: P.PacketView): Session
    requires view.consumed <= |s.inbox|
  {
    s.(inbox := s.inbox[view.consumed..], handled := s.handled + [view])
  }

  function Reject(s: Session): (Out, Verdict)
  {
    (Stop(s, R.ProtocolError), Done(false))
  }

  /** One turn of the packet loop; open says whether the command queue takes submissions. */
  function ProcessOne(s: Session, open: bool): (r: (Out, Verdict))
    ensures r.1.More? ==> |r.0.session.inbox| < |s.inbox|
  {
    if s.inbox == [] then (Out(s, []), Done(true))
    else
      match P.DecodeOne(s.inbox)
      case Failure(e) => if P.IsIncomplete(e) then (Out(s, []), Done(true)) else Reject(s)
      case Success(view) => HandlePacket(s, view, open)
  }

  function HandlePacket(s: Session, view: P.PacketView, open: bool): (r: (Out, Verdict))
    requires view.consumed <= |s.inbox|
    ensures r.1.More? ==> r.0.session.inbox == s.inbox[view.consumed..]
  {
    match view.packetType
    case Ping =>
      var (out, ok) := Enqueue(Consume(s, view), P.Packet(P.Ping, view.payload));
      (out, if ok then More else Done(false))
    case JoinRoom =>
      if view.payload != [] || s.joined then Reject(s)
      else
        var join := R.Join(s.id);
        if open then (Out(Consume(s, view).(joined := true, joins := s.joins + 1), [join]), More)
        else
          var stop := Stop(s, R.ServerShutdown);
          (stop.(attempted := [join] + stop.attempted), Done(false))
    case Move =>
      if !s.joined || G.DecodeMove(view.payload).Failure? then Reject(s)
      else
        var move := R.Move(s.id, G.DecodeMove(view.payload).value);
        if open then (Out(Consume(s, view), [move]), More)
        else
          var stop := Stop(s, R.ServerShutdown);
          (stop.(attempted := [move] + stop.attempted), Done(false))
    case LeaveRoom =>
      if view.payload != [] || !s.joined then Reject(s)
      else
        var left := LeaveIfJoined(s, R.LeftRoom);
        (left.(session := Consume(left.session, view)), More)
    case _ => Reject(s)
  }

  // The membership side of every operation.

  /** The joined flag and the command agree: what the flag becomes is what the accepted command does. */
  ghost predicate Tracks(s: Session, out: Out, open: bool)
  {
    && out.session.id == s.id
    && (if open then
          || (out.attempted == [] && out.session.joined == s.joined)
          || (|out.attempted| == 1 && out.attempted[0].id == s.id &&
              match out.attempted[0]
              case Join(_) => !s.joined && out.session.joined
              case Move(_, _) => s.joined && out.session.joined
              case Leave(_, _) => s.joined && !out.session.joined)
        else out.session.joined ==> s.joined)
  }

  lemma StopTracks(s: Session, reason: R.Reason, open: bool)
    ensures Tracks(s, Stop(s, reason), open)
  {
  }

  lemma HandleTracks(s: Session, view: P.PacketView, open: bool)
    requires view.consumed <= |s.inbox|
    ensures Tracks(s, HandlePacket(s, view, open).0, open)
  {
    StopTracks(s, R.ProtocolError, open);
    StopTracks(s, R.ServerShutdown, open);
    if view.packetType.Ping? {
      EnqueueTracks(Consume(s, view), P.Packet(P.Ping, view.payload), open);
    }
  }

  lemma ProcessTracks(s: Session, open: bool)
    ensures Tracks(s, ProcessOne(s, open).0, open)
  {
    hide HandlePacket;
    StopTracks(s, R.ProtocolError, open);
    if s.inbox != [] && P.DecodeOne(s.inbox).Success? {
      HandleTracks(s, P.DecodeOne(s.inbox).value, open);
    }
  }

  lemma EnqueueTracks(s: Session, packet: Packet, open: bool)
    ensures Tracks(s, Enqueue(s, packet).0, open)
  {
  }

  lemma ReadTracks(s: Session, bytes: seq<Byte>, error: ReadError, open: bool)
    ensures Tracks(s, Received(s, bytes).0, open) && Tracks(s, ReadFailed(s, error), open)
  {
  }

  lemma WriteTracks(s: Session, transferred: nat, failed: bool, open: bool)
    requires s.writers > 0 && transferred <= |Flatten(s.batch)|
    ensures Tracks(s, WriteCompleted(s, transferred, failed), open)
  {
  }

  lemma HandleStops(s: Session, view: P.PacketView, open: bool)
    requires view.consumed <= |s.inbox|
    ensures HandlePacket(s, view, open).1.Done? ==>
              HandlePacket(s, view, open).1 == Done(false) && HandlePacket(s, view, open).0.session.stopped
  {
  }

  /** A pass that does not go on has stopped the session: run() returns only stopped. */
  lemma RunReturnsStopped(s: Session, open: bool, bytes: seq<Byte>, error: ReadError)
    ensures ProcessOne(s, open).1 == Done(false) ==> ProcessOne(s, open).0.session.stopped
    ensures !Received(s, bytes).1 ==> Received(s, bytes).0.session.stopped
    ensures ReadFailed(s, error).session.stopped
  {
    hide HandlePacket;
    if s.inbox != [] && P.DecodeOne(s.inbox).Success? {
      HandleStops(s, P.DecodeOne(s.inbox).value, open);
    }
  }

  // The whole pass over the buffered bytes.

  datatype Pass = Pass(session: Session, attempted: seq<R.Command>, go: bool)

  function RunPass(s: Session, open: bool): Pass
    decreases |s.inbox|
  {
    var (out, verdict) := ProcessOne(s, open);
    match verdict
    case Done(go) => Pass(out.session, out.attempted, go)
    case More =>
      var rest := RunPass(out.session, open);
      rest.(attempted := out.attempted + rest.attempted)
  }

  /**
   A pass during which another thread may close the command queue: the first n turns find it open. attempted holds
   the commands the queue took.
   */
  function PassUntil(s: Session, n: nat): Pass
    decreases |s.inbox|
  {
    var (out, verdict) := ProcessOne(s, n > 0);
    var taken := if n > 0 then out.attempted else [];
    match verdict
    case Done(go) => Pass(out.session, taken, go)
    case More =>
      var rest := PassUntil(out.session, if n > 0 then n - 1 else 0);
      rest.(attempted := taken + rest.attempted)
  }

  /** If nobody closes the queue meanwhile, that is the pass on an open or on a closed queue. */
  lemma {:induction false} PassUntilIsPass(s: Session, n: nat)
    ensures n == 0 ==> PassUntil(s, n) == RunPass(s, false).(attempted := [])
    ensures n > |s.inbox| ==> PassUntil(s, n) == RunPass(s, true)
    decreases |s.inbox|
  {
    hide ProcessOne;
    var (out, verdict) := ProcessOne(s, n > 0);
    if verdict.More? {
      PassUntilIsPass(out.session, if n > 0 then n - 1 else 0);
    }
  }

  /** Having found the queue open some times, taken some commands and reached s, the pass is what is left of it. */
  ghost predicate Continues(start: Session, open: nat, taken: seq<R.Command>, s: Session, left: nat)
  {
    var rest := PassUntil(s, left);
    PassUntil(start, open + left) == rest.(attempted := taken + rest.attempted)
  }

  lemma ContinueTurn(start: Session, open: nat, taken: seq<R.Command>, s: Session, left: nat)
    requires Continues(start, open, taken, s, left)
    ensures var (out, verdict) := ProcessOne(s, left > 0);
            var more := taken + if left > 0 then out.attempted else [];
            if verdict.Done? then PassUntil(start, open + left) == Pass(out.session, more, verdict.go)
            else if left > 0 then Continues(start, open + 1, more, out.session, left - 1)
            else Continues(start, open, more, out.session, 0)
  {
    hide ProcessOne;
    var (out, verdict) := ProcessOne(s, left > 0);
    if verdict.More? {
      var now := if left > 0 then out.attempted else [];
      var rest := PassUntil(out.session, if left > 0 then left - 1 else 0);
      assert taken + (now + rest.attempted) == (taken + now) + rest.attempted;
    }
  }

  /** From s on, whatever other threads do to the queue, the pass is what is left of it. */
  ghost predicate OnCourse(start: Session, open: nat, allOpen: bool, taken: seq<R.Command>, s: Session)
  {
    if allOpen then forall left: nat :: Continues(start, open, taken, s, left) else Continues(start, open, taken, s, 0)
  }

  lemma StartsOnCourse(s: Session)
    ensures OnCourse(s, 0, true, [], s)
  {
    forall left: nat
      ensures Continues(s, 0, [], s, left)
    {
      var rest := PassUntil(s, left);
      assert [] + rest.attempted == rest.attempted;
    }
  }

  lemma CourseTurn(start: Session, open: nat, allOpen: bool, taken: seq<R.Command>, s: Session, now: bool)
    requires OnCourse(start, open, allOpen, taken, s) && (!allOpen ==> !now)
    ensures var (out, verdict) := ProcessOne(s, now);
            var open', more := if now then open + 1 else open, taken + if now then out.attempted else [];
            if verdict.More? then OnCourse(start, open', allOpen && now, more, out.session)
            else
              && PassUntil(start, open') == Pass(out.session, more, verdict.go)
              && (now ==> RunPass(start, true) == Pass(out.session, more, verdict.go))
  {
    hide ProcessOne, PassUntil, RunPass, Continues;
    var (out, verdict) := ProcessOne(s, now);
    if now {
      assert Continues(start, open, taken, s, 1);
      ContinueTurn(start, open, taken, s, 1);
      var many := |start.inbox| + 1;
      assert Continues(start, open, taken, s, many);
      ContinueTurn(start, open, taken, s, many);
      PassUntilIsPass(start, open + many);
      var open', more := open + 1, taken + out.attempted;
      forall left: nat | verdict.More?
        ensures Continues(start, open', more, out.session, left)
      {
        assert Continues(start, open, taken, s, left + 1);
        ContinueTurn(start, open, taken, s, left + 1);
      }
    } else {
      assert Continues(start, open, taken, s, 0);
      ContinueTurn(start, open, taken, s, 0);
    }
  }

  function OutWithMore(out: Out, more: seq<Byte>): Out
  {
    out.(session := WithMore(out.session, more))
  }

  lemma StopExtends(s: Session, reason: R.Reason, more: seq<Byte>)
    ensures Stop(WithMore(s, more), reason) == OutWithMore(Stop(s, reason), more)
  {
  }

  lemma LeaveExtends(s: Session, reason: R.Reason, view: P.PacketView, more: seq<Byte>)
    requires view.consumed <= |s.inbox|
    ensures LeaveIfJoined(s, reason).session.inbox == s.inbox
    ensures var left, left' := LeaveIfJoined(s, reason), LeaveIfJoined(WithMore(s, more), reason);
            left'.attempted == left.attempted && left'.session == WithMore(left.session, more) &&
            Consume(left'.session, view) == WithMore(Consume(left.session, view), more)
  {
    assert (s.inbox + more)[view.consumed..] == s.inbox[view.consumed..] + more;
  }

  lemma EnqueueExtends(s: Session, packet: Packet, more: seq<Byte>)
    ensures Enqueue(WithMore(s, more), packet).0 == OutWithMore(Enqueue(s, packet).0, more)
    ensures Enqueue(WithMore(s, more), packet).1 == Enqueue(s, packet).1
  {
    StopExtends(s, R.OutboundOverflow, more);
    StopExtends(s, R.IoError, more);
  }

  /** What a decoded packet does depends only on the packet, not on the bytes behind it. */
  lemma HandleExtends(s: Session, view: P.PacketView, open: bool, more: seq<Byte>)
    requires view.consumed <= |s.inbox|
    ensures HandlePacket(WithMore(s, more), view, open).0 == OutWithMore(HandlePacket(s, view, open).0, more)
    ensures HandlePacket(WithMore(s, more), view, open).1 == HandlePacket(s, view, open).1 != Done(true)
  {
    hide Stop, Enqueue, P.Packet, G.DecodeMove, LeaveIfJoined;
    var rest := Consume(s, view);
    assert Consume(WithMore(s, more), view) == WithMore(rest, more) by {
      assert (s.inbox + more)[view.consumed..] == s.inbox[view.consumed..] + more;
    }
    StopExtends(s, R.ProtocolError, more);
    match view.packetType
    case Ping => EnqueueExtends(rest, P.Packet(P.Ping, view.payload), more);
    case JoinRoom => StopExtends(s, R.ServerShutdown, more);
    case Move => StopExtends(s, R.ServerShutdown, more);
    case LeaveRoom => LeaveExtends(s, R.LeftRoom, view, more);
    case _ =>
  }

  /** A turn that is not waiting for bytes does the same when more bytes are already there. */
  lemma ProcessOneExtends(s: Session, open: bool, more: seq<Byte>)
    ensures var (out, verdict) := ProcessOne(s, open);
            if verdict == Done(true) then out == Out(s, [])
            else ProcessOne(WithMore(s, more), open) == (OutWithMore(out, more), verdict)
  {
    hide HandlePacket;
    if s.inbox != [] {
      var r := P.DecodeOne(s.inbox);
      if r.Success? || !P.IsIncomplete(r.error) {
        P.DecodeStable(s.inbox, more);
        if r.Success? {
          HandleExtends(s, r.value, open, more);
        }
      }
    }
  }

  function ExtendPass(p: Pass, open: bool, more: seq<Byte>): Pass
  {
    if !p.go then p.(session := WithMore(p.session, more))
    else
      var rest := RunPass(WithMore(p.session, more), open);
      rest.(attempted := p.attempted + rest.attempted)
  }

  /** Processing bytes as they come is processing them together. */
  lemma {:induction false} PassAppend(s: Session, open: bool, more: seq<Byte>)
    ensures RunPass(WithMore(s, more), open) == ExtendPass(RunPass(s, open), open, more)
    decreases |s.inbox|
  {
    hide ProcessOne;
    var (out, verdict) := ProcessOne(s, open);
    ProcessOneExtends(s, open, more);
    if verdict.More? {
      PassAppend(out.session, open, more);
      var p := RunPass(out.session, open);
      if p.go {
        var rest := RunPass(WithMore(p.session, more), open);
        assert out.attempted + (p.attempted + rest.attempted) == (out.attempted + p.attempted) + rest.attempted;
      }
    } else if verdict.go {
      var rest := RunPass(WithMore(s, more), open);
      assert [] + rest.attempted == rest.attempted;
    }
  }

  lemma WaitingIsShort(s: Session, open: bool)
    requires ProcessOne(s, open).1 == Done(true)
    ensures |s.inbox| < P.MAX_PACKET && ProcessOne(s, open).0 == Out(s, [])
  {
    if s.inbox != [] {
      if P.DecodeOne(s.inbox).Success? {
        HandleStops(s, P.DecodeOne(s.inbox).value, open);
      } else {
        P.IncompleteIsShort(s.inbox);
      }
    }
  }

  lemma {:induction false} PassLeavesLittle(s: Session, open: bool)
    ensures var p := RunPass(s, open);
            p.go ==> |p.session.inbox| < P.MAX_PACKET && RunPass(p.session, open) == Pass(p.session, [], true)
    decreases |s.inbox|
  {
    hide ProcessOne;
    var (out, verdict) := ProcessOne(s, open);
    if verdict.More? {
      PassLeavesLittle(out.session, open);
    } else if verdict.go {
      WaitingIsShort(s, open);
    }
  }

  /** Reads served one after another, a pass after each; the second part is what stays unread. */
  function Serve(s: Session, chunks: seq<seq<Byte>>, open: bool): (Pass, seq<seq<Byte>>)
    decreases |chunks|
  {
    if chunks == [] then (Pass(s, [], true), [])
    else
      var (out, ok) := Received(s, chunks[0]);
      if !ok then (Pass(out.session, out.attempted, false), chunks)
      else
        var p := RunPass(out.session, open);
        if !p.go then (p, chunks[1..])
        else
          var (rest, unread) := Serve(p.session, chunks[1..], open);
          (rest.(attempted := p.attempted + rest.attempted), unread)
  }

  /**
   A session's commands, replies and final state do not depend on how its input was split into reads,
   and reads of at most READ_CHUNK bytes never overflow the receive buffer.
   */
  lemma {:induction false} ServeIsOnePass(s: Session, chunks: seq<seq<Byte>>, open: bool)
    requires RunPass(s, open) == Pass(s, [], true)
    requires forall c :: c in chunks ==> |c| <= READ_CHUNK
    ensures var (p, unread) := Serve(s, chunks, open);
            RunPass(WithMore(s, Flatten(chunks)), open) == p.(session := WithMore(p.session, Flatten(unread)))
    decreases |chunks|
  {
    hide ProcessOne;
    PassLeavesLittle(s, open);
    if chunks == [] {
      assert WithMore(s, []) == s;
    } else {
      var first, others := chunks[0], chunks[1..];
      assert first in chunks;
      assert Received(s, first).1;
      var s1 := WithMore(s, first);
      var p := RunPass(s1, open);
      assert WithMore(s, Flatten(chunks)) == WithMore(s1, Flatten(others));
      PassAppend(s1, open, Flatten(others));
      if p.go {
        PassLeavesLittle(s1, open);
        ServeIsOnePass(p.session, others, open);
      }
    }
  }
}
