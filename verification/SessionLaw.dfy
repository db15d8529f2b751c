/**
 What a session answers to everything that can happen to it, read off the bytes it has buffered, the Room's rule and
 the limits of the configuration: the packet it takes out, the commands it submits, the packets it queues and the
 reason it stops for. Every operation of SessionSteps does exactly that and nothing else.
 */
module SessionLaw {
  import opened Bytes
  import opened Common
  import opened OutboundQueue
  import F = Framing
  import G = GameplayPayload
  import I = SessionInput
  import P = PacketCodec
  import R = Room
  import S = SessionSteps
  import Wire = WireFormat
  import Writer = SessionWriter

  /** What the buffered bytes begin with. */
  datatype Front = Waiting | Invalid | First(view: P.PacketView)

  function FrontOf(inbox: seq<Byte>): Front
  {
    match P.DecodeOne(inbox)
    case Success(view) => First(view)
    case Failure(e) => if P.IsIncomplete(e) then Waiting else Invalid
  }

  lemma FrontFits(inbox: seq<Byte>)
    ensures FrontOf(inbox).First? ==> FrontOf(inbox).view.consumed <= |inbox|
  {
  }

  /** A whole packet, a first part of one, or bytes that no packet begins with. */
  lemma FrontExactly(inbox: seq<Byte>, t: P.PacketType, payload: seq<Byte>)
    ensures FrontOf(inbox) == First(P.PacketView(t, payload, 6 + |payload|)) <==> Wire.Begins(inbox, t, payload)
    ensures FrontOf(inbox).Waiting? <==> |inbox| < 6 || exists t', part :: Wire.Unfinished(inbox, t', part)
  {
    hide P.DecodeOne, Wire.Begins, Wire.Unfinished;
    Wire.SuccessExactly(inbox, t, payload);
    Wire.VerdictByHeader(inbox);
    if |inbox| >= 6 {
      Wire.IncompleteExactly(inbox);
    }
  }

  /** stop is why a running session stops; one that is stopped already stays so. */
  datatype Answer = Answer(
    stop: Option<R.Reason>,
    taken: seq<P.PacketView>,
    commands: seq<R.Command>,
    queued: seq<Packet>)

  const NOTHING := Answer(None, [], [], [])

  function StopFor(reason: R.Reason): Answer
  {
    Answer(Some(reason), [], [], [])
  }

  /** The packet asks for a command, and a Room with these members would accept it. */
  predicate Allowed(members: set<R.SessionId>, id: R.SessionId, view: P.PacketView)
  {
    var asked := I.CommandFor(id, view);
    asked != [] && R.Accepts(members, asked[0])
  }

  /** The answer to one packet, by the sessions that are joined. */
  function PacketAnswer(s: S.Session, view: P.PacketView, members: set<R.SessionId>, open: bool): Answer
  {
    if view.packetType.Ping? then
      if s.stopped then Answer(None, [view], [], [])
      else PushAnswer(s, P.Packet(P.Ping, view.payload)).(taken := [view])
    else if !Allowed(members, s.id, view) then StopFor(R.ProtocolError)
    else if open || view.packetType.LeaveRoom? then Answer(None, [view], I.CommandFor(s.id, view), [])
    else StopFor(R.ServerShutdown)
  }

  /** The answer to a packet to send: the queue holds 262144 bytes. */
  function PushAnswer(s: S.Session, packet: Packet): Answer
  {
    if s.stopped then NOTHING
    else if Total(s.queue) + |packet| > 262144 then StopFor(R.OutboundOverflow)
    else NOTHING.(queued := [packet])
  }

  function TurnAnswer(s: S.Session, members: set<R.SessionId>, open: bool): Answer
  {
    match FrontOf(s.inbox)
    case Waiting => NOTHING
    case Invalid => StopFor(R.ProtocolError)
    case First(view) => PacketAnswer(s, view, members, open)
  }

  /** The answer to bytes read: the receive buffer holds 69638. */
  function ReadAnswer(s: S.Session, bytes: seq<Byte>): Answer
  {
    if bytes != [] && |s.inbox| + |bytes| > 69638 then StopFor(R.ProtocolError) else NOTHING
  }

  function ErrorAnswer(error: S.ReadError): Answer
  {
    StopFor(if error.Eof? then R.ClientClosed else R.IoError)
  }

  /** The answer stops the session now. */
  predicate Stops(s: S.Session, a: Answer)
  {
    !s.stopped && a.stop.Some?
  }

  function Consumed(views: seq<P.PacketView>): nat
  {
    if views == [] then 0 else views[0].consumed + Consumed(views[1..])
  }

  ghost predicate Inbound(s: S.Session, s': S.Session, bytes: seq<Byte>, a: Answer)
  {
    && s'.received == s.received + bytes
    && s'.handled == s.handled + a.taken
    && Consumed(a.taken) <= |s.inbox|
    && s'.inbox == s.inbox[Consumed(a.taken)..] + bytes
  }

  /** What is submitted: the commands asked for, or the Leave of a joined session that stops, with its reason. */
  function Submitted(s: S.Session, a: Answer): seq<R.Command>
  {
    a.commands + if Stops(s, a) && s.joined then [R.Leave(s.id, a.stop.value)] else []
  }

  /** The flag follows the commands, and a stopping session's flag is cleared even if the queue refuses its Leave. */
  ghost predicate Membership(s: S.Session, s': S.Session, a: Answer)
  {
    var all := Submitted(s, a);
    && s'.id == s.id
    && s'.stopped == (s.stopped || a.stop.Some?)
    && |all| <= 1
    && s'.joined == (if all == [] then s.joined else !all[0].Leave?)
    && s'.joins == s.joins + (if all != [] && all[0].Join? then 1 else 0)
    && s'.leaves == s.leaves + (if all != [] && all[0].Leave? then 1 else 0)
  }

  /** Queued packets go to the end; stopping drops what waits; a first packet spawns the writer. */
  ghost predicate Outbound(s: S.Session, s': S.Session, a: Answer)
  {
    && s'.accepted == s.accepted + a.queued
    && s'.queue == (if s'.stopped then [] else s.queue + a.queued)
    && s'.batch == s.batch && s'.written == s.written && s'.wire == s.wire
    && s'.writers == (if a.queued == [] then s.writers else 1)
    && s'.writeInProgress == (s'.writers == 1)
  }

  ghost predicate Follows(s: S.Session, out: S.Out, bytes: seq<Byte>, a: Answer, open: bool)
  {
    && Inbound(s, out.session, bytes, a) && Membership(s, out.session, a) && Outbound(s, out.session, a)
    && (open ==> out.attempted == Submitted(s, a))
  }

  function Own(s: S.Session): set<R.SessionId>
  {
    if s.joined then {s.id} else {}
  }

  /** The rule looks at the session's own membership only. */
  lemma AllowedByOwn(s: S.Session, view: P.PacketView, members: set<R.SessionId>)
    requires s.joined <==> s.id in members
    ensures Allowed(members, s.id, view) <==> Allowed(Own(s), s.id, view)
  {
    hide G.DecodeMove;
  }

  lemma StopFollows(s: S.Session, reason: R.Reason, open: bool)
    requires Writer.OneWriter(s)
    ensures Follows(s, S.Stop(s, reason), [], StopFor(reason), open)
  {
    assert s.inbox[0..] + [] == s.inbox;
  }

  lemma EnqueueFollows(s: S.Session, packet: Packet, open: bool)
    requires Writer.Inv(s) && F.WellFormed(packet)
    ensures Follows(s, S.Enqueue(s, packet).0, [], PushAnswer(s, packet), open)
    ensures S.Enqueue(s, packet).1 <==> !S.Enqueue(s, packet).0.session.stopped
  {
    hide S.Stop, Total, PushVerdict, F.WellFormed, Writer.Conserved, Writer.Bounded, Writer.Balanced;
    StopFollows(s, R.OutboundOverflow, open);
    if !s.stopped {
      Writer.OnlyByteLimitFails(s, packet);
    }
    assert s.inbox[0..] + [] == s.inbox;
  }

  lemma ReadFollows(s: S.Session, bytes: seq<Byte>, open: bool)
    requires Writer.Inv(s)
    ensures var (out, ok) := S.Received(s, bytes);
            && (ok <==> ReadAnswer(s, bytes).stop.None?)
            && Follows(s, out, if ok then bytes else [], ReadAnswer(s, bytes), open)
  {
    hide Writer.Conserved, Writer.Bounded, Writer.Balanced, S.Stop;
    StopFollows(s, R.ProtocolError, open);
  }

  lemma ErrorFollows(s: S.Session, error: S.ReadError, open: bool)
    requires Writer.Inv(s)
    ensures Follows(s, S.ReadFailed(s, error), [], ErrorAnswer(error), open)
  {
    hide Writer.Conserved, Writer.Bounded, Writer.Balanced, Follows, S.Stop;
    StopFollows(s, R.ClientClosed, open);
    StopFollows(s, R.IoError, open);
    if s.stopped {
      StoppedStays(s, R.IoError);
    }
  }

  lemma StoppedStays(s: S.Session, reason: R.Reason)
    requires s.stopped
    ensures S.Stop(s, reason) == S.Out(s, [])
  {
  }

  lemma OneConsumed(view: P.PacketView)
    ensures Consumed([view]) == view.consumed && Consumed([]) == 0
  {
  }

  lemma PingFollows(s: S.Session, view: P.PacketView, open: bool)
    requires Writer.Inv(s) && view.consumed <= |s.inbox| && |view.payload| <= P.MAX_PAYLOAD && view.packetType.Ping?
    ensures var (out, verdict) := S.HandlePacket(s, view, open);
            && Follows(s, out, [], PacketAnswer(s, view, {}, open), open)
            && verdict == if out.session.stopped then S.Done(false) else S.More
  {
    hide S.Enqueue, P.Packet, Total, Writer.Inv, P.MAX_PAYLOAD, F.WellFormed, Follows;
    var c, reply := S.Consume(s, view), P.Packet(P.Ping, view.payload);
    UnfoldInv(s);
    Writer.OtherFields(s, c);
    Writer.PacketIsWellFormed(P.Ping, view.payload);
    EnqueueFollows(c, reply, open);
    AfterConsume(s, view, S.Enqueue(c, reply).0, PushAnswer(c, reply), open);
  }

  lemma AfterConsume(s: S.Session, view: P.PacketView, out: S.Out, a: Answer, open: bool)
    requires view.consumed <= |s.inbox| && a.taken == [] && Follows(S.Consume(s, view), out, [], a, open)
    ensures Follows(s, out, [], a.(taken := [view]), open)
  {
    OneConsumed(view);
    assert s.handled + [view] + [] == s.handled + [view];
    assert s.inbox[view.consumed..][0..] == s.inbox[view.consumed..];
  }

  lemma UnfoldInv(s: S.Session)
    requires Writer.Inv(s)
    ensures Writer.OneWriter(s) && Writer.Balanced(s)
  {
  }

  lemma CommandFollows(s: S.Session, view: P.PacketView, open: bool)
    requires Writer.OneWriter(s) && view.consumed <= |s.inbox| && !view.packetType.Ping?
    ensures var (out, verdict) := S.HandlePacket(s, view, open);
            var a := PacketAnswer(s, view, Own(s), open);
            && Follows(s, out, [], a, open)
            && verdict == if a.commands == [] then S.Done(false) else S.More
  {
    hide S.Stop, G.DecodeMove, P.Packet, Total, Follows, StopFor, Writer.OneWriter;
    StopFollows(s, R.ProtocolError, open);
    StopFollows(s, R.ServerShutdown, open);
    StopsOnly(R.ProtocolError);
    StopsOnly(R.ServerShutdown);
    var out, a := S.HandlePacket(s, view, open).0, PacketAnswer(s, view, Own(s), open);
    if !open {
      ClosedFollows(s, R.ServerShutdown, out, open);
    }
    if a.commands != [] {
      TakenFollows(s, out, view, a.commands[0], open);
    }
  }

  lemma StopsOnly(reason: R.Reason)
    ensures StopFor(reason).commands == []
  {
  }

  /** On a closed queue it does not matter what was attempted. */
  lemma ClosedFollows(s: S.Session, reason: R.Reason, out: S.Out, open: bool)
    requires Follows(s, S.Stop(s, reason), [], StopFor(reason), open)
    ensures !open && out.session == S.Stop(s, reason).session ==> Follows(s, out, [], StopFor(reason), open)
  {
  }

  lemma TakenFollows(s: S.Session, out: S.Out, view: P.PacketView, c: R.Command, open: bool)
    requires Writer.OneWriter(s) && view.consumed <= |s.inbox| && out.attempted == [c]
    requires out.session == S.Consume(s, view).(joined := !c.Leave?, joins := s.joins + (if c.Join? then 1 else 0),
                                                leaves := s.leaves + (if c.Leave? then 1 else 0))
    ensures Follows(s, out, [], Answer(None, [view], [c], []), open)
  {
    OneConsumed(view);
    assert s.inbox[view.consumed..] + [] == s.inbox[view.consumed..];
  }

  lemma TurnFollows(s: S.Session, members: set<R.SessionId>, open: bool)
    requires Writer.Inv(s) && (s.joined <==> s.id in members)
    ensures var (out, verdict) := S.ProcessOne(s, open);
            var a := TurnAnswer(s, members, open);
            && Follows(s, out, [], a, open)
            && (verdict.More? <==> !FrontOf(s.inbox).Waiting? && (!out.session.stopped || a.commands != []))
            && (verdict == S.Done(true) <==> FrontOf(s.inbox).Waiting?)
  {
    hide S.HandlePacket, S.Stop, P.DecodeOne, PacketAnswer, Writer.Inv, Writer.OneWriter, Follows, Own;
    UnfoldInv(s);
    StopFollows(s, R.ProtocolError, open);
    NothingFollows(s, open);
    EmptyWaits();
    FollowsStops(s, S.ProcessOne(s, open).0, TurnAnswer(s, members, open), open);
    if FrontOf(s.inbox).First? {
      var view := FrontOf(s.inbox).view;
      P.PacketOfDecode(s.inbox);
      AnswerByOwn(s, view, members, open);
      if view.packetType.Ping? {
        PingFollows(s, view, open);
      } else {
        CommandFollows(s, view, open);
      }
    }
  }

  lemma NothingFollows(s: S.Session, open: bool)
    requires Writer.OneWriter(s)
    ensures Follows(s, S.Out(s, []), [], NOTHING, open)
  {
    assert s.inbox[0..] + [] == s.inbox;
  }

  lemma FollowsStops(s: S.Session, out: S.Out, a: Answer, open: bool)
    ensures Follows(s, out, [], a, open) ==> (out.session.stopped <==> s.stopped || a.stop.Some?)
  {
  }

  lemma AnswerByOwn(s: S.Session, view: P.PacketView, members: set<R.SessionId>, open: bool)
    requires s.joined <==> s.id in members
    ensures PacketAnswer(s, view, members, open) == PacketAnswer(s, view, Own(s), open)
    ensures view.packetType.Ping? ==> PacketAnswer(s, view, {}, open) == PacketAnswer(s, view, members, open)
    ensures PacketAnswer(s, view, Own(s), open).commands == [] || PacketAnswer(s, view, Own(s), open).stop.None?
    ensures view.packetType.Ping? ==> PacketAnswer(s, view, members, open).commands == []
    ensures !view.packetType.Ping? && PacketAnswer(s, view, Own(s), open).commands == [] ==>
              PacketAnswer(s, view, Own(s), open).stop.Some?
  {
    hide Allowed;
    AllowedByOwn(s, view, members);
    AllowedAsks(s, view);
  }

  lemma AllowedAsks(s: S.Session, view: P.PacketView)
    ensures Allowed(Own(s), s.id, view) ==> I.CommandFor(s.id, view) != []
  {
  }

  lemma EmptyWaits()
    ensures FrontOf([]).Waiting?
  {
  }

  // The writer.

  /** The batch is the longest first part of the queue of at most 64 packets and 65536 bytes, or one larger packet. */
  ghost predicate Fetched(queue: seq<Packet>, batch: seq<Packet>, rest: seq<Packet>)
  {
    && queue == batch + rest
    && Fits(queue, |batch|, 64, 65536)
    && (forall k: nat :: Fits(queue, k, 64, 65536) ==> k <= |batch|)
  }

  /** A write puts its batch, or a first part of it, on the wire; then the writer fetches the next or ends. */
  ghost predicate Wrote(s: S.Session, s': S.Session, transferred: nat, failed: bool)
    requires transferred <= |Flatten(s.batch)|
  {
    && s'.accepted == s.accepted
    && s'.wire == s.wire + (if failed then Flatten(s.batch)[..transferred] else Flatten(s.batch))
    && s'.written == s.written + (if failed then [] else s.batch)
    && (if failed then s'.batch == [] && s'.queue == [] else Fetched(s.queue, s'.batch, s'.queue))
    && s'.writers == (if s'.batch == [] then 0 else 1)
    && s'.writeInProgress == (s'.writers == 1)
  }

  lemma FetchFollows(s: S.Session)
    requires Writer.Inv(s) && s.writers > 0 && s.batch == []
    ensures Wrote(s, S.WriterTurn(s), 0, false)
    ensures Inbound(s, S.WriterTurn(s), [], NOTHING) && Membership(s, S.WriterTurn(s), NOTHING)
  {
    hide Greedy, BatchCount, Fits, Total, F.WellFormed;
    Writer.QueuedAreNonempty(s);
    var count := BatchCount(s.queue, 64, 65536);
    forall k: nat
      ensures Fits(s.queue, k, 64, 65536) ==> k <= count
    {
      BatchIsLongest(s.queue, 64, 65536, k);
    }
    BatchIsLongest(s.queue, 64, 65536, 0);
    assert s.queue[..count] + s.queue[count..] == s.queue;
    assert s.inbox[0..] + [] == s.inbox;
  }

  lemma WriteFollows(s: S.Session, transferred: nat, failed: bool)
    requires Writer.Inv(s) && s.writers > 0 && s.batch != [] && transferred <= |Flatten(s.batch)|
    ensures var out := S.WriteCompleted(s, transferred, failed);
            var a := if failed then StopFor(R.IoError) else NOTHING;
            && Wrote(s, out.session, transferred, failed)
            && Inbound(s, out.session, [], a) && Membership(s, out.session, a)
            && out.attempted == Submitted(s, a)
  {
    hide Fetched, Flatten, Writer.Conserved, Writer.Bounded, Writer.Balanced;
    var t := S.Transferred(s, transferred, failed);
    assert s.inbox[0..] + [] == s.inbox;
    if !failed {
      Writer.AfterWriteKeepsInv(s, transferred);
      FetchFollows(t);
      assert t.wire + Flatten([]) == t.wire && t.written + [] == t.written;
    }
  }
}
