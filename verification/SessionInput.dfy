/** What a session's received bytes mean, read off the bytes alone: the commands asked for and the pings to answer. */
module SessionInput {
  import opened Bytes
  import opened Common
  import opened OutboundQueue
  import F = Framing
  import G = GameplayPayload
  import P = PacketCodec
  import R = Room
  import S = SessionSteps
  import Writer = SessionWriter

  function CommandFor(id: R.SessionId, view: P.PacketView): seq<R.Command>
  {
    match view.packetType
    case JoinRoom => if view.payload == [] then [R.Join(id)] else []
    case Move => if G.DecodeMove(view.payload).Success? then [R.Move(id, G.DecodeMove(view.payload).value)] else []
    case LeaveRoom => if view.payload == [] then [R.Leave(id, R.LeftRoom)] else []
    case _ => []
  }

  /** The commands a sequence of packets asks for. */
  function Meaning(id: R.SessionId, views: seq<P.PacketView>): seq<R.Command>
  {
    if views == [] then [] else Meaning(id, views[..|views| - 1]) + CommandFor(id, views[|views| - 1])
  }

  function Echo(view: P.PacketView): seq<Packet>
  {
    if view.packetType.Ping? then [P.Packet(P.Ping, view.payload)] else []
  }

  /** The replies its pings ask for. */
  function Echoes(views: seq<P.PacketView>): seq<Packet>
  {
    if views == [] then [] else Echoes(views[..|views| - 1]) + Echo(views[|views| - 1])
  }

  predicate IsReply(p: Packet)
  {
    var r := P.DecodeOne(p);
    r.Success? && r.value.packetType.Ping?
  }

  /** The ping replies among some outbound packets. */
  function Replies(packets: seq<Packet>): seq<Packet>
  {
    if packets == [] then []
    else
      var last := packets[|packets| - 1];
      Replies(packets[..|packets| - 1]) + if IsReply(last) then [last] else []
  }

  function Images(views: seq<P.PacketView>): seq<Byte>
  {
    if views == [] then []
    else
      var last := views[|views| - 1];
      Images(views[..|views| - 1]) + P.Packet(last.packetType, last.payload)
  }

  lemma Snoc(id: R.SessionId, views: seq<P.PacketView>, view: P.PacketView)
    ensures var more := views + [view];
            && Meaning(id, more) == Meaning(id, views) + CommandFor(id, view)
            && Echoes(more) == Echoes(views) + Echo(view)
            && Images(more) == Images(views) + P.Packet(view.packetType, view.payload)
  {
    assert (views + [view])[..|views|] == views;
  }

  lemma RepliesSnoc(packets: seq<Packet>, p: Packet)
    ensures Replies(packets + [p]) == Replies(packets) + if IsReply(p) then [p] else []
  {
    assert (packets + [p])[..|packets|] == packets;
  }

  lemma {:induction false} MeaningGrows(id: R.SessionId, views: seq<P.PacketView>, more: seq<P.PacketView>)
    requires views <= more
    ensures Meaning(id, views) <= Meaning(id, more) && Echoes(views) <= Echoes(more)
  {
    hide CommandFor, Echo;
    if |views| < |more| {
      MeaningGrows(id, views, more[..|more| - 1]);
    } else {
      assert views == more;
    }
  }

  ghost predicate GoodView(view: P.PacketView)
  {
    |view.payload| <= P.MAX_PAYLOAD && view.consumed == P.HEADER_SIZE + |view.payload|
  }

  /**
   The packets taken out and the bytes still buffered are the bytes received, and the replies queued are those the
   packets asked for, but for the last ones of a session that was stopped.
   */
  ghost predicate Faithful(s: S.Session)
  {
    && s.received == Images(s.handled) + s.inbox
    && (forall view :: view in s.handled ==> GoodView(view))
    && Replies(s.accepted) <= Echoes(s.handled)
    && (!s.stopped ==> Replies(s.accepted) == Echoes(s.handled))
  }

  lemma {:induction false} ImagesDecode(views: seq<P.PacketView>)
    requires forall view :: view in views ==> GoodView(view)
    ensures F.DecodeStream(Images(views)) == F.Stream(views, [], None)
  {
    hide F.DecodeStream, P.Packet;
    if views == [] {
      NothingDecodes();
    } else {
      var init, last := views[..|views| - 1], views[|views| - 1];
      assert last in views;
      ImagesDecode(init);
      var image := P.Packet(last.packetType, last.payload);
      F.DecodeAppend(Images(init), image);
      ImageDecodes(last);
      assert [] + image == image && init + [last] == views;
    }
  }

  lemma NothingDecodes()
    ensures F.DecodeStream([]) == F.Stream([], [], None)
  {
  }

  lemma ImageDecodes(view: P.PacketView)
    requires GoodView(view)
    ensures F.DecodeStream(P.Packet(view.packetType, view.payload)) == F.Stream([view], [], None)
  {
    hide P.Packet, P.DecodeOne;
    var image := P.Packet(view.packetType, view.payload);
    Writer.PacketIsWellFormed(view.packetType, view.payload);
    assert image[|image|..] == [];
  }

  /** Decoding everything received at once finds the packets taken out, then what the buffered bytes hold. */
  lemma ReceivedDecodes(s: S.Session)
    requires Faithful(s)
    ensures var all, rest := F.DecodeStream(s.received), F.DecodeStream(s.inbox);
            all.packets == s.handled + rest.packets && all.error == rest.error && all.leftover == rest.leftover
  {
    hide F.DecodeStream;
    ImagesDecode(s.handled);
    F.DecodeAppend(Images(s.handled), s.inbox);
    assert [] + s.inbox == s.inbox;
  }

  // Every operation keeps it.

  /** Nothing that Faithful looks at differs, except that the session may have been stopped. */
  ghost predicate SameInput(s: S.Session, s': S.Session)
  {
    && s'.received == s.received && s'.handled == s.handled && s'.inbox == s.inbox
    && Replies(s'.accepted) == Replies(s.accepted) && (s.stopped ==> s'.stopped)
  }

  lemma SameKeepsFaithful(s: S.Session, s': S.Session)
    requires Faithful(s) && SameInput(s, s')
    ensures Faithful(s')
  {
  }

  lemma StopIsSame(s: S.Session, reason: R.Reason)
    ensures SameInput(s, S.Stop(s, reason).session)
  {
  }

  lemma EnqueueIsSame(s: S.Session, packet: Packet)
    requires !IsReply(packet)
    ensures SameInput(s, S.Enqueue(s, packet).0.session)
  {
    hide S.Stop, Replies, IsReply;
    StopIsSame(s, R.OutboundOverflow);
    StopIsSame(s, R.IoError);
    RepliesSnoc(s.accepted, packet);
    assert Replies(s.accepted) + [] == Replies(s.accepted);
  }

  lemma WriteIsSame(s: S.Session, transferred: nat, failed: bool)
    requires s.writers > 0 && transferred <= |Flatten(s.batch)|
    ensures SameInput(s, S.WriteCompleted(s, transferred, failed).session) && SameInput(s, S.WriterTurn(s))
  {
    hide S.Stop;
    StopIsSame(S.Transferred(s, transferred, failed), R.IoError);
  }

  lemma MoreKeepsFaithful(s: S.Session, bytes: seq<Byte>)
    requires Faithful(s)
    ensures Faithful(S.WithMore(s, bytes))
  {
    assert Images(s.handled) + s.inbox + bytes == Images(s.handled) + (s.inbox + bytes);
  }

  lemma ConsumeKeepsImages(s: S.Session, view: P.PacketView)
    requires Faithful(s) && P.DecodeOne(s.inbox) == Success(view)
    ensures var s' := S.Consume(s, view);
            && s'.received == Images(s'.handled) + s'.inbox
            && (forall v :: v in s'.handled ==> GoodView(v))
            && Echoes(s'.handled) == Echoes(s.handled) + Echo(view)
  {
    hide Echo, Images, Echoes, Replies, Meaning, P.Packet, P.DecodeOne;
    P.PacketOfDecode(s.inbox);
    Snoc(s.id, s.handled, view);
    SplitInbox(Images(s.handled), s.inbox, view.consumed);
  }

  lemma SplitInbox(before: seq<Byte>, inbox: seq<Byte>, n: nat)
    requires n <= |inbox|
    ensures before + inbox == before + inbox[..n] + inbox[n..]
  {
  }

  /** A ping taken out is answered, unless that fails and stops the session, or it was stopped before. */
  lemma PingKeepsFaithful(s: S.Session, view: P.PacketView)
    requires Faithful(s) && P.DecodeOne(s.inbox) == Success(view) && view.packetType.Ping?
    ensures Faithful(S.Enqueue(S.Consume(s, view), P.Packet(P.Ping, view.payload)).0.session)
  {
    hide Images, Echoes, Replies, P.DecodeOne, P.Packet, GoodView;
    var c, reply := S.Consume(s, view), P.Packet(P.Ping, view.payload);
    ConsumeKeepsImages(s, view);
    P.PacketOfDecode(s.inbox);
    Writer.PacketIsWellFormed(P.Ping, view.payload);
    RepliesSnoc(s.accepted, reply);
    S.EnqueueFields(c, reply);
  }

  lemma HandleKeepsFaithful(s: S.Session, view: P.PacketView, open: bool)
    requires Faithful(s) && P.DecodeOne(s.inbox) == Success(view)
    ensures Faithful(S.HandlePacket(s, view, open).0.session)
  {
    hide Images, Echoes, Replies, P.DecodeOne, P.Packet, GoodView, S.Stop, S.Enqueue, G.DecodeMove;
    StopIsSame(s, R.ProtocolError);
    StopIsSame(s, R.ServerShutdown);
    ConsumeKeepsImages(s, view);
    if view.packetType.Ping? {
      PingKeepsFaithful(s, view);
    } else {
      assert Echoes(s.handled) + [] == Echoes(s.handled);
    }
  }

  lemma ProcessKeepsFaithful(s: S.Session, open: bool)
    requires Faithful(s)
    ensures Faithful(S.ProcessOne(s, open).0.session)
  {
    hide Faithful, P.DecodeOne, S.HandlePacket, S.Stop;
    StopIsSame(s, R.ProtocolError);
    SameKeepsFaithful(s, S.Stop(s, R.ProtocolError).session);
    if s.inbox != [] && P.DecodeOne(s.inbox).Success? {
      HandleKeepsFaithful(s, P.DecodeOne(s.inbox).value, open);
    }
  }

  // What is submitted is what the packets ask for.

  /** The commands asked for, as opposed to the Leave that stopping a joined session submits. */
  predicate Asked(command: R.Command)
  {
    command.Leave? ==> command.reason.LeftRoom?
  }

  function Requests(commands: seq<R.Command>): seq<R.Command>
  {
    if commands == [] then []
    else
      var last := commands[|commands| - 1];
      Requests(commands[..|commands| - 1]) + if Asked(last) then [last] else []
  }

  /** On an open queue the packets taken out ask for exactly the submitted commands; on a closed one for no fewer. */
  ghost predicate Means(s: S.Session, out: S.Out, open: bool)
  {
    && out.session.id == s.id
    && (if open then
          Meaning(s.id, out.session.handled) == Meaning(s.id, s.handled) + Requests(out.attempted)
        else Meaning(s.id, s.handled) <= Meaning(s.id, out.session.handled))
  }

  lemma NothingMeans(s: S.Session, out: S.Out, open: bool)
    requires out.session.id == s.id && out.session.handled == s.handled && Requests(out.attempted) == []
    ensures Means(s, out, open)
  {
    assert Meaning(s.id, s.handled) + [] == Meaning(s.id, s.handled);
  }

  lemma StopMeans(s: S.Session, reason: R.Reason, open: bool)
    requires !reason.LeftRoom?
    ensures S.Stop(s, reason).session.handled == s.handled && Requests(S.Stop(s, reason).attempted) == []
    ensures Means(s, S.Stop(s, reason), open)
  {
    OneRequest(R.Leave(s.id, reason));
    NothingMeans(s, S.Stop(s, reason), open);
  }

  lemma OneRequest(command: R.Command)
    ensures Requests([command]) == (if Asked(command) then [command] else []) && Requests([]) == []
  {
    assert [command][..0] == [];
  }

  lemma EnqueueMeans(s: S.Session, packet: Packet, open: bool)
    ensures var out := S.Enqueue(s, packet).0;
            out.session.handled == s.handled && Requests(out.attempted) == [] && Means(s, out, open)
  {
    hide S.Stop, Requests, Meaning;
    StopMeans(s, R.OutboundOverflow, open);
    StopMeans(s, R.IoError, open);
    OneRequest(R.Join(s.id));
    var out := S.Enqueue(s, packet).0;
    NothingMeans(s, out, open);
  }

  lemma HandleMeans(s: S.Session, view: P.PacketView, open: bool)
    requires view.consumed <= |s.inbox|
    ensures Means(s, S.HandlePacket(s, view, open).0, open)
  {
    hide S.Stop, S.Enqueue, P.Packet, Requests, Meaning, G.DecodeMove;
    StopMeans(s, R.ProtocolError, open);
    Snoc(s.id, s.handled, view);
    var out := S.HandlePacket(s, view, open).0;
    match view.packetType
    case Ping =>
      EnqueueMeans(S.Consume(s, view), P.Packet(P.Ping, view.payload), open);
      assert Meaning(s.id, s.handled) + [] == Meaning(s.id, s.handled);
    case JoinRoom =>
      RefusedMeans(s, R.Join(s.id), open);
      OneRequest(R.Join(s.id));
    case Move =>
      if G.DecodeMove(view.payload).Success? {
        RefusedMeans(s, R.Move(s.id, G.DecodeMove(view.payload).value), open);
        OneRequest(R.Move(s.id, G.DecodeMove(view.payload).value));
      }
    case LeaveRoom => OneRequest(R.Leave(s.id, R.LeftRoom));
    case _ =>
  }

  /** A refused command stops the session and takes no packet out. */
  lemma RefusedMeans(s: S.Session, command: R.Command, open: bool)
    ensures !open ==>
              var stop := S.Stop(s, R.ServerShutdown);
              Means(s, stop.(attempted := [command] + stop.attempted), open)
  {
  }

  lemma ProcessMeans(s: S.Session, open: bool)
    ensures Means(s, S.ProcessOne(s, open).0, open)
  {
    hide Means, P.DecodeOne, S.HandlePacket, S.Stop, Requests;
    StopMeans(s, R.ProtocolError, open);
    OneRequest(R.Join(s.id));
    NothingMeans(s, S.Out(s, []), open);
    if s.inbox != [] && P.DecodeOne(s.inbox).Success? {
      HandleMeans(s, P.DecodeOne(s.inbox).value, open);
    }
  }

  lemma ReadMeans(s: S.Session, bytes: seq<Byte>, error: S.ReadError, open: bool)
    ensures Means(s, S.Received(s, bytes).0, open) && Means(s, S.ReadFailed(s, error), open)
  {
    hide S.Stop, Means, Requests;
    StopMeans(s, R.ProtocolError, open);
    StopMeans(s, R.ClientClosed, open);
    StopMeans(s, R.IoError, open);
    OneRequest(R.Join(s.id));
    NothingMeans(s, S.Out(s, []), open);
    NothingMeans(s, S.Out(S.WithMore(s, bytes), []), open);
  }

  lemma WriteMeans(s: S.Session, transferred: nat, failed: bool, open: bool)
    requires s.writers > 0 && transferred <= |Flatten(s.batch)|
    ensures Means(s, S.WriteCompleted(s, transferred, failed), open)
  {
    hide S.Stop, Requests;
    var t := S.Transferred(s, transferred, failed);
    StopMeans(t, R.IoError, open);
    OneRequest(R.Join(s.id));
    NothingMeans(s, S.WriteCompleted(s, transferred, failed), open);
  }
}
