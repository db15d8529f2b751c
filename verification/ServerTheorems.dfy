/** What holds of the server in every reachable state of every run. */
module ServerTheorems {
  import opened Bytes
  import opened Common
  import opened OutboundQueue
  import opened ServerSteps
  import B = ServerBroadcast
  import E = RoomEventEncoder
  import F = Framing
  import M = ServerMembership
  import P = PacketCodec
  import R = Room
  import S = SessionSteps
  import W = RoomWorkerSteps
  import Writer = SessionWriter

  // Commands.

  /** One session's commands, in order. */
  function CommandsOf(commands: seq<R.Command>, id: SessionId): seq<R.Command>
  {
    if commands == [] then []
    else (if commands[0].id == id then [commands[0]] else []) + CommandsOf(commands[1..], id)
  }

  /** A first part of (Join Move* Leave)*, or of Move* Leave (Join Move* Leave)* when already inside. */
  predicate Alternates(commands: seq<R.Command>, inside: bool)
  {
    commands == [] ||
    match commands[0]
    case Join(_) => !inside && Alternates(commands[1..], true)
    case Move(_, _) => inside && Alternates(commands[1..], true)
    case Leave(_, _) => inside && Alternates(commands[1..], false)
  }

  /** The Room rejects nothing exactly when every session's own commands alternate. */
  lemma {:induction false} AcceptedMeansAlternating(members: set<SessionId>, commands: seq<R.Command>)
    ensures R.AllAccepted(members, commands) <==>
            forall id: SessionId :: Alternates(CommandsOf(commands, id), id in members)
    decreases |commands|
  {
    if commands != [] {
      var c, rest := commands[0], commands[1..];
      var after := R.After(members, c);
      AcceptedMeansAlternating(after, rest);
      forall id: SessionId
        ensures id != c.id ==> CommandsOf(commands, id) == CommandsOf(rest, id) && (id in after <==> id in members)
        ensures id == c.id ==>
                  (Alternates(CommandsOf(commands, id), id in members) <==>
                   R.Accepts(members, c) && Alternates(CommandsOf(rest, id), id in after))
      {
        if id == c.id {
          assert CommandsOf(commands, id)[1..] == CommandsOf(rest, id);
        }
      }
    }
  }

  lemma {:induction false} AcceptedConcat(members: set<SessionId>, a: seq<R.Command>, b: seq<R.Command>)
    requires R.AllAccepted(members, a) && R.AllAccepted(R.AfterAll(members, a), b)
    ensures R.AllAccepted(members, a + b)
    decreases |a|
  {
    if a == [] {
      assert a + b == b;
    } else {
      assert (a + b)[1..] == a[1..] + b;
      AcceptedConcat(R.After(members, a[0]), a[1..], b);
    }
  }

  lemma {:induction false} UnrejectedReplay(commands: seq<R.Command>)
    requires R.Replay(commands).rejected == 0
    ensures R.AllAccepted({}, commands) && R.AfterAll({}, commands) == R.Replay(commands).players.Keys
  {
    if commands != [] {
      var init, last := commands[..|commands| - 1], commands[|commands| - 1];
      assert commands == init + [last];
      UnrejectedReplay(init);
      R.AcceptedAppend({}, init, last);
      M.AppliedMembers(R.Replay(init).players, last);
    }
  }

  lemma AcceptedAlternate(w: W.Worker)
    requires W.Inv(w) && w.rejected == 0 && R.AllAccepted(w.players.Keys, W.Outstanding(w))
    ensures forall id: SessionId :: Alternates(CommandsOf(w.accepted, id), false)
  {
    var done := w.accepted[..w.processed];
    assert R.Replay(done) == R.History(w.players, w.log, w.rejected);
    hide R.Replay, Alternates, CommandsOf, R.AllAccepted, R.AfterAll;
    UnrejectedReplay(done);
    AcceptedConcat({}, done, W.Outstanding(w));
    assert w.accepted == done + W.Outstanding(w);
    AcceptedMeansAlternating({}, w.accepted);
  }

  /** Who is in the Room once every outstanding command has been applied. */
  function Members(v: Server): set<SessionId>
  {
    R.AfterAll(v.worker.players.Keys, W.Outstanding(v.worker))
  }

  /** The sessions that were joined when the command queue was closed. */
  ghost function JoinedAtClose(steps: seq<Step>): set<SessionId>
    requires Possible(steps) && State(steps).worker.closed
  {
    var init := steps[..|steps| - 1];
    if State(init).worker.closed then JoinedAtClose(init) else M.JoinedIds(State(init))
  }

  lemma ApplyKeepsMembers(w: W.Worker)
    requires R.AllAccepted(w.players.Keys, W.Outstanding(w)) && w.phase.Popped?
    ensures var w' := W.Next(w, W.ApplyPopped);
            R.AfterAll(w'.players.Keys, W.Outstanding(w')) == R.AfterAll(w.players.Keys, W.Outstanding(w))
  {
    hide R.Apply, R.After;
    var outstanding := W.Outstanding(w);
    assert outstanding[0] == w.phase.command && outstanding[1..] == w.pending;
    assert W.Outstanding(W.Next(w, W.ApplyPopped)) == w.pending;
    M.AppliedMembers(w.players, w.phase.command);
  }

  /** The worker's own steps apply what is outstanding and change nothing about where that leads. */
  lemma WorkerKeepsMembers(w: W.Worker, step: W.Step)
    requires R.AllAccepted(w.players.Keys, W.Outstanding(w)) && W.PhaseOk(w) && W.Enabled(w, step) && !step.Submit?
    ensures var w' := W.Next(w, step);
            && R.AfterAll(w'.players.Keys, W.Outstanding(w')) == R.AfterAll(w.players.Keys, W.Outstanding(w))
            && (w.closed ==> w'.closed) && (w'.closed ==> w.closed || step.Close?)
  {
    hide R.AllAccepted, R.AfterAll, R.Apply;
    match step
    case Pop => assert W.Outstanding(W.Next(w, step)) == W.Outstanding(w);
    case ApplyPopped => ApplyKeepsMembers(w);
    case _ =>
  }

  /** A step of the server is, for the worker, a submission or one step of its own. */
  lemma StepForWorker(v: Server, step: Step) returns (ws: Option<W.Step>)
    requires Enabled(v, step)
    ensures if ws.None? then Next(v, step).worker == v.worker || (IsIo(step) && !v.worker.closed)
            else !ws.value.Submit? && W.Enabled(v.worker, ws.value) && Next(v, step).worker == W.Next(v.worker, ws.value)
    ensures IsIo(step) ==> Next(v, step).worker.closed == v.worker.closed && ws.None?
    ensures ws == Some(W.Close) <==> step.CloseQueue?
    ensures ws != Some(W.FinishHandler(true))
  {
    hide IoEffect, R.Apply, E.EventPacket, W.Outstanding;
    ws := match step
      case Pop => Some(W.Pop)
      case Apply => Some(W.ApplyPopped)
      case HandlerDone => Some(W.FinishHandler(false))
      case CloseQueue => Some(W.Close)
      case RequestStop => Some(W.RequestStop)
      case JoinWorker => Some(W.JoinThread)
      case _ => None;
  }

  lemma UnfoldWorker(v: Server)
    requires M.Inv(v)
    ensures R.AllAccepted(v.worker.players.Keys, W.Outstanding(v.worker)) && W.PhaseOk(v.worker)
    ensures !v.worker.closed ==> Members(v) == M.JoinedIds(v)
  {
    hide R.AllAccepted, R.AfterAll, M.Indexed, M.Known, M.Ids, M.JoinedIds;
  }

  lemma ClosedKeepsMembers(v: Server, step: Step)
    requires M.Inv(v) && Enabled(v, step) && Next(v, step).worker.closed
    ensures Members(Next(v, step)) == Members(v)
  {
    hide M.Inv, Next, Enabled, R.AllAccepted, R.AfterAll, W.Outstanding, W.PhaseOk, W.Next;
    var ws := StepForWorker(v, step);
    UnfoldWorker(v);
    if ws.Some? {
      WorkerKeepsMembers(v.worker, ws.value);
    }
  }

  /** From the close on, where the outstanding commands lead stays what it was then: whoever was joined. */
  lemma {:induction false} MembersAreThoseAtClose(steps: seq<Step>)
    requires Possible(steps) && State(steps).worker.closed
    ensures Members(State(steps)) == JoinedAtClose(steps)
  {
    var init, last := steps[..|steps| - 1], steps[|steps| - 1];
    B.RunKeepsInv(init);
    hide Next, Enabled, Members, M.Inv, M.JoinedIds, B.PeerOk, B.BroadcastAt;
    ClosedKeepsMembers(State(init), last);
    if State(init).worker.closed {
      MembersAreThoseAtClose(init);
    } else {
      UnfoldWorker(State(init));
    }
  }

  /**
   The Room never rejects a command a session submitted: in every run each session's accepted commands alternate, and
   the table after the outstanding commands is exactly the joined sessions or, once the queue is closed, exactly
   those that were joined when it was.
   */
  lemma NothingIsRejected(steps: seq<Step>)
    requires Possible(steps)
    ensures var v := State(steps);
            && v.worker.rejected == 0
            && (forall id: SessionId :: Alternates(CommandsOf(v.worker.accepted, id), false))
            && Members(v) == if v.worker.closed then JoinedAtClose(steps) else M.JoinedIds(v)
  {
    B.RunKeepsInv(steps);
    if State(steps).worker.closed {
      MembersAreThoseAtClose(steps);
    }
    hide Possible, State, W.Inv, B.PeerOk, B.BroadcastAt, R.AllAccepted, R.AfterAll, M.JoinedIds, W.Outstanding;
    AcceptedAlternate(State(steps).worker);
  }

  /**
   In every run the event log is the applied commands one for one, in order of acceptance, and the player table is
   the log read back.
   */
  lemma LogMirrorsCommands(steps: seq<Step>, id: SessionId)
    requires Possible(steps)
    ensures var w := State(steps).worker;
            && w.processed <= |w.accepted|
            && R.Events(w.log) == R.EventsFor(w.accepted[..w.processed])
            && R.LastPosition(w.log, id) == if id in w.players then Some(w.players[id]) else None
  {
    B.RunKeepsInv(steps);
    hide Possible, State, B.PeerOk, B.BroadcastAt, R.AllAccepted, R.AfterAll, R.Replay;
    var done := State(steps).worker.accepted[..State(steps).worker.processed];
    R.UnrejectedLogMirrors(done);
    R.TableIsLastPositions(done, id);
  }

  // Registry.

  /**
   Outside the window between applying an event and publishing it, the registry's members are exactly the players
   that are still connected; the gauge always counts the connected sessions.
   */
  lemma RegistryAgrees(steps: seq<Step>)
    requires Possible(steps)
    ensures var v := State(steps);
            && v.registry.gauge == |v.registry.sessions|
            && v.registry.members <= v.registry.sessions
            && (M.Unpublished(v).None? ==>
                  v.registry.members == v.worker.players.Keys * v.registry.sessions)
  {
    B.RunKeepsInv(steps);
    hide Possible, State;
  }

  // Broadcast.

  lemma {:induction false} VisibleGrows(log: seq<R.Entry>, longer: seq<R.Entry>, id: SessionId)
    requires log <= longer
    ensures R.Visible(log, id) <= R.Visible(longer, id)
    decreases |longer|
  {
    if |log| < |longer| {
      VisibleGrows(log, longer[..|longer| - 1], id);
    } else {
      assert log == longer;
    }
  }

  /**
   The room events a session has queued are a first part of the Room's one event log, restricted to the events
   after which it is a player; the first of them is its own Joined. While it is served and nothing is on its way
   to it, it has queued all of them.
   */
  lemma TotalOrderBroadcast(steps: seq<Step>, id: SessionId)
    requires Possible(steps) && id in State(steps).peers
    ensures var v := State(steps);
            var p := v.peers[id];
            var visible := R.Visible(v.worker.log, id);
            && v.worker.processed <= |v.worker.accepted|
            && v.worker.log == R.Replay(v.worker.accepted[..v.worker.processed]).log
            && R.Consistent(v.worker.log)
            && B.Seen(p) <= visible
            && (B.Seen(p) != [] ==> B.Seen(p)[0].Joined? && B.Seen(p)[0].id == id)
            && (B.Live(p) && M.Unpublished(v).None? && p.posted == [] && B.BeingDelivered(v, id) == [] ==>
                  B.Seen(p) == visible)
  {
    B.RunKeepsInv(steps);
    hide Possible, State, R.Replay, R.Visible, E.PacketEvents, R.Consistent, R.AllAccepted, R.AfterAll;
    var v := State(steps);
    var p := v.peers[id];
    assert B.BroadcastAt(v, id);
    R.ReplayIsConsistent(v.worker.accepted[..v.worker.processed]);
    VisibleGrows(B.Published(v), v.worker.log, id);
    if B.Seen(p) != [] {
      R.FirstVisibleIsOwnJoin(v.worker.log, id);
    }
    if p.posted == [] {
      assert E.PacketEvents(p.posted) == [] by { NoPacketsNoEvents(); }
      assert B.Seen(p) + [] + [] == B.Seen(p);
    }
  }

  lemma NoPacketsNoEvents()
    ensures E.PacketEvents([]) == []
  {
  }

  /**
   End to end: whatever part of the bytes written to a session's socket a client has received, those of the write in
   flight included, and however it was split into reads, the client decodes it without error, and the room events
   it finds are a first part of the Room's log restricted to that session.
   */
  lemma ClientSeesRoomLog(steps: seq<Step>, id: SessionId, chunks: seq<seq<Byte>>)
    requires Possible(steps) && id in State(steps).peers
    requires var s := State(steps).peers[id].session;
             Flatten(chunks) <= s.wire + Flatten(s.batch)
    ensures var (got, unread) := F.DecodeChunks([], chunks);
            && got.error.None? && unread == []
            && E.EventsIn(got.packets) <= R.Visible(State(steps).worker.log, id)
  {
    B.RunKeepsInv(steps);
    TotalOrderBroadcast(steps, id);
    hide Possible, State, R.Replay, R.Visible, E.PacketEvents, F.DecodeStream, F.DecodeChunks, P.DecodeOne,
         M.Inv, B.BroadcastAt, R.Consistent;
    var v := State(steps);
    assert B.PeerOk(v, id);
    var s := v.peers[id].session;
    F.ChunkingIndependence(chunks);
    Writer.OnTheWireIsAccepted(s);
    PrefixTrans(Flatten(chunks), s.wire + Flatten(s.batch), Flatten(s.accepted));
    F.DecodeOfPart(s.accepted, Flatten(chunks));
    E.EventsInPrefix(F.DecodeStream(Flatten(chunks)).packets, F.Views(s.accepted));
    E.PacketEventsAreDecoded(s.accepted);
    PrefixTrans(E.EventsIn(F.DecodeStream(Flatten(chunks)).packets), B.Seen(v.peers[id]),
                R.Visible(v.worker.log, id));
  }

  // Sessions.

  /** In every reachable state a read of one chunk fits the receive buffer: its overflow branch never runs. */
  lemma ReceiveLimitUnreachable(steps: seq<Step>, id: SessionId, bytes: seq<Byte>)
    requires Possible(steps) && Enabled(State(steps), ReadOk(id, bytes))
    ensures S.Received(State(steps).peers[id].session, bytes).1
    ensures |State(steps).peers[id].session.inbox| <= 65541
  {
    B.RunKeepsInv(steps);
    hide Possible, State, M.Inv, B.BroadcastAt, Writer.Inv;
    assert B.PeerOk(State(steps), id);
  }

  /**
   The writer protocol in every reachable state: at most one writer, and one whenever a packet waits; accepted
   packets are written, in flight or queued, in order, until stop; queued and in-flight bytes stay bounded; the
   socket has only ever been given a first part of the accepted packets.
   */
  lemma WriterProtocol(steps: seq<Step>, id: SessionId)
    requires Possible(steps) && id in State(steps).peers
    ensures var s := State(steps).peers[id].session;
            && s.writers <= 1 && (s.writers == 1 <==> s.writeInProgress)
            && (s.queue != [] ==> s.writeInProgress)
            && (!s.stopped ==> s.accepted == s.written + s.batch + s.queue && s.wire == Flatten(s.written))
            && s.wire <= Flatten(s.accepted)
            && |Flatten(s.queue)| + |Flatten(s.batch)| <= 262144 + 65542
  {
    B.RunKeepsInv(steps);
    hide Possible, State, M.Inv, B.BroadcastAt, Flatten, Total;
    assert B.PeerOk(State(steps), id);
    Writer.OutboundBound(State(steps).peers[id].session);
  }

  predicate FailsByBytesOnly(s: S.Session, packet: Packet)
  {
    PushVerdict(s.queue, s.stopped, S.OUTBOUND_LIMIT, Some(packet)) ==
    if Total(s.queue) + |packet| <= S.OUTBOUND_LIMIT then Success(packet) else Failure(ByteLimitExceeded)
  }

  /** The packets a peer's next steps may push: the first posted one, and the reply to a ping that is next. */
  predicate PushesFailByBytes(p: Peer)
  {
    && (p.posted != [] ==> FailsByBytesOnly(p.session, p.posted[0]))
    && var r := P.DecodeOne(p.session.inbox);
       r.Success? && r.value.packetType.Ping? ==> FailsByBytesOnly(p.session, P.Packet(P.Ping, r.value.payload))
  }

  lemma LocalPushes(p: Peer)
    requires B.Local(p) && !p.session.stopped
    ensures PushesFailByBytes(p)
  {
    hide Writer.Inv, F.WellFormed, P.Packet, P.DecodeOne, PushVerdict, Total;
    if p.posted != [] {
      assert p.posted[0] in p.posted;
      Writer.OnlyByteLimitFails(p.session, p.posted[0]);
    }
    var r := P.DecodeOne(p.session.inbox);
    if r.Success? {
      P.PacketOfDecode(p.session.inbox);
      Writer.PacketIsWellFormed(P.Ping, r.value.payload);
      Writer.OnlyByteLimitFails(p.session, P.Packet(P.Ping, r.value.payload));
    }
  }

  /** In every run the only push error a running session can meet next is the byte limit. */
  lemma PushesFailByBytesOnly(steps: seq<Step>, id: SessionId)
    requires Possible(steps) && id in State(steps).peers && !State(steps).peers[id].session.stopped
    ensures PushesFailByBytes(State(steps).peers[id])
  {
    B.RunKeepsInv(steps);
    hide Possible, State, M.Inv, B.BroadcastAt, B.Local, PushesFailByBytes;
    assert B.PeerOk(State(steps), id);
    LocalPushes(State(steps).peers[id]);
  }

  lemma {:induction false} NothingFails(steps: seq<Step>)
    requires Possible(steps)
    ensures State(steps).worker.failures == 0
  {
    if steps != [] {
      var init, last := steps[..|steps| - 1], steps[|steps| - 1];
      NothingFails(init);
      hide Next, Enabled, W.Next, W.Enabled, IoEffect;
      var ws := StepForWorker(State(init), last);
      if ws.Some? {
        W.StepHistory(State(init).worker, ws.value);
      } else if IsIo(last) {
        IoAside(State(init), last);
      }
    }
  }

  /**
   Shutdown of the whole server: when the worker has exited, every accepted command was applied, in order, and the
   final table is whoever was joined when the command queue was closed. No delivery fails: publish never throws here.
   */
  lemma ServerShutdownDrains(steps: seq<Step>)
    requires Possible(steps) && State(steps).worker.phase.Exited?
    ensures var w := State(steps).worker;
            && w.closed && w.pending == []
            && R.Replay(w.accepted) == R.History(w.players, w.log, 0)
            && w.processed == |w.accepted| == |w.log|
            && w.players.Keys == JoinedAtClose(steps)
            && (w.summary.Some? ==> w.summary.value == W.Summary(w.players, |w.accepted|, 0, 0))
  {
    B.RunKeepsInv(steps);
    NothingFails(steps);
    W.ExitedMeansDone(State(steps).worker);
    MembersAreThoseAtClose(steps);
    hide Possible, State, R.AllAccepted, B.BroadcastAt, B.PeerOk, JoinedAtClose;
    assert W.Outstanding(State(steps).worker) == [];
  }
}
