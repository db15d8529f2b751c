/** Gap-free, totally ordered broadcast over every interleaving, and what each session keeps on the way. */
module ServerBroadcast {
  import opened Common
  import opened OutboundQueue
  import opened ServerSteps
  import E = RoomEventEncoder
  import F = Framing
  import G = SessionRegistry
  import M = ServerMembership
  import P = PacketCodec
  import R = Room
  import S = SessionSteps
  import W = RoomWorkerSteps
  import Writer = SessionWriter

  ghost predicate Inv(v: Server)
  {
    && M.Inv(v)
    && (forall id :: id in v.peers ==> PeerOk(v, id))
    && (forall id :: id in v.peers ==> BroadcastAt(v, id))
  }

  /** A session that is still being served. */
  predicate Live(p: Peer)
  {
    p.alive && !p.session.stopped
  }

  ghost predicate Local(p: Peer)
  {
    && Writer.Inv(p.session)
    && (forall q :: q in p.posted ==> F.WellFormed(q))
    && (p.run.Reading? ==> |p.session.inbox| < P.MAX_PACKET)
    && (p.run.Returned? || p.run.Finished? ==> p.session.stopped)
  }

  ghost predicate PeerOk(v: Server, id: SessionId)
    requires id in v.peers
  {
    && Local(v.peers[id])
    && (v.peers[id].run.Passing? <==> v.busy == Some(id))
    && (Live(v.peers[id]) ==> id in v.registry.sessions)
  }

  /** The events whose publish has taken the lock. */
  function Published(v: Server): seq<R.Entry>
  {
    if M.Unpublished(v).Some? && v.worker.log != [] then v.worker.log[..|v.worker.log| - 1] else v.worker.log
  }

  function Seen(p: Peer): seq<R.Event>
  {
    E.PacketEvents(p.session.accepted)
  }

  function BeingDelivered(v: Server, id: SessionId): seq<R.Event>
  {
    if v.worker.phase.Handling? && v.delivery.Some? && id in v.delivery.value then [v.worker.phase.event] else []
  }

  /**
   What a session has queued is a first part of what it is meant to see; while it is served, the posted handlers
   and the delivery in progress are exactly the rest of what has been published.
   */
  ghost predicate BroadcastAt(v: Server, id: SessionId)
    requires id in v.peers
  {
    var p := v.peers[id];
    var visible := R.Visible(Published(v), id);
    && Seen(p) <= visible
    && (Live(p) ==> Seen(p) + E.PacketEvents(p.posted) + BeingDelivered(v, id) == visible)
  }

  // What one I/O step does to its own session.

  predicate IoReady(p: Peer, step: Step)
    requires IsIo(step)
  {
    match step
    case ReadOk(_, bytes) => p.run.Reading? && |bytes| <= S.READ_CHUNK
    case ReadErr(_, _) => p.run.Reading?
    case NextPacket(_) => p.run.Passing?
    case RunPosted(_) => p.posted != []
    case StartWriter(_) => p.session.writers > 0 && p.session.batch == []
    case WriteDone(_, transferred, _) =>
      p.session.batch != [] && p.session.writers > 0 && transferred <= |Flatten(p.session.batch)|
  }

  lemma EffectKeepsLocal(p: Peer, step: Step, open: bool)
    requires Local(p) && IsIo(step) && IoReady(p, step)
    ensures Local(IoEffect(p, step, open).peer)
  {
    hide Writer.Inv, S.ProcessOne, S.Enqueue, S.WriteCompleted, S.WriterTurn, S.ReadFailed, S.Received;
    var s := p.session;
    match step
    case ReadOk(_, bytes) =>
      Writer.ReadKeepsInv(s, bytes, S.Eof);
      S.RunReturnsStopped(s, open, bytes, S.Eof);
    case ReadErr(_, error) =>
      Writer.ReadKeepsInv(s, [], error);
      S.RunReturnsStopped(s, open, [], error);
    case NextPacket(_) =>
      Writer.ProcessKeepsInv(s, open);
      S.RunReturnsStopped(s, open, [], S.Eof);
      if S.ProcessOne(s, open).1 == S.Done(true) {
        S.WaitingIsShort(s, open);
      }
    case RunPosted(_) =>
      assert p.posted[0] in p.posted;
      Writer.EnqueueKeepsInv(s, p.posted[0]);
      S.EnqueueFields(s, p.posted[0]);
    case StartWriter(_) =>
      Writer.WriterTurnKeepsInv(s);
      WriterKeepsFlags(s, 0, false);
    case WriteDone(_, transferred, failed) =>
      Writer.WriteCompletedKeepsInv(s, transferred, failed);
      WriterKeepsFlags(s, transferred, failed);
  }

  lemma WriterKeepsFlags(s: S.Session, transferred: nat, failed: bool)
    requires s.writers > 0 && transferred <= |Flatten(s.batch)|
    ensures var s' := S.WriteCompleted(s, transferred, failed).session;
            s'.inbox == s.inbox && s'.accepted == s.accepted && (s.stopped ==> s'.stopped)
    ensures var s' := S.WriterTurn(s);
            s'.inbox == s.inbox && s'.accepted == s.accepted && s'.stopped == s.stopped
  {
  }

  /** A packet pass queues replies only, never events. */
  lemma ProcessQueuesNoEvent(s: S.Session, open: bool)
    ensures var s' := S.ProcessOne(s, open).0.session;
            E.PacketEvents(s'.accepted) == E.PacketEvents(s.accepted) && (s.stopped ==> s'.stopped)
  {
    hide E.PacketEvents, P.DecodeOne, S.HandlePacket;
    if s.inbox != [] && P.DecodeOne(s.inbox).Success? {
      P.PacketOfDecode(s.inbox);
      HandleQueuesNoEvent(s, P.DecodeOne(s.inbox).value, open);
    }
  }

  lemma HandleQueuesNoEvent(s: S.Session, view: P.PacketView, open: bool)
    requires view.consumed <= |s.inbox| && |view.payload| <= P.MAX_PAYLOAD
    ensures var s' := S.HandlePacket(s, view, open).0.session;
            E.PacketEvents(s'.accepted) == E.PacketEvents(s.accepted) && (s.stopped ==> s'.stopped)
  {
    hide E.PacketEvents, P.DecodeOne, P.Packet, S.Enqueue;
    if view.packetType.Ping? {
      var reply := P.Packet(P.Ping, view.payload);
      Writer.PacketIsWellFormed(P.Ping, view.payload);
      S.EnqueueFields(S.Consume(s, view), reply);
      E.PacketEventsStep(s.accepted, reply);
    }
  }

  /** Either nothing about events changes, or the first posted event moves into the queue. */
  lemma EffectOnEvents(p: Peer, step: Step, open: bool)
    requires IsIo(step) && IoReady(p, step)
    ensures var p' := IoEffect(p, step, open).peer;
            && p'.alive == p.alive && (p.session.stopped ==> p'.session.stopped)
            && (step.StartWriter? ==> p'.run == p.run)
            && (if step.RunPosted? then
                  && p'.posted == p.posted[1..]
                  && p'.session.accepted ==
                     if p'.session.stopped then p.session.accepted else p.session.accepted + [p.posted[0]]
                else p'.posted == p.posted && Seen(p') == Seen(p))
  {
    hide E.PacketEvents, S.ProcessOne, S.Enqueue, S.WriteCompleted, S.WriterTurn;
    match step
    case ReadOk(_, bytes) =>
    case ReadErr(_, error) =>
    case NextPacket(_) => ProcessQueuesNoEvent(p.session, open);
    case RunPosted(_) => S.EnqueueFields(p.session, p.posted[0]);
    case StartWriter(_) => WriterKeepsFlags(p.session, 0, false);
    case WriteDone(_, transferred, failed) => WriterKeepsFlags(p.session, transferred, failed);
  }

  lemma EffectKeepsBroadcast(p: Peer, step: Step, open: bool, delivering: seq<R.Event>, visible: seq<R.Event>)
    requires IsIo(step) && IoReady(p, step) && p.alive
    requires Seen(p) <= visible && (Live(p) ==> Seen(p) + E.PacketEvents(p.posted) + delivering == visible)
    ensures var p' := IoEffect(p, step, open).peer;
            && Seen(p') <= visible
            && (Live(p') ==> Seen(p') + E.PacketEvents(p'.posted) + delivering == visible)
  {
    hide E.PacketEvents, IoEffect, E.PacketEvent;
    EffectOnEvents(p, step, open);
    var p' := IoEffect(p, step, open).peer;
    if step.RunPosted? && Live(p') {
      PostedMoves(p.session.accepted, p.posted);
      AddUp(Seen(p), Seen(p'), E.PacketEvents(p.posted), E.PacketEvents(p'.posted), delivering);
    }
  }

  /** The event of the first posted packet, if it carries one, goes from the posted events to the queued ones. */
  lemma PostedMoves(accepted: seq<Packet>, posted: seq<Packet>)
    requires posted != []
    ensures E.PacketEvents(accepted + [posted[0]]) + E.PacketEvents(posted[1..])
         == E.PacketEvents(accepted) + E.PacketEvents(posted)
  {
    hide E.PacketEvents, E.PacketEvent;
    E.PacketEventsCons(posted);
    E.PacketEventsStep(accepted, posted[0]);
  }

  lemma AddUp(seen: seq<R.Event>, seen': seq<R.Event>, posted: seq<R.Event>, posted': seq<R.Event>, rest: seq<R.Event>)
    requires seen' + posted' == seen + posted
    ensures seen' + posted' + rest == seen + posted + rest && seen' <= seen + posted + rest
  {
    assert seen' + posted' + rest == seen' + (posted' + rest);
  }

  /** The acceptor's next id is new. */
  lemma ConnectIsNew(v: Server)
    requires Inv(v)
    ensures v.nextId < 0x1_0000_0000_0000_0000 ==> v.nextId !in v.peers
  {
    hide PeerOk, BroadcastAt;
  }

  lemma OwnId(v: Server, id: SessionId)
    requires Inv(v) && id in v.peers
    ensures v.peers[id].session.id == id
  {
    hide PeerOk, BroadcastAt;
  }

  lemma IoIsReady(v: Server, step: Step)
    requires Inv(v) && IsIo(step) && Enabled(v, step)
    ensures IoReady(v.peers[step.id], step)
  {
    hide M.Inv, BroadcastAt, F.WellFormed, Writer.Conserved, Writer.Bounded;
    assert PeerOk(v, step.id);
    assert Writer.OneWriter(v.peers[step.id].session);
  }

  lemma IoKeepsPeers(v: Server, step: Step)
    requires Inv(v) && IsIo(step) && Enabled(v, step)
    ensures forall id :: id in Next(v, step).peers ==> PeerOk(Next(v, step), id)
  {
    hide M.Inv, Local, IoEffect, BroadcastAt;
    IoIsReady(v, step);
    var v', p, open := Next(v, step), v.peers[step.id], !v.worker.closed;
    assert PeerOk(v, step.id);
    EffectKeepsLocal(p, step, open);
    EffectOnEvents(p, step, open);
    forall id | id in v'.peers
      ensures PeerOk(v', id)
    {
      assert PeerOk(v, id);
    }
  }

  lemma IoKeepsBroadcast(v: Server, step: Step)
    requires Inv(v) && IsIo(step) && Enabled(v, step)
    ensures forall id :: id in Next(v, step).peers ==> BroadcastAt(Next(v, step), id)
  {
    hide M.Inv, PeerOk, IoEffect, R.Visible, Seen, E.PacketEvents, Live;
    IoIsReady(v, step);
    var v', p, open := Next(v, step), v.peers[step.id], !v.worker.closed;
    assert BroadcastAt(v, step.id);
    EffectKeepsBroadcast(p, step, open, BeingDelivered(v, step.id), R.Visible(Published(v), step.id));
    forall id | id in v'.peers
      ensures BroadcastAt(v', id)
    {
      assert BroadcastAt(v, id);
      assert Published(v') == Published(v) && BeingDelivered(v', id) == BeingDelivered(v, id);
    }
  }

  // Steps that change no session's queue.

  /** The two states show every session the same events. */
  ghost predicate SameEvents(v: Server, v': Server)
  {
    && Published(v') == Published(v)
    && v'.peers.Keys == v.peers.Keys
    && (forall id :: id in v.peers ==>
          && v'.peers[id].session == v.peers[id].session && v'.peers[id].posted == v.peers[id].posted
          && (v'.peers[id].alive ==> v.peers[id].alive)
          && BeingDelivered(v', id) == BeingDelivered(v, id))
  }

  lemma SameEventsKeepsBroadcast(v: Server, v': Server)
    requires forall id :: id in v.peers ==> BroadcastAt(v, id)
    requires SameEvents(v, v')
    ensures forall id :: id in v'.peers ==> BroadcastAt(v', id)
  {
  }

  lemma SamePeersKeepsOk(v: Server, v': Server)
    requires forall id :: id in v.peers ==> PeerOk(v, id)
    requires v'.peers == v.peers && v'.busy == v.busy
    requires forall id :: id in v.peers && id in v.registry.sessions && v.peers[id].alive ==> id in v'.registry.sessions
    ensures forall id :: id in v'.peers ==> PeerOk(v', id)
  {
  }

  lemma ApplySameEvents(v: Server)
    requires M.Inv(v) && Enabled(v, Apply)
    ensures SameEvents(v, Next(v, Apply))
  {
    hide M.Inv, R.Apply, IoEffect, Commit, E.EventPacket, G.Collect;
    DeliveryIsHandled(v);
    M.ApplyKeepsInv(v);
    assert Next(v, Apply).worker.log[..|v.worker.log|] == v.worker.log;
  }

  lemma ControlSameEvents(v: Server, step: Step)
    requires M.Inv(v) && WorkerEnabled(v, step) && !step.Apply? && !step.Collect? && !step.Deliver?
    ensures SameEvents(v, Next(v, step))
  {
    hide M.Inv, IoEffect, Commit, R.Apply, E.EventPacket, G.Collect;
    DeliveryIsHandled(v);
    assert Next(v, step).peers == v.peers;
  }

  lemma DeliveryIsHandled(v: Server)
    requires M.Inv(v)
    ensures v.delivery.Some? ==> v.worker.phase.Handling?
    ensures v.worker.phase.Handling? ==> v.worker.log != []
  {
    hide M.IndexOk, M.Known, M.Ids, M.Agrees, W.Ordered;
  }

  /** Steps of the worker and the stopping thread, other than publish's own. */
  lemma WorkerKeepsInv(v: Server, step: Step)
    requires Inv(v) && WorkerEnabled(v, step) && !step.Collect? && !step.Deliver?
    ensures Inv(Next(v, step))
  {
    hide M.Inv, PeerOk, BroadcastAt, R.Apply, SameEvents;
    M.StepKeepsInv(v, step);
    if step.Apply? {
      ApplySameEvents(v);
    } else {
      ControlSameEvents(v, step);
    }
    SameEventsKeepsBroadcast(v, Next(v, step));
    SamePeersKeepsOk(v, Next(v, step));
  }

  lemma UnfoldIndexed(v: Server)
    requires M.Inv(v)
    ensures M.Indexed(v) && W.PhaseOk(v.worker) && M.Known(v)
  {
  }

  lemma ConnectKeepsInv(v: Server)
    requires Inv(v) && Enabled(v, Connect)
    ensures Inv(Next(v, Connect))
  {
    hide M.Inv, R.Visible, Local, E.PacketEvents;
    var v' := Next(v, Connect);
    M.StepKeepsInv(v, Connect);
    NobodyNewIsVisible(v);
    forall id | id in v'.peers
      ensures PeerOk(v', id) && BroadcastAt(v', id)
    {
      assert Published(v') == Published(v) && BeingDelivered(v', id) == BeingDelivered(v, id);
      if id == v.nextId {
        NewPeer(id);
      } else {
        assert PeerOk(v, id) && BroadcastAt(v, id);
      }
    }
  }

  lemma NewPeer(id: SessionId)
    ensures var p := Peer(S.NewSession(id), [], Reading, true);
            Local(p) && Seen(p) == [] && E.PacketEvents(p.posted) == []
  {
  }

  lemma {:induction false} AbsentSeesNothing(log: seq<R.Entry>, id: SessionId)
    requires forall entry :: entry in log ==> id !in entry.after
    ensures R.Visible(log, id) == []
  {
    if log != [] {
      AbsentSeesNothing(log[..|log| - 1], id);
      assert log[|log| - 1] in log;
    }
  }

  lemma NobodyNewIsVisible(v: Server)
    requires M.Inv(v) && v.nextId < 0x1_0000_0000_0000_0000
    ensures R.Visible(Published(v), v.nextId) == [] && BeingDelivered(v, v.nextId) == []
    ensures v.nextId !in v.peers
  {
    UnfoldIndexed(v);
    AbsentSeesNothing(Published(v), v.nextId);
  }

  lemma LeaveServerKeepsEvents(v: Server, step: Step)
    requires Enabled(v, step) && (step.Unregister? || step.Expire?)
    ensures SameEvents(v, Next(v, step))
  {
    hide IoEffect, Commit, R.Apply, E.EventPacket, G.Collect, G.Unregister;
  }

  lemma LeaveServerKeepsInv(v: Server, step: Step)
    requires Inv(v) && Enabled(v, step) && (step.Unregister? || step.Expire?)
    ensures Inv(Next(v, step))
  {
    hide M.Inv, Writer.Inv, F.WellFormed, BroadcastAt, Published, BeingDelivered;
    M.StepKeepsInv(v, step);
    var v' := Next(v, step);
    LeaveServerKeepsEvents(v, step);
    SameEventsKeepsBroadcast(v, v');
    hide SameEvents;
    forall id | id in v'.peers
      ensures PeerOk(v', id)
    {
      assert PeerOk(v, id);
    }
  }

  // Publish.

  /** The entry being published is the last of the log and records the table as it is. */
  lemma LastEntry(v: Server)
    requires M.Inv(v) && v.worker.phase.Handling?
    ensures var log := v.worker.log;
            log != [] && log[|log| - 1] == R.Entry(Event(v), v.worker.players.Keys)
  {
  }

  lemma CollectShows(v: Server, v': Server, id: SessionId)
    requires id in v.peers && id in v'.peers
    requires Enabled(v, Collect) && v' == Next(v, Collect) && Inv(v)
    ensures BroadcastAt(v', id)
  {
    hide M.Inv, R.Visible, E.PacketEvents, Writer.Inv, G.Collect;
    assert BroadcastAt(v, id) && PeerOk(v, id);
    LastEntry(v);
    M.CollectKeepsInv(v);
    var log := v.worker.log;
    assert log == Published(v) + [log[|log| - 1]];
    R.VisibleStep(Published(v), log[|log| - 1], id);
    assert Live(v.peers[id]) ==> (id in v'.delivery.value <==> id in v.worker.players.Keys);
  }

  lemma CollectKeepsInv(v: Server)
    requires Inv(v) && Enabled(v, Collect)
    ensures Inv(Next(v, Collect))
  {
    hide M.Inv, PeerOk, BroadcastAt, G.Collect;
    M.StepKeepsInv(v, Collect);
    forall id | id in v.peers
      ensures BroadcastAt(Next(v, Collect), id)
    {
      CollectShows(v, Next(v, Collect), id);
    }
    SamePeersKeepsOk(v, Next(v, Collect));
  }

  lemma DeliverKeepsInv(v: Server, id: SessionId)
    requires Inv(v) && Enabled(v, Deliver(id))
    ensures Inv(Next(v, Deliver(id)))
  {
    hide M.Inv, R.Visible, E.PacketEvents, E.PacketEvent, E.EventPacket, Writer.Inv, F.WellFormed;
    var v' := Next(v, Deliver(id));
    M.StepKeepsInv(v, Deliver(id));
    E.EventPacketCarries(Event(v));
    E.PacketEventsStep(v.peers[id].posted, E.EventPacket(Event(v)));
    forall other | other in v'.peers
      ensures PeerOk(v', other) && BroadcastAt(v', other)
    {
      assert PeerOk(v, other) && BroadcastAt(v, other);
      assert Published(v') == Published(v);
    }
  }

  // Every step, every run.

  lemma IoKeepsInv(v: Server, step: Step)
    requires Inv(v) && IsIo(step) && Enabled(v, step)
    ensures Inv(Next(v, step))
  {
    hide M.Inv, PeerOk, BroadcastAt;
    M.StepKeepsInv(v, step);
    IoKeepsPeers(v, step);
    IoKeepsBroadcast(v, step);
  }

  lemma StepKeepsInv(v: Server, step: Step)
    requires Inv(v) && Enabled(v, step)
    ensures Inv(Next(v, step))
  {
    hide Inv, Next;
    if IsIo(step) {
      IoKeepsInv(v, step);
    } else {
      match step
      case Connect => ConnectKeepsInv(v);
      case Unregister(_) => LeaveServerKeepsInv(v, step);
      case Expire(_) => LeaveServerKeepsInv(v, step);
      case Collect => CollectKeepsInv(v);
      case Deliver(id) => DeliverKeepsInv(v, id);
      case _ => WorkerKeepsInv(v, step);
    }
  }

  lemma {:induction false} RunKeepsInv(steps: seq<Step>)
    requires Possible(steps)
    ensures Inv(State(steps))
  {
    hide Next, Enabled;
    if steps == [] {
      assert M.JoinedIds(INITIAL) == {};
    } else {
      RunKeepsInv(steps[..|steps| - 1]);
      StepKeepsInv(State(steps[..|steps| - 1]), steps[|steps| - 1]);
    }
  }
}
