/** Three views of who is in the Room: the sessions' joined flags, the Room's table and the registry's index. */
module ServerMembership {
  import opened Common
  import opened ServerSteps
  import G = SessionRegistry
  import E = RoomEventEncoder
  import R = Room
  import S = SessionSteps
  import W = RoomWorkerSteps

  function JoinedIds(v: Server): set<SessionId>
  {
    set id | id in v.peers && v.peers[id].session.joined
  }

  ghost predicate Inv(v: Server)
  {
    && W.Inv(v.worker)
    && Ids(v)
    && Known(v)
    && v.worker.rejected == 0
    && Agrees(v.worker.players.Keys, W.Outstanding(v.worker), JoinedIds(v), !v.worker.closed)
    && Indexed(v)
  }

  /** Session ids come from the acceptor's counter, so they are never reused. */
  ghost predicate Ids(v: Server)
  {
    && (forall id :: id in v.peers ==> id < v.nextId && v.peers[id].session.id == id)
    && v.registry.sessions <= v.peers.Keys
  }

  /** Only sessions that connected appear in commands, in the table and in the log. */
  ghost predicate Known(v: Server)
  {
    && (forall c :: c in v.worker.pending ==> c.id in v.peers)
    && (v.worker.phase.Popped? ==> v.worker.phase.command.id in v.peers)
    && (v.worker.phase.Handling? ==> v.worker.phase.event.id in v.peers)
    && v.worker.players.Keys <= v.peers.Keys
    && (forall entry :: entry in v.worker.log ==> entry.after <= v.peers.Keys)
    && (v.delivery.Some? ==> v.delivery.value <= v.peers.Keys)
  }

  /**
   Replaying the outstanding commands on the table meets no rejection, and while the queue is open it ends
   with exactly the joined sessions; once it is closed, Leaves may be lost but never Joins.
   */
  ghost predicate Agrees(members: set<SessionId>, outstanding: seq<R.Command>, joined: set<SessionId>, open: bool)
  {
    && R.AllAccepted(members, outstanding)
    && (if open then R.AfterAll(members, outstanding) == joined else joined <= R.AfterAll(members, outstanding))
  }

  ghost predicate Indexed(v: Server)
  {
    && (v.delivery.Some? ==> v.worker.phase.Handling?)
    && IndexOk(v.registry, v.worker.players.Keys, Unpublished(v))
  }

  /** The event that is applied but whose publish has not yet taken the lock. */
  function Unpublished(v: Server): Option<R.Event>
  {
    if v.worker.phase.Handling? && v.delivery.None? then Some(v.worker.phase.event) else None
  }

  /** The registry's index is the table restricted to connected sessions, once the unpublished event is counted in. */
  ghost predicate IndexOk(registry: G.Registry, players: set<SessionId>, unpublished: Option<R.Event>)
  {
    && G.Valid(registry)
    && (if unpublished.Some?
        then R.MembersAfter(registry.members, unpublished.value) * registry.sessions == players * registry.sessions
        else registry.members == players * registry.sessions)
  }

  lemma IndexRegister(r: G.Registry, players: set<SessionId>, unpublished: Option<R.Event>, id: SessionId)
    requires IndexOk(r, players, unpublished) && id !in players && id !in r.sessions
    requires unpublished.Some? ==> unpublished.value.id != id
    ensures IndexOk(G.Register(r, id), players, unpublished)
  {
    assert players * (r.sessions + {id}) == players * r.sessions;
    if unpublished.Some? {
      var members := R.MembersAfter(r.members, unpublished.value);
      assert members * (r.sessions + {id}) == members * r.sessions;
    }
  }

  lemma IndexUnregister(r: G.Registry, players: set<SessionId>, unpublished: Option<R.Event>, id: SessionId)
    requires IndexOk(r, players, unpublished)
    ensures IndexOk(G.Unregister(r, id), players, unpublished)
  {
    var r' := G.Unregister(r, id);
    if unpublished.Some? {
      assert R.MembersAfter(r'.members, unpublished.value) * r'.sessions
          == R.MembersAfter(r.members, unpublished.value) * r.sessions - {id};
      assert players * r'.sessions == players * r.sessions - {id};
    }
  }

  lemma IndexApply(r: G.Registry, players: set<SessionId>, event: R.Event)
    requires IndexOk(r, players, None)
    ensures IndexOk(r, R.MembersAfter(players, event), Some(event))
  {
  }

  /** publish's locked section brings the index up to date and finds exactly the connected, living players. */
  lemma IndexCollect(r: G.Registry, players: set<SessionId>, event: R.Event, alive: set<SessionId>)
    requires IndexOk(r, players, Some(event))
    ensures IndexOk(G.Collect(r, event, alive), players, None)
    ensures G.Collect(r, event, alive).members == players * r.sessions * alive
  {
  }

  // I/O steps.

  lemma SubmitAllKeepsInv(w: W.Worker, commands: seq<R.Command>)
    requires W.Inv(w)
    ensures W.Inv(SubmitAll(w, commands))
  {
    hide R.Replay;
    if !w.closed {
      var w' := SubmitAll(w, commands);
      assert w'.accepted[..w.processed] == w.accepted[..w.processed];
      assert w'.accepted[w.processed..] == w.accepted[w.processed..] + commands;
      assert W.Outstanding(w') == W.Outstanding(w) + commands;
    }
  }

  lemma TracksAgrees(members: set<SessionId>, outstanding: seq<R.Command>, joined: set<SessionId>, open: bool,
                     s: S.Session, out: S.Out, joined': set<SessionId>)
    requires Agrees(members, outstanding, joined, open)
    requires S.Tracks(s, out, open) && (s.joined <==> s.id in joined)
    requires joined' == if out.session.joined then joined + {s.id} else joined - {s.id}
    ensures Agrees(members, if open then outstanding + out.attempted else outstanding, joined', open)
  {
    if open && out.attempted == [] {
      assert outstanding + out.attempted == outstanding;
      assert joined' == joined;
    } else if open {
      assert out.attempted == [out.attempted[0]];
      R.AcceptedAppend(members, outstanding, out.attempted[0]);
      assert joined' == R.After(joined, out.attempted[0]);
    }
  }

  lemma EffectTracks(p: Peer, step: Step, open: bool)
    requires IsIo(step)
    requires step.RunPosted? ==> p.posted != []
    requires step.StartWriter? ==> p.session.writers > 0
    requires step.WriteDone? ==> p.session.writers > 0 && step.transferred <= |Flatten(p.session.batch)|
    ensures var e := IoEffect(p, step, open);
            S.Tracks(p.session, S.Out(e.peer.session, e.attempted), open)
  {
    hide S.ProcessOne, S.Enqueue, S.WriteCompleted, S.Received, S.ReadFailed;
    match step
    case ReadOk(_, bytes) => S.ReadTracks(p.session, bytes, S.Eof, open);
    case ReadErr(_, error) => S.ReadTracks(p.session, [], error, open);
    case NextPacket(_) => S.ProcessTracks(p.session, open);
    case RunPosted(_) => S.EnqueueTracks(p.session, p.posted[0], open);
    case StartWriter(_) =>
    case WriteDone(_, transferred, failed) => S.WriteTracks(p.session, transferred, failed, open);
  }

  lemma JoinedAfterUpdate(v: Server, id: SessionId, peer: Peer)
    requires id in v.peers
    ensures JoinedIds(v.(peers := v.peers[id := peer])) ==
            if peer.session.joined then JoinedIds(v) + {id} else JoinedIds(v) - {id}
    ensures v.peers[id].session.joined <==> id in JoinedIds(v)
  {
  }

  lemma CommitKeepsAgreement(v: Server, id: SessionId, e: Effect)
    requires Inv(v) && id in v.peers
    requires S.Tracks(v.peers[id].session, S.Out(e.peer.session, e.attempted), !v.worker.closed)
    ensures var v' := Commit(v, id, e);
            Agrees(v'.worker.players.Keys, W.Outstanding(v'.worker), JoinedIds(v'), !v'.worker.closed)
  {
    hide R.AllAccepted, R.AfterAll, W.Inv, S.Tracks, Indexed, Known, JoinedIds;
    var v' := Commit(v, id, e);
    JoinedAfterUpdate(v, id, e.peer);
    assert JoinedIds(v') == JoinedIds(v.(peers := v.peers[id := e.peer])) by { JoinedIgnoresWorker(v', v.worker); }
    if !v.worker.closed {
      assert W.Outstanding(v'.worker) == W.Outstanding(v.worker) + e.attempted;
    }
    TracksAgrees(v.worker.players.Keys, W.Outstanding(v.worker), JoinedIds(v), !v.worker.closed,
                 v.peers[id].session, S.Out(e.peer.session, e.attempted), JoinedIds(v'));
  }

  lemma JoinedIgnoresWorker(v: Server, worker: W.Worker)
    ensures JoinedIds(v.(worker := worker)) == JoinedIds(v)
  {
  }

  lemma CommitKeepsInv(v: Server, id: SessionId, e: Effect)
    requires Inv(v) && id in v.peers
    requires S.Tracks(v.peers[id].session, S.Out(e.peer.session, e.attempted), !v.worker.closed)
    ensures Inv(Commit(v, id, e))
  {
    hide W.Inv, R.AllAccepted, R.AfterAll, JoinedIds, IndexOk, S.Tracks;
    CommitKeepsAgreement(v, id, e);
    KnownAfterCommit(v, id, e);
    SubmitAllKeepsInv(v.worker, e.attempted);
  }

  lemma KnownAfterCommit(v: Server, id: SessionId, e: Effect)
    requires Inv(v) && id in v.peers
    requires S.Tracks(v.peers[id].session, S.Out(e.peer.session, e.attempted), !v.worker.closed)
    ensures Known(Commit(v, id, e)) && Ids(Commit(v, id, e))
  {
    hide W.Inv, R.AllAccepted, R.AfterAll, JoinedIds, IndexOk, Agrees;
    assert Commit(v, id, e).peers.Keys == v.peers.Keys;
  }

  lemma IoKeepsInv(v: Server, step: Step)
    requires Inv(v) && IsIo(step) && Enabled(v, step)
    ensures Inv(Next(v, step))
  {
    hide IoEffect, Commit, S.Tracks, W.Inv, R.AllAccepted, R.AfterAll;
    var e := IoEffect(v.peers[step.id], step, !v.worker.closed);
    EffectTracks(v.peers[step.id], step, !v.worker.closed);
    CommitKeepsInv(v, step.id, e);
    BusyIsIrrelevant(Commit(v, step.id, e), Next(v, step).busy);
  }

  lemma BusyIsIrrelevant(v: Server, busy: Option<SessionId>)
    requires Inv(v)
    ensures Inv(v.(busy := busy))
  {
    assert JoinedIds(v.(busy := busy)) == JoinedIds(v);
  }

  // Registry and lifetime steps.

  lemma ConnectKeepsInv(v: Server)
    requires Inv(v) && Enabled(v, Connect)
    ensures Inv(Next(v, Connect))
  {
    hide W.Inv, W.Outstanding, R.AllAccepted, R.AfterAll, IndexOk, G.Register, Ids, Known, JoinedIds;
    ConnectKeepsIds(v);
    IndexRegister(v.registry, v.worker.players.Keys, Unpublished(v), v.nextId);
  }

  lemma ConnectKeepsIds(v: Server)
    requires Inv(v) && Enabled(v, Connect)
    ensures var v' := Next(v, Connect); Ids(v') && Known(v') && JoinedIds(v') == JoinedIds(v)
    ensures v.nextId !in v.worker.players.Keys && v.nextId !in v.registry.sessions
    ensures Unpublished(v).Some? ==> Unpublished(v).value.id != v.nextId
  {
    hide W.Inv, Agrees, Indexed;
    var v' := Next(v, Connect);
    assert v.nextId !in v.peers && v.peers.Keys <= v'.peers.Keys;
  }

  lemma LeaveServerKeepsInv(v: Server, step: Step)
    requires Inv(v) && Enabled(v, step) && (step.Unregister? || step.Expire?)
    ensures Inv(Next(v, step))
  {
    hide W.Inv, W.Outstanding, Agrees, IndexOk, G.Unregister, Ids, Known, JoinedIds, IoEffect, Commit;
    LeaveServerKeepsIds(v, step);
    IndexUnregister(v.registry, v.worker.players.Keys, Unpublished(v), step.id);
  }

  lemma LeaveServerKeepsIds(v: Server, step: Step)
    requires Inv(v) && Enabled(v, step) && (step.Unregister? || step.Expire?)
    ensures var v' := Next(v, step); Ids(v') && Known(v') && JoinedIds(v') == JoinedIds(v)
  {
    hide W.Inv, Agrees, Indexed, IoEffect, Commit;
    var v' := Next(v, step);
    assert v'.peers.Keys == v.peers.Keys;
    assert forall id :: id in v.peers ==> v'.peers[id].session == v.peers[id].session;
  }

  // Worker steps.

  lemma FirstAgrees(members: set<SessionId>, outstanding: seq<R.Command>, joined: set<SessionId>, open: bool)
    requires Agrees(members, outstanding, joined, open) && outstanding != []
    ensures R.Accepts(members, outstanding[0])
    ensures Agrees(R.After(members, outstanding[0]), outstanding[1..], joined, open)
  {
  }

  lemma AppliedMembers(players: R.Players, command: R.Command)
    requires R.Accepts(players.Keys, command)
    ensures var (players', result) := R.Apply(players, command);
            && result.Success? && result.value.id == command.id
            && players'.Keys == R.After(players.Keys, command) == R.MembersAfter(players.Keys, result.value)
  {
  }

  lemma ApplyKeepsInv(v: Server)
    requires Inv(v) && Enabled(v, Apply)
    ensures Inv(Next(v, Apply))
    ensures Next(v, Apply).worker.phase.Handling?
  {
    hide W.Inv, R.AllAccepted, R.AfterAll, R.Apply, Agrees, IndexOk, IoEffect, Commit, E.EventPacket;
    var w, v' := v.worker, Next(v, Apply);
    W.ApplyKeepsInv(w);
    var outstanding := W.Outstanding(w);
    assert outstanding[0] == w.phase.command && outstanding[1..] == w.pending;
    FirstAgrees(w.players.Keys, outstanding, JoinedIds(v), !w.closed);
    AppliedMembers(w.players, w.phase.command);
    IndexApply(v.registry, w.players.Keys, v'.worker.phase.event);
    assert W.Outstanding(v'.worker) == w.pending;
    assert JoinedIds(v') == JoinedIds(v);
  }

  lemma CollectKeepsInv(v: Server)
    requires Inv(v) && Enabled(v, Collect)
    ensures Inv(Next(v, Collect))
    ensures Next(v, Collect).delivery.value == v.worker.players.Keys * v.registry.sessions * Alive(v)
  {
    hide W.Inv, R.AllAccepted, R.AfterAll, IndexOk, Alive, G.Collect, G.Expired, R.MembersAfter;
    assert JoinedIds(Next(v, Collect)) == JoinedIds(v);
    IndexCollect(v.registry, v.worker.players.Keys, Event(v), Alive(v));
  }

  lemma DeliverKeepsInv(v: Server, id: SessionId)
    requires Inv(v) && Enabled(v, Deliver(id))
    ensures Inv(Next(v, Deliver(id)))
  {
    hide W.Inv, W.Outstanding, Agrees, IndexOk, IoEffect, Commit, E.EventPacket, R.Apply;
    var v' := Next(v, Deliver(id));
    assert v'.peers.Keys == v.peers.Keys;
    assert forall d :: d in v.peers ==> v'.peers[d].session == v.peers[d].session;
    assert JoinedIds(v') == JoinedIds(v);
  }

  lemma PopKeepsInv(v: Server)
    requires Inv(v) && Enabled(v, Pop)
    ensures Inv(Next(v, Pop))
  {
    hide W.Inv, R.AllAccepted, R.AfterAll, IndexOk, IoEffect, Commit, E.EventPacket, R.Apply;
    var w, v' := v.worker, Next(v, Pop);
    W.StepKeepsInv(w, W.Pop);
    JoinedIgnoresWorker(v, v'.worker);
    if w.pending != [] {
      assert w.pending[0] in w.pending;
      assert W.Outstanding(v'.worker) == W.Outstanding(w);
    }
  }

  /** The steps that only move the worker's own flags and counters. */
  lemma ControlKeepsInv(v: Server, step: Step, ws: W.Step)
    requires Inv(v) && WorkerEnabled(v, step)
    requires match step
             case HandlerDone => ws == W.FinishHandler(false)
             case CloseQueue => ws == W.Close
             case RequestStop => ws == W.RequestStop
             case JoinWorker => ws == W.JoinThread
             case _ => false
    ensures Inv(Next(v, step))
  {
    hide W.Inv, R.AllAccepted, R.AfterAll, IndexOk, IoEffect, Commit, R.Apply;
    W.StepKeepsInv(v.worker, ws);
    assert JoinedIds(Next(v, step)) == JoinedIds(v);
  }

  lemma StepKeepsInv(v: Server, step: Step)
    requires Inv(v) && Enabled(v, step)
    ensures Inv(Next(v, step))
  {
    hide Inv, Next;
    if IsIo(step) {
      IoKeepsInv(v, step);
    } else {
      match step
      case Connect => ConnectKeepsInv(v);
      case Unregister(_) => LeaveServerKeepsInv(v, step);
      case Expire(_) => LeaveServerKeepsInv(v, step);
      case Pop => PopKeepsInv(v);
      case Apply => ApplyKeepsInv(v);
      case Collect => CollectKeepsInv(v);
      case Deliver(id) => DeliverKeepsInv(v, id);
      case HandlerDone => ControlKeepsInv(v, step, W.FinishHandler(false));
      case CloseQueue => ControlKeepsInv(v, step, W.Close);
      case RequestStop => ControlKeepsInv(v, step, W.RequestStop);
      case JoinWorker => ControlKeepsInv(v, step, W.JoinThread);
    }
  }
}
