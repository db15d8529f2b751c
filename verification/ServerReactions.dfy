/**
 What each step of the running server does to a session and to the command queue, in every reachable state: the
 session's answer to the step, by the bytes it has buffered, the sessions that are joined and the configured limits.
 */
module ServerReactions {
  import opened Bytes
  import opened Common
  import opened OutboundQueue
  import opened ServerSteps
  import B = ServerBroadcast
  import E = RoomEventEncoder
  import I = SessionInput
  import L = SessionLaw
  import M = ServerMembership
  import P = PacketCodec
  import R = Room
  import S = SessionSteps

  /** The answer of the step's session, by who is joined and whether the command queue is open. */
  function AnswerTo(p: Peer, step: Step, members: set<SessionId>, open: bool): L.Answer
    requires IsIo(step) && (step.RunPosted? ==> p.posted != [])
  {
    match step
    case ReadOk(_, _) => L.NOTHING
    case ReadErr(_, error) => L.ErrorAnswer(error)
    case NextPacket(_) => L.TurnAnswer(p.session, members, open)
    case RunPosted(_) => L.PushAnswer(p.session, p.posted[0])
    case StartWriter(_) => L.NOTHING
    case WriteDone(_, _, failed) => if failed then L.StopFor(R.IoError) else L.NOTHING
  }

  function BytesOf(step: Step): seq<Byte>
  {
    if step.ReadOk? then step.bytes else []
  }

  /** run() goes through packets after a read, and on while packets are answered without a refusal. */
  function RunAfter(p: Peer, step: Step, a: L.Answer): Run
    requires IsIo(step)
  {
    match step
    case ReadOk(_, _) => Passing
    case ReadErr(_, _) => Returned
    case NextPacket(_) =>
      if L.FrontOf(p.session.inbox).Waiting? then Reading
      else if a.commands != [] || !(p.session.stopped || a.stop.Some?) then Passing
      else Returned
    case _ => p.run
  }

  ghost predicate Outbound(p: Peer, s': S.Session, step: Step, a: L.Answer)
    requires IsIo(step) && (step.WriteDone? ==> step.transferred <= |Flatten(p.session.batch)|)
  {
    match step
    case StartWriter(_) => L.Wrote(p.session, s', 0, false)
    case WriteDone(_, transferred, failed) => L.Wrote(p.session, s', transferred, failed)
    case _ => L.Outbound(p.session, s', a)
  }

  /** Everything about the peer afterwards. */
  ghost predicate Reacts(p: Peer, p': Peer, step: Step, a: L.Answer)
    requires IsIo(step) && (step.WriteDone? ==> step.transferred <= |Flatten(p.session.batch)|)
  {
    && p'.alive == p.alive
    && p'.posted == (if step.RunPosted? && p.posted != [] then p.posted[1..] else p.posted)
    && p'.run == RunAfter(p, step, a)
    && L.Inbound(p.session, p'.session, BytesOf(step), a)
    && L.Membership(p.session, p'.session, a)
    && Outbound(p, p'.session, step, a)
  }

  lemma EffectReacts(p: Peer, step: Step, members: set<SessionId>, open: bool)
    requires B.Local(p) && IsIo(step) && B.IoReady(p, step) && (p.session.joined <==> p.session.id in members)
    ensures var e, a := IoEffect(p, step, open), AnswerTo(p, step, members, open);
            Reacts(p, e.peer, step, a) && (open ==> e.attempted == L.Submitted(p.session, a))
  {
    hide S.ProcessOne, S.Enqueue, S.WriteCompleted, S.WriterTurn, S.ReadFailed, S.Received, L.Inbound, L.Membership,
         L.Outbound, L.Wrote, L.TurnAnswer, L.PushAnswer, L.Writer.Inv, L.F.WellFormed;
    var s := p.session;
    match step
    case ReadOk(_, bytes) => L.ReadFollows(s, bytes, open);
    case ReadErr(_, error) => L.ErrorFollows(s, error, open);
    case NextPacket(_) =>
      L.TurnFollows(s, members, open);
      L.FollowsStops(s, S.ProcessOne(s, open).0, L.TurnAnswer(s, members, open), open);
    case RunPosted(_) =>
      assert p.posted[0] in p.posted;
      L.EnqueueFollows(s, p.posted[0], open);
    case StartWriter(_) => L.FetchFollows(s);
    case WriteDone(_, transferred, failed) => L.WriteFollows(s, transferred, failed);
  }

  lemma EffectSubmits(p: Peer, step: Step, members: set<SessionId>, open: bool)
    requires B.Local(p) && IsIo(step) && B.IoReady(p, step) && (p.session.joined <==> p.session.id in members)
    ensures open ==> IoEffect(p, step, open).attempted == L.Submitted(p.session, AnswerTo(p, step, members, open))
  {
    hide Reacts, IoEffect, AnswerTo, L.Submitted, B.Local;
    EffectReacts(p, step, members, open);
  }

  /** The answer to a step taken in this state. */
  function Answer(v: Server, step: Step): L.Answer
    requires Enabled(v, step) && IsIo(step)
  {
    AnswerTo(v.peers[step.id], step, M.JoinedIds(v), !v.worker.closed)
  }

  lemma OwnFlag(v: Server, id: SessionId)
    requires B.Inv(v) && id in v.peers
    ensures v.peers[id].session.id == id && B.Local(v.peers[id])
    ensures v.peers[id].session.joined <==> id in M.JoinedIds(v)
  {
    hide M.Inv, B.BroadcastAt;
    B.OwnId(v, id);
    assert B.PeerOk(v, id);
  }

  lemma NewIdIsNew(v: Server, step: Step)
    requires B.Inv(v) && Enabled(v, step)
    ensures step.Connect? ==> v.nextId !in v.peers
  {
    hide B.Inv;
    B.ConnectIsNew(v);
  }

  /** What the other steps do to a peer: a delivery posts its event, run_session ends, the object goes away. */
  ghost predicate Apart(v: Server, p: Peer, p': Peer, step: Step, id: SessionId)
    requires Enabled(v, step)
  {
    && p'.session == p.session
    && p'.posted == p.posted + (if step == Deliver(id) then [E.EventPacket(Event(v))] else [])
    && p'.run == (if step == Unregister(id) then Finished else p.run)
    && p'.alive == (p.alive && step != Expire(id))
  }

  lemma OthersApart(v: Server, step: Step, id: SessionId)
    requires B.Inv(v) && Enabled(v, step) && id in v.peers && !(IsIo(step) && step.id == id)
    ensures id in Next(v, step).peers && Apart(v, v.peers[id], Next(v, step).peers[id], step, id)
  {
    hide Next, Enabled, B.Inv, E.EventPacket;
    NewIdIsNew(v, step);
    StepAt(v, step, id);
    if IsIo(step) {
      OtherPeer(v, step, id);
    } else {
      PostedAt(v, step, id);
      PresenceAt(v, step, id);
    }
  }

  /**
   In every run, a step that is a session's own I/O changes that session exactly as its answer says, and every other
   step leaves the session as it is.
   */
  lemma SessionReacts(steps: seq<Step>, step: Step, id: SessionId)
    requires Possible(steps) && Enabled(State(steps), step) && id in State(steps).peers
    ensures id in Next(State(steps), step).peers
    ensures var v := State(steps);
            var p, p' := v.peers[id], Next(v, step).peers[id];
            if IsIo(step) && step.id == id then Reacts(p, p', step, Answer(v, step)) else Apart(v, p, p', step, id)
  {
    B.RunKeepsInv(steps);
    hide Possible, State, Next, Enabled, B.Inv, B.Local, IoEffect, Reacts, AnswerTo, Apart, M.JoinedIds;
    var v := State(steps);
    if IsIo(step) && step.id == id {
      StepAt(v, step, id);
      OwnFlag(v, id);
      B.IoIsReady(v, step);
      EffectReacts(v.peers[id], step, M.JoinedIds(v), !v.worker.closed);
    } else {
      OthersApart(v, step, id);
    }
  }

  /** In every run, the command queue takes what the step's session submits, and nothing once it is closed. */
  lemma CommandsReact(steps: seq<Step>, step: Step)
    requires Possible(steps) && Enabled(State(steps), step)
    ensures var v, v' := State(steps), Next(State(steps), step);
            && (v'.worker.closed <==> v.worker.closed || step.CloseQueue?)
            && v'.worker.accepted == v.worker.accepted +
                 if IsIo(step) && !v.worker.closed then L.Submitted(v.peers[step.id].session, Answer(v, step)) else []
  {
    B.RunKeepsInv(steps);
    hide Possible, State, Next, Enabled, B.Inv, B.Local, B.IoReady, IoEffect, AnswerTo, L.Submitted, M.JoinedIds;
    var v := State(steps);
    AcceptedAt(v, step);
    ClosedAt(v, step);
    if IsIo(step) {
      OwnFlag(v, step.id);
      B.IoIsReady(v, step);
      EffectSubmits(v.peers[step.id], step, M.JoinedIds(v), !v.worker.closed);
    }
  }

  lemma ClosedAt(v: Server, step: Step)
    requires Enabled(v, step)
    ensures Next(v, step).worker.closed <==> v.worker.closed || step.CloseQueue?
    ensures IsIo(step) ==> step.id in v.peers
  {
    hide IoEffect, R.Apply, E.EventPacket;
  }

  /** The packet at the front cannot be answered: it is no packet, is not allowed, or finds a queue closed or full. */
  predicate Refused(v: Server, id: SessionId)
    requires id in v.peers
  {
    var s := v.peers[id].session;
    match L.FrontOf(s.inbox)
    case Waiting => false
    case Invalid => true
    case First(view) =>
      if view.packetType.Ping? then Total(s.queue) + 6 + |view.payload| > 262144
      else !L.Allowed(M.JoinedIds(v), id, view) || (v.worker.closed && !view.packetType.LeaveRoom?)
  }

  /**
   The steps that stop a running session: a read that fails, a write that fails, a delivery that would exceed the
   queue's 262144 bytes, and a packet that cannot be answered.
   */
  predicate StopStep(v: Server, step: Step, id: SessionId)
    requires Enabled(v, step) && id in v.peers
  {
    match step
    case ReadErr(x, _) => x == id
    case WriteDone(x, _, failed) => x == id && failed
    case RunPosted(x) => x == id && Total(v.peers[id].session.queue) + |v.peers[id].posted[0]| > 262144
    case NextPacket(x) => x == id && Refused(v, id)
    case _ => false
  }

  /** Why they do, as the Leave of a joined session says. */
  function ReasonFor(v: Server, step: Step, id: SessionId): R.Reason
    requires Enabled(v, step) && id in v.peers && StopStep(v, step, id)
  {
    match step
    case ReadErr(_, error) => if error.Eof? then R.ClientClosed else R.IoError
    case WriteDone(_, _, _) => R.IoError
    case RunPosted(_) => R.OutboundOverflow
    case NextPacket(_) =>
      var front := L.FrontOf(v.peers[id].session.inbox);
      if front.First? && front.view.packetType.Ping? then R.OutboundOverflow
      else if front.First? && L.Allowed(M.JoinedIds(v), id, front.view) then R.ServerShutdown
      else R.ProtocolError
  }

  lemma AnswerStops(v: Server, step: Step)
    requires Enabled(v, step) && IsIo(step) && !v.peers[step.id].session.stopped
    requires v.peers[step.id].session.id == step.id
    ensures Answer(v, step).stop ==
            if StopStep(v, step, step.id) then Some(ReasonFor(v, step, step.id)) else None
    ensures Answer(v, step).stop.Some? ==> Answer(v, step).commands == []
  {
    hide M.JoinedIds, L.FrontOf, L.Allowed, Total, Flatten;
  }

  lemma ReactsStopped(p: Peer, p': Peer, step: Step, a: L.Answer)
    requires IsIo(step) && (step.WriteDone? ==> step.transferred <= |Flatten(p.session.batch)|)
    requires Reacts(p, p', step, a)
    ensures p'.session.stopped <==> p.session.stopped || a.stop.Some?
  {
    hide L.Inbound, Outbound;
  }

  lemma StopsAt(v: Server, step: Step, p': Peer)
    requires Enabled(v, step) && IsIo(step) && !v.peers[step.id].session.stopped
    requires v.peers[step.id].session.id == step.id && Reacts(v.peers[step.id], p', step, Answer(v, step))
    ensures p'.session.stopped <==> StopStep(v, step, step.id)
    ensures StopStep(v, step, step.id) ==>
              L.Submitted(v.peers[step.id].session, Answer(v, step)) ==
                if v.peers[step.id].session.joined then [R.Leave(step.id, ReasonFor(v, step, step.id))] else []
  {
    AnswerStops(v, step);
    ReactsStopped(v.peers[step.id], p', step, Answer(v, step));
    hide Enabled, StopStep, ReasonFor, Reacts, Answer;
  }

  lemma OthersStopNothing(v: Server, step: Step, id: SessionId)
    requires Enabled(v, step) && id in v.peers
    ensures StopStep(v, step, id) ==> IsIo(step) && step.id == id
  {
    hide Enabled, Refused;
  }

  lemma RunOwnId(steps: seq<Step>, id: SessionId)
    requires Possible(steps) && id in State(steps).peers
    ensures State(steps).peers[id].session.id == id
  {
    B.RunKeepsInv(steps);
    hide Possible, State, B.Inv;
    B.OwnId(State(steps), id);
  }

  /**
   In every run a session that is running stops by exactly those steps, and if it is joined and the command queue is
   open the last command accepted is then its Leave with exactly that reason.
   */
  lemma StopsExactly(steps: seq<Step>, step: Step, id: SessionId)
    requires Possible(steps) && Enabled(State(steps), step) && id in State(steps).peers
    requires !State(steps).peers[id].session.stopped
    ensures id in Next(State(steps), step).peers
    ensures var v, v' := State(steps), Next(State(steps), step);
            && (v'.peers[id].session.stopped <==> StopStep(v, step, id))
            && (StopStep(v, step, id) ==>
                  v'.worker.accepted == v.worker.accepted +
                    if v.peers[id].session.joined && !v.worker.closed then [R.Leave(id, ReasonFor(v, step, id))] else [])
  {
    SessionReacts(steps, step, id);
    CommandsReact(steps, step);
    RunOwnId(steps, id);
    hide Possible, State, Next, Enabled, Reacts, Answer, StopStep, ReasonFor, L.Submitted;
    var v := State(steps);
    OthersStopNothing(v, step, id);
    if IsIo(step) && step.id == id {
      StopsAt(v, step, Next(v, step).peers[id]);
    }
  }

  /**
   In every run a posted event goes to the end of a running session's queue if that holds no more than 262144 bytes
   with it; otherwise the session stops and loses what was queued.
   */
  lemma DeliveryExactly(steps: seq<Step>, id: SessionId)
    requires Possible(steps) && Enabled(State(steps), RunPosted(id)) && !State(steps).peers[id].session.stopped
    ensures id in Next(State(steps), RunPosted(id)).peers && State(steps).peers[id].posted != []
    ensures var v, v' := State(steps), Next(State(steps), RunPosted(id));
            var p, p' := v.peers[id], v'.peers[id];
            var s, s' := p.session, p'.session;
            && p'.posted == p.posted[1..]
            && (if Total(s.queue) + |p.posted[0]| <= 262144 then
                  && !s'.stopped && s'.accepted == s.accepted + [p.posted[0]] && s'.queue == s.queue + [p.posted[0]]
                  && v'.worker.accepted == v.worker.accepted
                else
                  && s'.stopped && s'.accepted == s.accepted && s'.queue == []
                  && v'.worker.accepted == v.worker.accepted +
                       if s.joined && !v.worker.closed then [R.Leave(s.id, R.OutboundOverflow)] else [])
  {
    SessionReacts(steps, RunPosted(id), id);
    CommandsReact(steps, RunPosted(id));
    hide Possible, State, Next, Total, Flatten, M.JoinedIds, L.Inbound;
  }

  /**
   What becomes of a running session and of the open command queue for the packet at the front of its bytes, where
   members are the sessions that are joined.
   */
  ghost predicate Answered(s: S.Session, members: set<SessionId>, view: P.PacketView, s': S.Session,
                           submitted: seq<R.Command>)
  {
    var asked, size := I.CommandFor(s.id, view), 6 + |view.payload|;
    && size <= |s.inbox|
    && (if view.packetType.Ping? && Total(s.queue) + size <= 262144 then
          && !s'.stopped && s'.inbox == s.inbox[size..] && s'.accepted == s.accepted + [P.Packet(P.Ping, view.payload)]
          && submitted == []
        else if view.packetType.Ping? then
          && s'.stopped && s'.inbox == s.inbox[size..] && s'.accepted == s.accepted
          && submitted == if s.joined then [R.Leave(s.id, R.OutboundOverflow)] else []
        else if asked != [] && R.Accepts(members, asked[0]) then
          && !s'.stopped && s'.inbox == s.inbox[size..] && s'.accepted == s.accepted
          && submitted == asked
        else
          && s'.stopped && s'.inbox == s.inbox && s'.accepted == s.accepted
          && submitted == if s.joined then [R.Leave(s.id, R.ProtocolError)] else [])
  }

  lemma PacketOutcome(s: S.Session, members: set<SessionId>, view: P.PacketView, s': S.Session, a: L.Answer)
    requires !s.stopped && view.consumed == 6 + |view.payload| <= |s.inbox|
    requires a == L.PacketAnswer(s, view, members, true)
    requires L.Consumed(a.taken) <= |s.inbox| && s'.inbox == s.inbox[L.Consumed(a.taken)..]
    requires s'.accepted == s.accepted + a.queued && s'.stopped == a.stop.Some?
    ensures Answered(s, members, view, s', L.Submitted(s, a))
  {
    hide Total, P.Packet, I.CommandFor;
    PingSize(view.payload);
    L.OneConsumed(view);
    assert s.inbox[0..] == s.inbox;
  }

  lemma AnswerIs(v: Server, id: SessionId, view: P.PacketView)
    requires Enabled(v, NextPacket(id)) && !v.worker.closed && L.FrontOf(v.peers[id].session.inbox) == L.First(view)
    ensures Answer(v, NextPacket(id)) == L.PacketAnswer(v.peers[id].session, view, M.JoinedIds(v), true)
    ensures view.consumed <= |v.peers[id].session.inbox|
  {
    hide L.FrontOf, L.PacketAnswer, M.JoinedIds;
    L.FrontFits(v.peers[id].session.inbox);
  }

  lemma PacketParts(p: Peer, p': Peer, step: Step, a: L.Answer)
    requires step.NextPacket? && Reacts(p, p', step, a)
    ensures L.Consumed(a.taken) <= |p.session.inbox| && p'.session.inbox == p.session.inbox[L.Consumed(a.taken)..]
    ensures p'.session.accepted == p.session.accepted + a.queued
    ensures p'.session.stopped == (p.session.stopped || a.stop.Some?)
  {
    var rest := p.session.inbox[L.Consumed(a.taken)..];
    assert rest + [] == rest;
  }

  lemma PingSize(payload: seq<Byte>)
    ensures |P.Packet(P.Ping, payload)| == 6 + |payload|
  {
  }

  /**
   In every run, with the command queue open, a running session answers the packet at the front of its bytes, of any
   type and with any payload of up to 65536 bytes, like this: a Ping is echoed if the outbound queue then holds no
   more than 262144 bytes, a command is submitted if the Room with the joined sessions as its members would accept
   it, and everything else stops the session.
   */
  lemma PacketExactly(steps: seq<Step>, id: SessionId, t: P.PacketType, payload: seq<Byte>, rest: seq<Byte>)
    requires Possible(steps) && Enabled(State(steps), NextPacket(id)) && !State(steps).worker.closed
    requires var s := State(steps).peers[id].session;
             !s.stopped && s.inbox == P.Packet(t, payload) + rest && |payload| <= 65536
    ensures id in Next(State(steps), NextPacket(id)).peers
    ensures var v, v' := State(steps), Next(State(steps), NextPacket(id));
            && v.worker.accepted <= v'.worker.accepted
            && v.peers[id].session.id == id
            && Answered(v.peers[id].session, M.JoinedIds(v), P.PacketView(t, payload, 6 + |payload|),
                        v'.peers[id].session, v'.worker.accepted[|v.worker.accepted|..])
  {
    SessionReacts(steps, NextPacket(id), id);
    CommandsReact(steps, NextPacket(id));
    RunOwnId(steps, id);
    FrontIs(State(steps).peers[id].session, t, payload, rest);
    var v, view := State(steps), P.PacketView(t, payload, 6 + |payload|);
    var p, p' := v.peers[id], Next(v, NextPacket(id)).peers[id];
    AnswerIs(v, id, view);
    hide Possible, State, Next, Reacts, Answer, Answered, P.Packet, L.FrontOf, L.Submitted, L.PacketAnswer, M.JoinedIds;
    PacketParts(p, p', NextPacket(id), Answer(v, NextPacket(id)));
    PacketOutcome(p.session, M.JoinedIds(v), view, p'.session, Answer(v, NextPacket(id)));
  }

  lemma FrontIs(s: S.Session, t: P.PacketType, payload: seq<Byte>, rest: seq<Byte>)
    requires s.inbox == P.Packet(t, payload) + rest && |payload| <= 65536
    ensures L.FrontOf(s.inbox) == L.First(P.PacketView(t, payload, 6 + |payload|))
  {
    hide L.FrontOf, P.Packet;
    L.FrontExactly(s.inbox, t, payload);
  }

  /**
   In every run a session that waits for a read takes any read of up to 4096 bytes, and no larger one: it has at most
   65541 bytes buffered, keeps them and goes through its packets.
   */
  lemma ReadsAreTaken(steps: seq<Step>, id: SessionId, bytes: seq<Byte>)
    requires Possible(steps) && id in State(steps).peers
    requires var p := State(steps).peers[id]; p.alive && p.run.Reading? && State(steps).busy.None?
    ensures Enabled(State(steps), ReadOk(id, bytes)) <==> |bytes| <= 4096
    ensures |bytes| <= 4096 ==>
              var v, v' := State(steps), Next(State(steps), ReadOk(id, bytes));
              var s, s' := v.peers[id].session, v'.peers[id].session;
              && |s.inbox| <= 65541 && s'.inbox == s.inbox + bytes && s'.received == s.received + bytes
              && s'.stopped == s.stopped && v'.peers[id].run.Passing? && v'.worker.accepted == v.worker.accepted
  {
    if |bytes| <= 4096 {
      SessionReacts(steps, ReadOk(id, bytes), id);
      CommandsReact(steps, ReadOk(id, bytes));
      ShortInbox(steps, id);
      hide Possible, State, Next, L.Outbound;
    }
  }

  lemma ShortInbox(steps: seq<Step>, id: SessionId)
    requires Possible(steps) && id in State(steps).peers && State(steps).peers[id].run.Reading?
    ensures |State(steps).peers[id].session.inbox| <= 65541
  {
    B.RunKeepsInv(steps);
    hide Possible, State, M.Inv, B.BroadcastAt, L.Writer.Inv;
    assert B.PeerOk(State(steps), id);
  }

  // The registry.

  ghost predicate Enrolled(v: Server, id: SessionId)
  {
    && (id in v.registry.sessions ==> id in v.peers && !v.peers[id].run.Finished?)
    && (id in v.peers && v.peers[id].alive && !v.peers[id].run.Finished? ==> id in v.registry.sessions)
  }

  lemma EffectKeepsPresence(p: Peer, step: Step, open: bool)
    requires IsIo(step) && B.IoReady(p, step)
    ensures var p' := IoEffect(p, step, open).peer;
            p'.alive == p.alive && (p'.run.Finished? <==> p.run.Finished?)
  {
    hide S.ProcessOne, S.Enqueue, S.WriteCompleted, S.WriterTurn, S.ReadFailed, S.Received, Flatten;
  }

  lemma IoKeepsEnrolled(v: Server, step: Step, id: SessionId)
    requires B.Inv(v) && Enabled(v, step) && IsIo(step) && Enrolled(v, id)
    ensures Enrolled(Next(v, step), id)
  {
    hide Next, Enabled, B.Inv, IoEffect, SubmitAll, B.IoReady;
    IoAside(v, step);
    B.IoIsReady(v, step);
    if id in v.peers {
      StepAt(v, step, id);
      if id == step.id {
        EffectKeepsPresence(v.peers[id], step, !v.worker.closed);
      } else {
        OtherPeer(v, step, id);
      }
    } else if id in Next(v, step).peers {
      StepIsNew(v, step, id);
    }
  }

  lemma OthersKeepEnrolled(v: Server, step: Step, id: SessionId)
    requires B.Inv(v) && Enabled(v, step) && !IsIo(step) && Enrolled(v, id)
    ensures Enrolled(Next(v, step), id)
  {
    RegistryAt(v, step);
    NewIdIsNew(v, step);
    hide Next, B.Inv;
    if id in v.peers {
      PresenceAt(v, step, id);
    } else if id in Next(v, step).peers {
      StepIsNew(v, step, id);
    } else if step.Connect? {
      NewIsThere(v);
    }
  }

  lemma NewIsThere(v: Server)
    requires Enabled(v, Connect)
    ensures v.nextId in Next(v, Connect).peers
  {
  }

  /**
   In every run a registered session has not been unregistered, and every session that exists and has not been
   unregistered is registered.
   */
  lemma {:induction false} RegisteredExactly(steps: seq<Step>, id: SessionId)
    requires Possible(steps)
    ensures var v := State(steps);
            && (id in v.registry.sessions ==> id in v.peers && !v.peers[id].run.Finished?)
            && (id in v.peers && v.peers[id].alive && !v.peers[id].run.Finished? ==> id in v.registry.sessions)
  {
    if steps != [] {
      var init, last := steps[..|steps| - 1], steps[|steps| - 1];
      RegisteredExactly(init, id);
      B.RunKeepsInv(init);
      hide Next, Enabled, B.Inv;
      if IsIo(last) {
        IoKeepsEnrolled(State(init), last, id);
      } else {
        OthersKeepEnrolled(State(init), last, id);
      }
    }
  }
}
