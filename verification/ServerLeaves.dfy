/**
 Leave balance: whether a stopped session has given its place in the Room back. Its joined flag is off unless a read
 that had already completed is resumed after the stop and its bytes hold another Join; the exact condition is
 Lingers. The Room itself follows the flag while the command queue is open; once it is closed, Leaves are refused and
 the Room keeps whoever was joined at the close.
 */
module ServerLeaves {
  import opened Bytes
  import opened Common
  import opened OutboundQueue
  import opened ServerSteps
  import B = ServerBroadcast
  import M = ServerMembership
  import P = PacketCodec
  import R = Room
  import S = SessionSteps
  import T = ServerTheorems
  import W = RoomWorkerSteps
  import Writer = SessionWriter

  predicate JoinIsNext(inbox: seq<Byte>)
  {
    && inbox != []
    && var r := P.DecodeOne(inbox);
    && r.Success? && r.value.packetType.JoinRoom? && r.value.payload == []
  }

  /** A stopped session is about to process a valid Join that the Room will take. */
  predicate LateJoin(v: Server, step: Step, id: SessionId)
  {
    && step == NextPacket(id) && id in v.peers
    && v.peers[id].session.stopped && !v.peers[id].session.joined
    && !v.worker.closed && JoinIsNext(v.peers[id].session.inbox)
  }

  predicate StoppedButJoined(s: S.Session)
  {
    s.stopped && s.joined
  }

  lemma ProcessLateJoin(s: S.Session, open: bool)
    requires !StoppedButJoined(s)
    ensures StoppedButJoined(S.ProcessOne(s, open).0.session) <==>
            s.stopped && !s.joined && open && JoinIsNext(s.inbox)
  {
    hide P.DecodeOne;
    if s.inbox != [] && P.DecodeOne(s.inbox).Success? {
      HandleLateJoin(s, P.DecodeOne(s.inbox).value, open);
    }
  }

  lemma HandleLateJoin(s: S.Session, view: P.PacketView, open: bool)
    requires !StoppedButJoined(s) && view.consumed <= |s.inbox|
    ensures StoppedButJoined(S.HandlePacket(s, view, open).0.session) <==>
            s.stopped && !s.joined && open && view.packetType.JoinRoom? && view.payload == []
  {
  }

  lemma OthersNeverJoin(s: S.Session, packet: Packet, bytes: seq<Byte>, error: S.ReadError)
    requires !StoppedButJoined(s)
    ensures !StoppedButJoined(S.Enqueue(s, packet).0.session)
    ensures !StoppedButJoined(S.Received(s, bytes).0.session)
    ensures !StoppedButJoined(S.ReadFailed(s, error).session)
  {
  }

  lemma WritesNeverJoin(s: S.Session, transferred: nat, failed: bool)
    requires !StoppedButJoined(s) && s.writers > 0 && transferred <= |Flatten(s.batch)|
    ensures !StoppedButJoined(S.WriteCompleted(s, transferred, failed).session)
    ensures !StoppedButJoined(S.WriterTurn(s))
  {
  }

  lemma EffectLateJoin(p: Peer, step: Step, open: bool)
    requires IsIo(step) && B.IoReady(p, step) && !StoppedButJoined(p.session)
    ensures StoppedButJoined(IoEffect(p, step, open).peer.session) <==>
            step.NextPacket? && p.session.stopped && !p.session.joined && open && JoinIsNext(p.session.inbox)
  {
    hide S.ProcessOne, S.Enqueue, S.WriteCompleted, S.WriterTurn, S.ReadFailed, S.Received, JoinIsNext;
    var s := p.session;
    match step
    case ReadOk(_, bytes) => OthersNeverJoin(s, [], bytes, S.Eof);
    case ReadErr(_, error) => OthersNeverJoin(s, [], [], error);
    case NextPacket(_) => ProcessLateJoin(s, open);
    case RunPosted(_) => OthersNeverJoin(s, p.posted[0], [], S.Eof);
    case StartWriter(_) => WritesNeverJoin(s, 0, false);
    case WriteDone(_, transferred, failed) => WritesNeverJoin(s, transferred, failed);
  }

  /** From any state in which a session is not both stopped and joined, only a late Join makes it so, and it always does. */
  lemma LateJoinIsTheOnlyWay(v: Server, step: Step, id: SessionId)
    requires B.Inv(v) && Enabled(v, step)
    requires id in v.peers ==> !StoppedButJoined(v.peers[id].session)
    ensures id in Next(v, step).peers && StoppedButJoined(Next(v, step).peers[id].session) <==> LateJoin(v, step, id)
  {
    hide B.Inv, IoEffect, JoinIsNext, Next;
    B.ConnectIsNew(v);
    if id in v.peers {
      StepAt(v, step, id);
      if IsIo(step) && step.id == id {
        B.IoIsReady(v, step);
        EffectLateJoin(v.peers[id], step, !v.worker.closed);
      }
    } else if id in Next(v, step).peers {
      StepIsNew(v, step, id);
    }
  }

  /** No step of the run was a late Join of this session. */
  ghost predicate NoLateJoin(steps: seq<Step>, id: SessionId)
    requires Possible(steps)
  {
    steps == [] ||
    (NoLateJoin(steps[..|steps| - 1], id) && !LateJoin(State(steps[..|steps| - 1]), steps[|steps| - 1], id))
  }

  lemma {:induction false} NoLateJoinKeepsApart(steps: seq<Step>, id: SessionId)
    requires Possible(steps) && NoLateJoin(steps, id)
    ensures id in State(steps).peers ==> !StoppedButJoined(State(steps).peers[id].session)
  {
    if steps != [] {
      var init, last := steps[..|steps| - 1], steps[|steps| - 1];
      NoLateJoinKeepsApart(init, id);
      B.RunKeepsInv(init);
      hide Next, Enabled, LateJoin, B.Inv;
      LateJoinIsTheOnlyWay(State(init), last, id);
    }
  }

  /**
   In every run without a late Join of the session: once run() has returned the session is stopped and out, and
   it has attempted exactly one Leave for each accepted Join, whichever and however many paths stopped it.
   */
  lemma LeaveBalance(steps: seq<Step>, id: SessionId)
    requires Possible(steps) && NoLateJoin(steps, id) && id in State(steps).peers
    ensures var p := State(steps).peers[id];
            && (p.run.Returned? || p.run.Finished? ==> p.session.stopped)
            && (p.session.stopped ==> !p.session.joined && p.session.joins == p.session.leaves)
            && (!p.session.stopped ==> p.session.joins == p.session.leaves + if p.session.joined then 1 else 0)
  {
    NoLateJoinKeepsApart(steps, id);
    B.RunKeepsInv(steps);
    hide Possible, State, NoLateJoin, M.Inv, B.BroadcastAt;
    assert B.PeerOk(State(steps), id);
  }

  // Exactly which runs leave a stopped session joined, and which leave it in the Room.

  predicate LeaveIsNext(inbox: seq<Byte>)
  {
    && inbox != []
    && var r := P.DecodeOne(inbox);
    && r.Success? && r.value.packetType.LeaveRoom? && r.value.payload == []
  }

  /** The session is about to process a valid Leave. */
  predicate LateLeave(v: Server, step: Step, id: SessionId)
  {
    step == NextPacket(id) && id in v.peers && LeaveIsNext(v.peers[id].session.inbox)
  }

  lemma ProcessLateLeave(s: S.Session, open: bool)
    requires StoppedButJoined(s)
    ensures StoppedButJoined(S.ProcessOne(s, open).0.session) <==> !LeaveIsNext(s.inbox)
  {
    hide P.DecodeOne;
  }

  lemma EffectLateLeave(p: Peer, step: Step, open: bool)
    requires IsIo(step) && B.IoReady(p, step) && StoppedButJoined(p.session)
    ensures StoppedButJoined(IoEffect(p, step, open).peer.session) <==>
            !(step.NextPacket? && LeaveIsNext(p.session.inbox))
  {
    hide S.ProcessOne, LeaveIsNext;
    if step.NextPacket? {
      ProcessLateLeave(p.session, open);
    }
  }

  /** A session that is stopped and joined stays so until it processes a valid Leave: no other step takes it out. */
  lemma OnlyLateLeaveEndsIt(v: Server, step: Step, id: SessionId)
    requires B.Inv(v) && Enabled(v, step) && id in v.peers && StoppedButJoined(v.peers[id].session)
    ensures id in Next(v, step).peers
    ensures StoppedButJoined(Next(v, step).peers[id].session) <==> !LateLeave(v, step, id)
  {
    hide B.Inv, IoEffect, LeaveIsNext, Next;
    B.ConnectIsNew(v);
    StepAt(v, step, id);
    if IsIo(step) && step.id == id {
      B.IoIsReady(v, step);
      EffectLateLeave(v.peers[id], step, !v.worker.closed);
    }
  }

  /** The last late Join of the run was not followed by a valid Leave. */
  ghost predicate Lingers(steps: seq<Step>, id: SessionId)
    requires Possible(steps)
  {
    steps != [] &&
    var v, last := State(steps[..|steps| - 1]), steps[|steps| - 1];
    LateJoin(v, last, id) || (Lingers(steps[..|steps| - 1], id) && !LateLeave(v, last, id))
  }

  /** In every run: a session is stopped and joined if and only if it joined late and has not processed a Leave since. */
  lemma {:induction false} StaysExactlyAfterLateJoin(steps: seq<Step>, id: SessionId)
    requires Possible(steps)
    ensures id in State(steps).peers && StoppedButJoined(State(steps).peers[id].session) <==> Lingers(steps, id)
  {
    if steps != [] {
      var init, last := steps[..|steps| - 1], steps[|steps| - 1];
      StaysExactlyAfterLateJoin(init, id);
      B.RunKeepsInv(init);
      hide Next, Enabled, LateLeave, B.Inv, JoinIsNext;
      var v := State(init);
      if id in v.peers && StoppedButJoined(v.peers[id].session) {
        OnlyLateLeaveEndsIt(v, last, id);
      } else {
        LateJoinIsTheOnlyWay(v, last, id);
      }
    }
  }

  /**
   In every run: a stopped session is in the Room, once everything outstanding is applied, if and only if it lingers
   or, once the command queue has been closed, if and only if it was joined when that happened.
   */
  lemma StoppedInRoomExactly(steps: seq<Step>, id: SessionId)
    requires Possible(steps) && id in State(steps).peers && State(steps).peers[id].session.stopped
    ensures id in T.Members(State(steps)) <==>
            if State(steps).worker.closed then id in T.JoinedAtClose(steps) else Lingers(steps, id)
  {
    T.NothingIsRejected(steps);
    StaysExactlyAfterLateJoin(steps, id);
    hide Possible, State, Lingers, T.Members, T.JoinedAtClose;
  }

  // Runs in which no completed read is resumed after a stop.

  ghost predicate NoReadAfterStop(steps: seq<Step>)
    requires Possible(steps)
  {
    steps == [] ||
    (NoReadAfterStop(steps[..|steps| - 1]) &&
     var v, last := State(steps[..|steps| - 1]), steps[|steps| - 1];
     last.ReadOk? ==> !v.peers[last.id].session.stopped)
  }

  predicate PassingIsRunning(v: Server)
  {
    forall id :: id in v.peers && v.peers[id].run.Passing? ==> !v.peers[id].session.stopped
  }

  lemma ProcessMoreRuns(s: S.Session, open: bool)
    requires !s.stopped && S.ProcessOne(s, open).1.More?
    ensures !S.ProcessOne(s, open).0.session.stopped
  {
    hide P.DecodeOne;
  }

  lemma EffectPassing(p: Peer, step: Step, open: bool)
    requires IsIo(step) && B.IoReady(p, step)
    requires p.run.Passing? ==> !p.session.stopped && !step.RunPosted? && !step.WriteDone?
    requires step.ReadOk? ==> !p.session.stopped
    ensures var p' := IoEffect(p, step, open).peer;
            p'.run.Passing? ==> !p'.session.stopped
  {
    hide S.ProcessOne, S.Enqueue, S.WriteCompleted;
    if step.NextPacket? && S.ProcessOne(p.session, open).1.More? {
      ProcessMoreRuns(p.session, open);
    }
  }

  lemma StepKeepsPassing(v: Server, step: Step)
    requires B.Inv(v) && Enabled(v, step) && PassingIsRunning(v)
    requires step.ReadOk? ==> !v.peers[step.id].session.stopped
    ensures PassingIsRunning(Next(v, step))
  {
    hide B.Inv, IoEffect, Next;
    B.ConnectIsNew(v);
    forall id | id in Next(v, step).peers && Next(v, step).peers[id].run.Passing?
      ensures !Next(v, step).peers[id].session.stopped
    {
      if id !in v.peers {
        StepIsNew(v, step, id);
      } else {
        StepAt(v, step, id);
        if IsIo(step) && step.id == id {
          B.IoIsReady(v, step);
          PassIsBusy(v, id);
          EffectPassing(v.peers[id], step, !v.worker.closed);
        }
      }
    }
  }

  lemma PassIsBusy(v: Server, id: SessionId)
    requires B.Inv(v) && id in v.peers
    ensures v.peers[id].run.Passing? <==> v.busy == Some(id)
  {
    hide M.Inv, B.Local, B.BroadcastAt;
    assert B.PeerOk(v, id);
  }

  lemma {:induction false} NoReadAfterStopMeansNoLateJoin(steps: seq<Step>, id: SessionId)
    requires Possible(steps) && NoReadAfterStop(steps)
    ensures NoLateJoin(steps, id) && PassingIsRunning(State(steps))
  {
    if steps != [] {
      var init, last := steps[..|steps| - 1], steps[|steps| - 1];
      NoReadAfterStopMeansNoLateJoin(init, id);
      B.RunKeepsInv(init);
      hide Next, B.Local, M.Inv, B.BroadcastAt, JoinIsNext, IoEffect;
      StepKeepsPassing(State(init), last);
      var v := State(init);
      if last.NextPacket? && last.id in v.peers {
        assert B.PeerOk(v, last.id);
      }
    }
  }

  /** The design's promise: if no read is resumed after its session stopped, every terminated session has left. */
  lemma TerminatedSessionsHaveLeft(steps: seq<Step>, id: SessionId)
    requires Possible(steps) && NoReadAfterStop(steps) && id in State(steps).peers
    ensures var p := State(steps).peers[id];
            (p.run.Returned? || p.run.Finished? ==>
               p.session.stopped && !p.session.joined && p.session.joins == p.session.leaves)
  {
    NoReadAfterStopMeansNoLateJoin(steps, id);
    LeaveBalance(steps, id);
  }

  // A run that needs the condition: a read resumed after a failed write, holding a Join.

  const PING: seq<Byte> := P.Packet(P.Ping, [])
  const JOIN: seq<Byte> := P.Packet(P.JoinRoom, [])

  /** A run that ends with session 1 in this state and the command queue open. */
  ghost predicate Reaches(steps: seq<Step>, p: Peer)
  {
    && Possible(steps)
    && var v := State(steps);
    && 1 in v.peers && v.peers[1] == p && !v.worker.closed
    && v.busy == if p.run.Passing? then Some(1) else None
  }

  lemma IoRunStep(steps: seq<Step>, p: Peer, step: Step)
    requires Reaches(steps, p) && IsIo(step) && step.id == 1 && p.alive && B.IoReady(p, step)
    requires p.run.Passing? ==> step.NextPacket?
    ensures Reaches(steps + [step], IoEffect(p, step, true).peer)
  {
  }

  lemma Connected()
    ensures Reaches([Connect], Peer(S.NewSession(1), [], Reading, true))
  {
  }

  lemma DecodePingAndJoin()
    ensures PING != [] && P.DecodeOne(PING) == Success(P.PacketView(P.Ping, [], 6))
    ensures JOIN != [] && P.DecodeOne(JOIN) == Success(P.PacketView(P.JoinRoom, [], 6))
  {
    Writer.PacketIsWellFormed(P.Ping, []);
    Writer.PacketIsWellFormed(P.JoinRoom, []);
  }

  function PingRun(): seq<Step>
  {
    [Connect, ReadOk(1, PING), NextPacket(1), NextPacket(1)]
  }

  lemma PingAnswered() returns (p: Peer)
    ensures Reaches(PingRun(), p)
    ensures p.run.Reading? && p.alive && !p.session.joined && p.session.id == 1 && p.session.inbox == []
    ensures p.session.queue == [PING] && p.session.writers == 1 && p.session.batch == [] && !p.session.stopped
  {
    hide Reaches, P.DecodeOne, P.Packet;
    Connected();
    DecodePingAndJoin();
    var p0 := Peer(S.NewSession(1), [], Reading, true);
    var steps := [Connect];
    IoRunStep(steps, p0, ReadOk(1, PING));
    var p1 := IoEffect(p0, ReadOk(1, PING), true).peer;
    assert p1.run.Passing? && p1.session.inbox == PING && p1.session.queue == [];
    steps := steps + [ReadOk(1, PING)];
    IoRunStep(steps, p1, NextPacket(1));
    var p2 := IoEffect(p1, NextPacket(1), true).peer;
    steps := steps + [NextPacket(1)];
    assert PING[6..] == [];
    assert Total([]) == 0;
    assert p2.run.Passing? && p2.session.inbox == [] && p2.session.queue == [PING] && p2.session.writers == 1;
    IoRunStep(steps, p2, NextPacket(1));
    p := IoEffect(p2, NextPacket(1), true).peer;
    steps := steps + [NextPacket(1)];
    assert steps == PingRun();
  }

  /** A ping is read and its reply handed to the writer, whose write fails: the session is stopped, still awaiting its read. */
  function WriteFailedRun(): seq<Step>
  {
    PingRun() + [StartWriter(1)] + [WriteDone(1, 0, true)]
  }

  lemma StoppedByWriter() returns (p: Peer)
    ensures Reaches(WriteFailedRun(), p)
    ensures p.run.Reading? && p.alive && p.session.stopped && !p.session.joined
    ensures p.session.id == 1 && p.session.inbox == []
  {
    hide Reaches, P.DecodeOne, P.Packet, PingRun;
    var p3 := PingAnswered();
    DecodePingAndJoin();
    var steps := PingRun();
    BatchIsLongest([PING], S.BATCH_PACKETS, S.BATCH_BYTES, 0);
    IoRunStep(steps, p3, StartWriter(1));
    var p4 := IoEffect(p3, StartWriter(1), true).peer;
    steps := steps + [StartWriter(1)];
    assert p4.session.batch == [PING];
    IoRunStep(steps, p4, WriteDone(1, 0, true));
    p := IoEffect(p4, WriteDone(1, 0, true), true).peer;
  }

  /** The read that had completed before the stop is resumed with a Join; then the aborted next read ends run(). */
  function LateJoinRun(): seq<Step>
  {
    WriteFailedRun() + [ReadOk(1, JOIN)] + [NextPacket(1)] + [NextPacket(1)] + [ReadErr(1, S.Aborted)]
  }

  /** Without the condition the promise fails: this run ends with a terminated session that is still in the Room. */
  lemma TerminatedSessionCanStayInRoom()
    ensures Possible(LateJoinRun())
    ensures var v := State(LateJoinRun());
            && 1 in v.peers && v.peers[1].run.Returned?
            && v.peers[1].session.stopped && v.peers[1].session.joined
            && v.peers[1].session.joins != v.peers[1].session.leaves
            && 1 in R.AfterAll(v.worker.players.Keys, W.Outstanding(v.worker))
  {
    var p := StoppedByWriter();
    B.RunKeepsInv(WriteFailedRun());
    var q := LateJoinEffects(p);
    B.RunKeepsInv(LateJoinRun());
    hide WriteFailedRun, LateJoinRun, R.AfterAll, R.AllAccepted, W.Inv, B.BroadcastAt;
    assert B.PeerOk(State(LateJoinRun()), 1);
    assert 1 in M.JoinedIds(State(LateJoinRun()));
  }

  lemma LateJoinEffects(p: Peer) returns (q: Peer)
    requires Reaches(WriteFailedRun(), p)
    requires p.run.Reading? && p.alive && p.session.stopped && !p.session.joined
    requires p.session.id == 1 && p.session.inbox == []
    ensures Reaches(LateJoinRun(), q)
    ensures q.run.Returned? && q.session.stopped && q.session.joined
  {
    hide Reaches, P.DecodeOne, P.Packet, WriteFailedRun;
    DecodePingAndJoin();
    var steps := WriteFailedRun();
    IoRunStep(steps, p, ReadOk(1, JOIN));
    var p1 := IoEffect(p, ReadOk(1, JOIN), true).peer;
    steps := steps + [ReadOk(1, JOIN)];
    assert p1.session.inbox == JOIN && p1.run.Passing?;
    IoRunStep(steps, p1, NextPacket(1));
    var p2 := IoEffect(p1, NextPacket(1), true).peer;
    steps := steps + [NextPacket(1)];
    assert JOIN[6..] == [];
    assert p2.session.joined && p2.session.stopped && p2.session.inbox == [] && p2.run.Passing?;
    IoRunStep(steps, p2, NextPacket(1));
    var p3 := IoEffect(p2, NextPacket(1), true).peer;
    steps := steps + [NextPacket(1)];
    IoRunStep(steps, p3, ReadErr(1, S.Aborted));
    q := IoEffect(p3, ReadErr(1, S.Aborted), true).peer;
  }

  // A run that leaves a session in the Room without a late Join: its Leave comes after the close.

  function JoinedRun(): seq<Step>
  {
    [Connect] + [ReadOk(1, JOIN)] + [NextPacket(1)] + [NextPacket(1)]
  }

  lemma JoinedAndReading() returns (p: Peer)
    ensures Reaches(JoinedRun(), p)
    ensures p.run.Reading? && p.alive && p.session.joined && !p.session.stopped && p.session.id == 1
  {
    hide Reaches, P.DecodeOne, P.Packet;
    Connected();
    DecodePingAndJoin();
    var p0 := Peer(S.NewSession(1), [], Reading, true);
    var steps := [Connect];
    IoRunStep(steps, p0, ReadOk(1, JOIN));
    var p1 := IoEffect(p0, ReadOk(1, JOIN), true).peer;
    steps := steps + [ReadOk(1, JOIN)];
    assert p1.session.inbox == JOIN && p1.run.Passing?;
    IoRunStep(steps, p1, NextPacket(1));
    var p2 := IoEffect(p1, NextPacket(1), true).peer;
    steps := steps + [NextPacket(1)];
    assert JOIN[6..] == [];
    assert p2.session.joined && p2.session.inbox == [] && p2.run.Passing?;
    IoRunStep(steps, p2, NextPacket(1));
    p := IoEffect(p2, NextPacket(1), true).peer;
  }

  function LeaveRefusedRun(): seq<Step>
  {
    JoinedRun() + [CloseQueue] + [ReadErr(1, S.Eof)]
  }

  lemma CloseAndHangUp(steps: seq<Step>, p: Peer)
    requires Reaches(steps, p) && p.run.Reading? && p.alive && p.session.joined && !p.session.stopped
    ensures Possible(steps + [CloseQueue] + [ReadErr(1, S.Eof)])
    ensures var v := State(steps + [CloseQueue] + [ReadErr(1, S.Eof)]);
            && v.worker.closed && 1 in v.peers && v.peers[1].run.Returned?
            && v.peers[1].session.stopped && !v.peers[1].session.joined
    ensures T.JoinedAtClose(steps + [CloseQueue] + [ReadErr(1, S.Eof)]) == M.JoinedIds(State(steps))
  {
    var closed := steps + [CloseQueue];
    RunStep(steps, CloseQueue);
    RunStep(closed, ReadErr(1, S.Eof));
    assert closed[..|steps|] == steps && (closed + [ReadErr(1, S.Eof)])[..|closed|] == closed;
  }

  lemma RunStep(steps: seq<Step>, step: Step)
    requires Possible(steps) && Enabled(State(steps), step)
    ensures Possible(steps + [step]) && State(steps + [step]) == Next(State(steps), step)
  {
    hide Next, Enabled;
    assert (steps + [step])[..|steps|] == steps;
  }

  /** The session hung up after the close: it is stopped and out by its own flag, yet the Room keeps it. */
  lemma RefusedLeaveKeepsPlayer()
    ensures Possible(LeaveRefusedRun())
    ensures var v := State(LeaveRefusedRun());
            && 1 in v.peers && v.peers[1].run.Returned?
            && v.peers[1].session.stopped && !v.peers[1].session.joined
            && !Lingers(LeaveRefusedRun(), 1) && 1 in T.Members(v)
  {
    var p := JoinedAndReading();
    hide P.DecodeOne, JoinedRun, T.Members, Lingers;
    CloseAndHangUp(JoinedRun(), p);
    assert 1 in M.JoinedIds(State(JoinedRun()));
    StaysExactlyAfterLateJoin(LeaveRefusedRun(), 1);
    StoppedInRoomExactly(LeaveRefusedRun(), 1);
  }
}
