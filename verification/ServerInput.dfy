/** Input over whole runs: what each session has submitted and answered is what the bytes it received ask for. */
module ServerInput {
  import opened Bytes
  import opened Common
  import opened OutboundQueue
  import opened ServerSteps
  import opened SessionInput
  import B = ServerBroadcast
  import E = RoomEventEncoder
  import F = Framing
  import M = ServerMembership
  import P = PacketCodec
  import R = Room
  import S = SessionSteps

  /** The commands of one session that it was asked for, in order. */
  function RequestsOf(commands: seq<R.Command>, id: SessionId): seq<R.Command>
  {
    if commands == [] then []
    else
      var last := commands[|commands| - 1];
      RequestsOf(commands[..|commands| - 1], id) + if last.id == id && Asked(last) then [last] else []
  }

  /** The session waits for more bytes: those it has are no packet yet. */
  ghost predicate Waits(s: S.Session)
  {
    F.DecodeStream(s.inbox) == F.Stream([], s.inbox, None)
  }

  ghost predicate PeerInput(p: Peer)
  {
    && Faithful(p.session)
    && (forall q :: q in p.posted ==> !IsReply(q))
    && (p.run.Reading? ==> Waits(p.session))
  }

  ghost predicate Submitted(v: Server, id: SessionId)
  {
    var requests := RequestsOf(v.worker.accepted, id);
    if id !in v.peers then requests == []
    else
      var meaning := Meaning(id, v.peers[id].session.handled);
      requests <= meaning && (!v.worker.closed ==> requests == meaning)
  }

  ghost predicate Inv(v: Server)
  {
    && (forall id: SessionId :: id in v.peers ==> PeerInput(v.peers[id]))
    && (forall id: SessionId :: Submitted(v, id))
  }

  // What an I/O step does to its own session.

  lemma ProcessWaits(s: S.Session, open: bool)
    requires S.ProcessOne(s, open).1 == S.Done(true)
    ensures Waits(S.ProcessOne(s, open).0.session)
  {
    hide P.DecodeOne, S.HandlePacket;
    if s.inbox != [] && P.DecodeOne(s.inbox).Success? {
      S.HandleStops(s, P.DecodeOne(s.inbox).value, open);
    }
  }

  lemma EffectKeepsInput(p: Peer, step: Step, open: bool)
    requires PeerInput(p) && IsIo(step) && B.IoReady(p, step)
    ensures PeerInput(IoEffect(p, step, open).peer)
  {
    hide Faithful, Waits, IsReply, S.ProcessOne, S.Enqueue, S.WriteCompleted, S.WriterTurn, S.Stop;
    var s, s' := p.session, IoEffect(p, step, open).peer.session;
    match step
    case ReadOk(_, bytes) =>
      MoreKeepsFaithful(s, bytes);
      StopKeepsFaithful(s, R.ProtocolError);
    case ReadErr(_, error) =>
      StopKeepsFaithful(s, R.ClientClosed);
      StopKeepsFaithful(s, R.IoError);
    case NextPacket(_) =>
      ProcessKeepsFaithful(s, open);
      if S.ProcessOne(s, open).1 == S.Done(true) {
        ProcessWaits(s, open);
      }
    case RunPosted(_) =>
      assert p.posted[0] in p.posted;
      EnqueueIsSame(s, p.posted[0]);
      SameWaits(s, s');
    case StartWriter(_) =>
      WriteIsSame(s, 0, false);
      SameWaits(s, s');
    case WriteDone(_, transferred, failed) =>
      WriteIsSame(s, transferred, failed);
      SameWaits(s, s');
  }

  lemma StopKeepsFaithful(s: S.Session, reason: R.Reason)
    requires Faithful(s)
    ensures Faithful(S.Stop(s, reason).session)
  {
    hide Faithful, S.Stop;
    StopIsSame(s, reason);
    SameKeepsFaithful(s, S.Stop(s, reason).session);
  }

  lemma SameWaits(s: S.Session, s': S.Session)
    requires Faithful(s) && SameInput(s, s')
    ensures Faithful(s') && (Waits(s) ==> Waits(s'))
  {
    hide Faithful;
    SameKeepsFaithful(s, s');
  }

  lemma EffectMeans(p: Peer, step: Step, open: bool)
    requires IsIo(step) && B.IoReady(p, step)
    ensures var e := IoEffect(p, step, open);
            Means(p.session, S.Out(e.peer.session, e.attempted), open)
  {
    hide Means, S.ProcessOne, S.Enqueue, S.WriteCompleted, S.WriterTurn, S.ReadFailed, S.Received, Requests;
    var s := p.session;
    match step
    case ReadOk(_, bytes) => ReadMeans(s, bytes, S.Eof, open);
    case ReadErr(_, error) => ReadMeans(s, [], error, open);
    case NextPacket(_) => ProcessMeans(s, open);
    case RunPosted(_) => EnqueueMeans(s, p.posted[0], open);
    case StartWriter(_) =>
      OneRequest(R.Join(s.id));
      TurnMeans(s, open);
    case WriteDone(_, transferred, failed) => WriteMeans(s, transferred, failed, open);
  }

  lemma TurnMeans(s: S.Session, open: bool)
    requires s.writers > 0
    ensures Means(s, S.Out(S.WriterTurn(s), []), open)
  {
    OneRequest(R.Join(s.id));
    NothingMeans(s, S.Out(S.WriterTurn(s), []), open);
  }

  // Requests of one session in a growing command log.

  lemma RequestsOfOne(commands: seq<R.Command>, more: seq<R.Command>, id: SessionId)
    requires |more| <= 1
    ensures RequestsOf(commands + more, id) ==
            RequestsOf(commands, id) + if more != [] && more[0].id == id then Requests(more) else []
  {
    if more == [] {
      assert commands + more == commands;
    } else {
      assert more == [more[0]] && (commands + more)[..|commands|] == commands;
      OneRequest(more[0]);
    }
  }

  // Every step keeps it.

  /** The commands of an I/O step are at most one, and its own session's. */
  lemma IoRequests(v: Server, step: Step, id: SessionId)
    requires B.Inv(v) && IsIo(step) && Enabled(v, step)
    ensures RequestsOf(Next(v, step).worker.accepted, id) ==
            RequestsOf(v.worker.accepted, id) +
            if v.worker.closed || step.id != id then []
            else Requests(IoEffect(v.peers[step.id], step, !v.worker.closed).attempted)
  {
    hide B.Inv, IoEffect, Next, Requests, RequestsOf;
    AcceptedAt(v, step);
    B.IoIsReady(v, step);
    B.OwnId(v, step.id);
    M.EffectTracks(v.peers[step.id], step, !v.worker.closed);
    var attempted := if v.worker.closed then [] else IoEffect(v.peers[step.id], step, !v.worker.closed).attempted;
    RequestsOfOne(v.worker.accepted, attempted, id);
    OneRequest(R.Join(id));
  }

  lemma StepKeepsSubmitted(v: Server, step: Step, id: SessionId)
    requires B.Inv(v) && Submitted(v, id) && Enabled(v, step)
    ensures Submitted(Next(v, step), id)
  {
    hide B.Inv, IoEffect, Next, Enabled, Requests, RequestsOf, Meaning, Aside;
    AcceptedAt(v, step);
    B.ConnectIsNew(v);
    if IsIo(step) {
      IoRequests(v, step, id);
    }
    if id in v.peers {
      KeepsSubmitted(v, step, id);
    } else if id in Next(v, step).peers {
      StepIsNew(v, step, id);
      NothingMeant(id);
    } else {
      PeersOfIo(v, step);
    }
  }

  lemma PeersOfIo(v: Server, step: Step)
    requires Enabled(v, step)
    ensures IsIo(step) ==> step.id in v.peers
  {
  }

  lemma NothingMeant(id: SessionId)
    ensures Meaning(id, []) == []
  {
  }

  lemma KeepsSubmitted(v: Server, step: Step, id: SessionId)
    requires B.Inv(v) && Submitted(v, id) && Enabled(v, step) && id in v.peers
    ensures Submitted(Next(v, step), id)
  {
    hide B.Inv, IoEffect, Next, Requests, RequestsOf, Meaning;
    AcceptedAt(v, step);
    B.ConnectIsNew(v);
    StepAt(v, step, id);
    if IsIo(step) {
      IoRequests(v, step, id);
      if step.id == id {
        B.IoIsReady(v, step);
        B.OwnId(v, id);
        EffectMeans(v.peers[id], step, !v.worker.closed);
      }
    }
  }

  lemma StepKeepsPeerInput(v: Server, step: Step, id: SessionId)
    requires B.Inv(v) && Inv(v) && Enabled(v, step) && id in Next(v, step).peers
    ensures PeerInput(Next(v, step).peers[id])
  {
    hide B.Inv, IoEffect, Next, Submitted, Faithful, Waits, IsReply, E.EventPacket;
    B.ConnectIsNew(v);
    if id !in v.peers {
      StepIsNew(v, step, id);
      NewIsFaithful(id);
    } else {
      StepAt(v, step, id);
      if IsIo(step) && step.id == id {
        B.IoIsReady(v, step);
        EffectKeepsInput(v.peers[id], step, !v.worker.closed);
      } else if !IsIo(step) {
        PostedAt(v, step, id);
        if step == Deliver(id) {
          EventIsNoReply(Event(v));
        }
      } else {
        OtherPeer(v, step, id);
      }
    }
  }

  lemma NewIsFaithful(id: SessionId)
    ensures Faithful(S.NewSession(id)) && Waits(S.NewSession(id))
  {
  }

  lemma EventIsNoReply(event: R.Event)
    ensures !IsReply(E.EventPacket(event))
  {
    hide P.DecodeOne;
    E.EventPacketCarries(event);
  }

  lemma StepKeepsInv(v: Server, step: Step)
    requires B.Inv(v) && Inv(v) && Enabled(v, step)
    ensures Inv(Next(v, step))
  {
    hide B.Inv, Next, Enabled, Submitted, PeerInput;
    forall id: SessionId
      ensures Submitted(Next(v, step), id)
    {
      StepKeepsSubmitted(v, step, id);
    }
    forall id: SessionId | id in Next(v, step).peers
      ensures PeerInput(Next(v, step).peers[id])
    {
      StepKeepsPeerInput(v, step, id);
    }
  }

  lemma {:induction false} RunKeepsInv(steps: seq<Step>)
    requires Possible(steps)
    ensures Inv(State(steps))
  {
    hide Next, Enabled, B.Inv;
    if steps != [] {
      RunKeepsInv(steps[..|steps| - 1]);
      B.RunKeepsInv(steps[..|steps| - 1]);
      hide Inv;
      StepKeepsInv(State(steps[..|steps| - 1]), steps[|steps| - 1]);
    }
  }

  /**
   In every run, whatever deliveries, writes, stops and closes come between the reads and however the input was split
   into them: the commands a session was asked for and that were accepted, and the pings it answered, are first parts
   of what all the bytes it received ask for, decoded at once. While the command queue is open the commands are those
   of the packets taken out so far. A running session that waits for its next read has submitted and answered all.
   */
  lemma SubmittedIsReceived(steps: seq<Step>, id: SessionId)
    requires Possible(steps) && id in State(steps).peers
    ensures var v := State(steps);
            var s := v.peers[id].session;
            var all := F.DecodeStream(s.received);
            var requests := RequestsOf(v.worker.accepted, id);
            && s.handled <= all.packets
            && requests <= Meaning(id, all.packets) && Replies(s.accepted) <= Echoes(all.packets)
            && (!v.worker.closed ==> requests == Meaning(id, s.handled))
            && (v.peers[id].run.Reading? ==> all == F.Stream(s.handled, s.inbox, None))
            && (v.peers[id].run.Reading? && !v.worker.closed ==> requests == Meaning(id, all.packets))
            && (v.peers[id].run.Reading? && !s.stopped ==> Replies(s.accepted) == Echoes(all.packets))
  {
    RunKeepsInv(steps);
    var v := State(steps);
    var s := v.peers[id].session;
    hide Possible, State, F.DecodeStream, Meaning, Echoes, Replies, RequestsOf, Images;
    assert Submitted(v, id) && PeerInput(v.peers[id]);
    ReceivedDecodes(s);
    MeaningGrows(id, s.handled, F.DecodeStream(s.received).packets);
    assert s.handled + [] == s.handled;
  }
}
