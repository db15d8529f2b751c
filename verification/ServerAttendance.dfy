/**
 When publish reaches every player: if sessions are unregistered and their objects go away only once they are out of
 every table that is still to be published.
 */
module ServerAttendance {
  import opened Common
  import opened ServerSteps
  import B = ServerBroadcast
  import D = ServerDeliveries
  import E = RoomEventEncoder
  import G = SessionRegistry
  import M = ServerMembership
  import R = Room
  import S = SessionSteps
  import W = RoomWorkerSteps

  /** The session is in no table that is still to be published. */
  predicate Out(v: Server, id: SessionId)
  {
    && (M.Unpublished(v).Some? ==> id !in v.worker.players.Keys)
    && R.StaysOut(v.worker.players.Keys, W.Outstanding(v.worker), id)
  }

  /** No session of this run was unregistered, or its object gone, before it was out. */
  ghost predicate Patient(steps: seq<Step>)
    requires Possible(steps)
  {
    steps == [] ||
    (Patient(steps[..|steps| - 1]) &&
     var v, last := State(steps[..|steps| - 1]), steps[|steps| - 1];
     last.Unregister? || last.Expire? ==> Out(v, last.id))
  }

  /** The stricter rule of leaving only when one is no player and has no Join on its way is patient. */
  lemma AbsentIsOut(v: Server, id: SessionId)
    requires id !in v.worker.players.Keys && R.Join(id) !in W.Outstanding(v.worker)
    ensures Out(v, id)
  {
    R.AbsentStaysOut(v.worker.players.Keys, W.Outstanding(v.worker), id);
  }

  predicate Reachable(v: Server, id: SessionId)
  {
    id in v.peers && v.peers[id].alive && id in v.registry.sessions
  }

  /** A session that exists and whose run_session has not ended is registered, and whoever is not out is reachable. */
  ghost predicate Inv(v: Server)
  {
    && (forall id: SessionId :: Registered(v, id))
    && (forall id: SessionId :: Out(v, id) || Reachable(v, id))
  }

  predicate Registered(v: Server, id: SessionId)
  {
    id in v.peers && v.peers[id].alive && !v.peers[id].run.Finished? ==> id in v.registry.sessions
  }

  // Registration.

  lemma EffectKeepsRun(p: Peer, step: Step, open: bool)
    requires IsIo(step) && B.IoReady(p, step)
    ensures var p' := IoEffect(p, step, open).peer;
            p'.alive == p.alive && (p.run.Finished? ==> p'.run.Finished?)
  {
    hide S.ProcessOne, S.Enqueue, S.WriteCompleted, S.WriterTurn, S.ReadFailed, S.Received;
  }

  lemma IoKeepsReach(v: Server, step: Step, id: SessionId)
    requires B.Inv(v) && IsIo(step) && Enabled(v, step)
    ensures Registered(v, id) ==> Registered(Next(v, step), id)
    ensures Reachable(v, id) ==> Reachable(Next(v, step), id)
  {
    hide B.Inv, IoEffect, Next;
    IoAside(v, step);
    if id !in v.peers {
      if id in Next(v, step).peers {
        StepIsNew(v, step, id);
      }
    } else if step.id == id {
      StepAt(v, step, id);
      B.IoIsReady(v, step);
      EffectKeepsRun(v.peers[id], step, !v.worker.closed);
    } else {
      OtherPeer(v, step, id);
    }
  }

  lemma OtherKeepsReach(v: Server, step: Step, id: SessionId)
    requires B.Inv(v) && !IsIo(step) && Enabled(v, step)
    ensures Registered(v, id) ==> Registered(Next(v, step), id)
    ensures Reachable(v, id) && !((step.Unregister? || step.Expire?) && step.id == id) ==> Reachable(Next(v, step), id)
  {
    hide B.Inv, Next;
    B.ConnectIsNew(v);
    RegistryAt(v, step);
    if id in v.peers {
      PresenceAt(v, step, id);
      CollectKeeps(v, id);
    } else if id in Next(v, step).peers {
      StepIsNew(v, step, id);
    }
  }

  /** publish drops only sessions whose object is gone. */
  lemma CollectKeeps(v: Server, id: SessionId)
    requires id in v.peers
    ensures v.peers[id].alive && v.worker.phase.Handling? && id in v.registry.sessions ==> id in G.Collect(v.registry, Event(v), Alive(v)).sessions
  {
  }

  // Being out.

  lemma EffectJoins(p: Peer, step: Step, open: bool)
    requires IsIo(step) && B.IoReady(p, step)
    ensures !step.NextPacket? ==> forall command :: command in IoEffect(p, step, open).attempted ==> command.Leave?
  {
  }

  /** Whoever comes in by an I/O step is the session that submitted its Join, in the middle of its pass. */
  lemma IoKeepsOut(v: Server, step: Step, id: SessionId)
    requires B.Inv(v) && IsIo(step) && Enabled(v, step) && Registered(v, id) && Out(v, id)
    ensures Out(Next(v, step), id) || Reachable(v, id)
  {
    hide B.Inv, IoEffect, Next, R.StaysOut, R.After;
    IoAside(v, step);
    B.IoIsReady(v, step);
    var w, attempted := v.worker, IoEffect(v.peers[step.id], step, !v.worker.closed).attempted;
    M.EffectTracks(v.peers[step.id], step, !v.worker.closed);
    B.OwnId(v, step.id);
    if w.closed || attempted == [] {
      assert w.pending + [] == w.pending;
    } else if attempted[0] == R.Join(id) {
      EffectJoins(v.peers[step.id], step, !v.worker.closed);
      assert attempted[0] in attempted;
    } else {
      assert attempted == [attempted[0]];
      R.StaysOutAppend(w.players.Keys, W.Outstanding(w), attempted[0], id);
      assert W.Outstanding(SubmitAll(w, attempted)) == W.Outstanding(w) + [attempted[0]];
    }
  }

  /** The worker's steps apply what is outstanding and publish it: nobody who was out comes in. */
  lemma WorkerKeepsOut(v: Server, step: Step, id: SessionId)
    requires B.Inv(v) && !IsIo(step) && Enabled(v, step) && Out(v, id)
    ensures Out(Next(v, step), id)
  {
    hide B.Inv, R.StaysOut, R.After, E.EventPacket, G.Collect, G.Register, G.Unregister, R.Apply;
    if step.Apply? {
      ApplyKeepsOut(v, id);
    } else if step.Pop? {
      PopKeepsOutstanding(v.worker);
    }
  }

  lemma PopKeepsOutstanding(w: W.Worker)
    requires W.Enabled(w, W.Pop)
    ensures W.Outstanding(W.Next(w, W.Pop)) == W.Outstanding(w)
  {
  }

  lemma ApplyKeepsOut(v: Server, id: SessionId)
    requires B.Inv(v) && Enabled(v, Apply) && Out(v, id)
    ensures Out(Next(v, Apply), id)
  {
    hide B.Inv, R.After, R.Apply, E.EventPacket;
    var w := v.worker;
    var outstanding := W.Outstanding(w);
    assert outstanding[0] == w.phase.command && outstanding[1..] == w.pending;
    Applied(v);
    assert W.Outstanding(Next(v, Apply).worker) == w.pending;
  }

  lemma Applied(v: Server)
    requires B.Inv(v) && Enabled(v, Apply)
    ensures var v' := Next(v, Apply);
            && v'.worker.players.Keys == R.After(v.worker.players.Keys, v.worker.phase.command)
            && v'.worker.phase.Handling? && v'.worker.pending == v.worker.pending
  {
    hide B.PeerOk, B.BroadcastAt, W.Inv, R.AllAccepted, R.AfterAll, M.Indexed, M.Known, M.Ids, R.Apply;
    M.ApplyKeepsInv(v);
    AcceptsNext(v);
    M.AppliedMembers(v.worker.players, v.worker.phase.command);
  }

  lemma AcceptsNext(v: Server)
    requires M.Inv(v) && v.worker.phase.Popped?
    ensures R.Accepts(v.worker.players.Keys, v.worker.phase.command)
  {
    hide W.Inv, M.Indexed, M.Known, M.Ids, R.AfterAll;
    assert W.Outstanding(v.worker)[0] == v.worker.phase.command;
  }

  // Every step, every run.

  lemma StepKeepsAt(v: Server, step: Step, id: SessionId)
    requires B.Inv(v) && Enabled(v, step) && Registered(v, id) && (Out(v, id) || Reachable(v, id))
    requires step.Unregister? || step.Expire? ==> Out(v, step.id)
    ensures Registered(Next(v, step), id) && (Out(Next(v, step), id) || Reachable(Next(v, step), id))
  {
    hide B.Inv, Next, Enabled, Out, Reachable, Registered;
    if IsIo(step) {
      IoKeepsReach(v, step, id);
      if Out(v, id) {
        IoKeepsOut(v, step, id);
      }
    } else {
      OtherKeepsReach(v, step, id);
      if Out(v, id) {
        WorkerKeepsOut(v, step, id);
      }
    }
  }

  lemma {:induction false} RunKeepsInv(steps: seq<Step>)
    requires Possible(steps) && Patient(steps)
    ensures Inv(State(steps))
  {
    hide Next, Enabled, B.Inv, Out, Reachable, Registered;
    if steps == [] {
      InitialInv();
    } else {
      var init, last := steps[..|steps| - 1], steps[|steps| - 1];
      RunKeepsInv(init);
      B.RunKeepsInv(init);
      forall id: SessionId
        ensures Registered(State(steps), id) && (Out(State(steps), id) || Reachable(State(steps), id))
      {
        StepKeepsAt(State(init), last, id);
      }
    }
  }

  lemma InitialInv()
    ensures Inv(INITIAL)
  {
  }

  /** In a patient run publish reaches every player each time, so the deliver calls are those of the log. */
  lemma {:induction false} PatientReachesEveryone(steps: seq<Step>)
    requires Possible(steps) && Patient(steps)
    ensures D.EveryoneThere(steps)
    ensures D.Delivers(steps) + D.Remaining(State(steps)) == R.Deliveries(B.Published(State(steps)))
  {
    if steps != [] {
      var init, last := steps[..|steps| - 1], steps[|steps| - 1];
      PatientReachesEveryone(init);
      RunKeepsInv(init);
      hide Next, B.Published, D.Remaining, R.Deliveries;
      if last.Collect? {
        CollectReaches(State(init));
      }
    }
    D.DeliverCalls(steps);
  }

  lemma CollectReaches(v: Server)
    requires Inv(v) && Enabled(v, Collect)
    ensures D.AllReachable(v)
  {
    hide R.StaysOut;
    forall id | id in v.worker.players.Keys
      ensures id in v.registry.sessions * Alive(v)
    {
      assert Out(v, id) || Reachable(v, id);
    }
  }
}
