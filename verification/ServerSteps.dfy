/**
 The whole server as one step system: every session's coroutines on the single I/O thread, the Room worker
 thread between its locked sections, the registry under its mutex, and the stopping thread.

 A step is one stretch of I/O-thread code that nothing else on that thread can interrupt, except that a pass
 over several buffered packets is one step per packet, because the command queue may be drained or closed
 between two of them; busy names the session whose pass holds the I/O thread meanwhile. Handlers posted to one
 session run in the order they were posted.
 */
module ServerSteps {
  import opened Bytes
  import opened Common
  import opened OutboundQueue
  import E = RoomEventEncoder
  import G = SessionRegistry
  import R = Room
  import S = SessionSteps
  import W = RoomWorkerSteps

  type SessionId = R.SessionId

  /** Where run_session is: awaiting a read, going through packets, run() over, or unregistered. */
  datatype Run = Reading | Passing | Returned | Finished

  /** posted are the delivery handlers queued on the executor; alive says whether the session object still exists. */
  datatype Peer = Peer(session: S.Session, posted: seq<Packet>, run: Run, alive: bool)

  /**
   delivery is the publish call in progress: None before its locked section, then the recipients it
   still has to call. nextId is the acceptor's counter.
   */
  datatype Server = Server(
    nextId: nat,
    peers: map<SessionId, Peer>,
    registry: G.Registry,
    worker: W.Worker,
    delivery: Option<set<SessionId>>,
    busy: Option<SessionId>)

  const INITIAL := Server(1, map[], G.EMPTY, W.INITIAL, None, None)

  datatype Step =
    | Connect
    | ReadOk(id: SessionId, bytes: seq<Byte>)
    | ReadErr(id: SessionId, error: S.ReadError)
    | NextPacket(id: SessionId)
    | RunPosted(id: SessionId)
    | StartWriter(id: SessionId)
    | WriteDone(id: SessionId, transferred: nat, failed: bool)
    | Unregister(id: SessionId)
    | Expire(id: SessionId)
    | Pop
    | Apply
    | Collect
    | Deliver(id: SessionId)
    | HandlerDone
    | CloseQueue
    | RequestStop
    | JoinWorker

  predicate IsIo(step: Step)
  {
    step.ReadOk? || step.ReadErr? || step.NextPacket? || step.RunPosted? || step.StartWriter? || step.WriteDone?
  }

  /** Any writer that was spawned and has fetched nothing may start; one that has fetched awaits its write. */
  predicate IoEnabled(v: Server, step: Step)
    requires IsIo(step)
  {
    && step.id in v.peers
    && var p := v.peers[step.id];
    && p.alive
    && match step
       case ReadOk(_, bytes) => v.busy.None? && p.run.Reading? && |bytes| <= S.READ_CHUNK
       case ReadErr(_, _) => v.busy.None? && p.run.Reading?
       case NextPacket(id) => v.busy == Some(id)
       case RunPosted(_) => v.busy.None? && p.posted != []
       case StartWriter(_) => p.session.writers > if p.session.batch == [] then 0 else 1
       case WriteDone(_, transferred, _) =>
         v.busy.None? && p.session.batch != [] && p.session.writers > 0 && transferred <= |Flatten(p.session.batch)|
  }

  predicate WorkerEnabled(v: Server, step: Step)
  {
    match step
    case Pop => W.Enabled(v.worker, W.Pop)
    case Apply => W.Enabled(v.worker, W.ApplyPopped)
    case Collect => v.worker.phase.Handling? && v.delivery.None?
    case Deliver(id) => v.worker.phase.Handling? && v.delivery.Some? && id in v.delivery.value && id in v.peers
    case HandlerDone => v.worker.phase.Handling? && v.delivery == Some({})
    case CloseQueue => true
    case RequestStop => W.Enabled(v.worker, W.RequestStop)
    case JoinWorker => W.Enabled(v.worker, W.JoinThread)
    case _ => false
  }

  predicate Enabled(v: Server, step: Step)
  {
    match step
    case Connect => v.busy.None? && v.nextId < 0x1_0000_0000_0000_0000
    case Unregister(id) => id in v.peers && v.peers[id].run.Returned?
    case Expire(id) =>
      && id in v.peers && v.busy != Some(id)
      && v.peers[id].alive && v.peers[id].posted == [] && v.peers[id].session.writers == 0
      && (v.delivery.Some? ==> id !in v.delivery.value)
    case _ => if IsIo(step) then IoEnabled(v, step) else WorkerEnabled(v, step)
  }

  /** What an I/O step does to its session: the peer afterwards and the commands it tries to submit. */
  datatype Effect = Effect(peer: Peer, attempted: seq<R.Command>)

  function FromOut(p: Peer, out: S.Out, run: Run): Effect
  {
    Effect(p.(session := out.session, run := run), out.attempted)
  }

  function IoEffect(p: Peer, step: Step, open: bool): Effect
    requires IsIo(step)
    requires step.RunPosted? ==> p.posted != []
    requires step.StartWriter? ==> p.session.writers > 0
    requires step.WriteDone? ==> p.session.writers > 0 && step.transferred <= |Flatten(p.session.batch)|
  {
    match step
    case ReadOk(_, bytes) =>
      var (out, ok) := S.Received(p.session, bytes);
      FromOut(p, out, if ok then Passing else Returned)
    case ReadErr(_, error) => FromOut(p, S.ReadFailed(p.session, error), Returned)
    case NextPacket(_) =>
      var (out, verdict) := S.ProcessOne(p.session, open);
      FromOut(p, out, if verdict.More? then Passing else if verdict.go then Reading else Returned)
    case RunPosted(_) =>
      var out := S.Enqueue(p.session, p.posted[0]).0;
      FromOut(p.(posted := p.posted[1..]), out, p.run)
    case StartWriter(_) => Effect(p.(session := S.WriterTurn(p.session)), [])
    case WriteDone(_, transferred, failed) =>
      FromOut(p, S.WriteCompleted(p.session, transferred, failed), p.run)
  }

  /** Commands submitted together; a closed queue takes none of them. */
  function SubmitAll(w: W.Worker, commands: seq<R.Command>): W.Worker
  {
    if w.closed then w else w.(pending := w.pending + commands, accepted := w.accepted + commands)
  }

  function Commit(v: Server, id: SessionId, e: Effect): Server
  {
    v.(peers := v.peers[id := e.peer], worker := SubmitAll(v.worker, e.attempted))
  }

  function Alive(v: Server): set<SessionId>
  {
    set id | id in v.peers && v.peers[id].alive
  }

  function Event(v: Server): R.Event
    requires v.worker.phase.Handling?
  {
    v.worker.phase.event
  }

  function Next(v: Server, step: Step): Server
    requires Enabled(v, step)
  {
    if IsIo(step) then
      var e := IoEffect(v.peers[step.id], step, !v.worker.closed);
      var busy := if e.peer.run.Passing? then Some(step.id) else if v.busy == Some(step.id) then None else v.busy;
      Commit(v, step.id, e).(busy := busy)
    else
      match step
      case Connect =>
        v.(nextId := v.nextId + 1,
           peers := v.peers[v.nextId := Peer(S.NewSession(v.nextId), [], Reading, true)],
           registry := G.Register(v.registry, v.nextId))
      case Unregister(id) =>
        v.(peers := v.peers[id := v.peers[id].(run := Finished)], registry := G.Unregister(v.registry, id))
      case Expire(id) => v.(peers := v.peers[id := v.peers[id].(alive := false)])
      case Pop => v.(worker := W.Next(v.worker, W.Pop))
      case Apply => v.(worker := W.Next(v.worker, W.ApplyPopped))
      case Collect =>
        var registry := G.Collect(v.registry, Event(v), Alive(v));
        v.(registry := registry, delivery := Some(registry.members))
      case Deliver(id) =>
        v.(peers := v.peers[id := v.peers[id].(posted := v.peers[id].posted + [E.EventPacket(Event(v))])],
           delivery := Some(v.delivery.value - {id}))
      case HandlerDone => v.(worker := W.Next(v.worker, W.FinishHandler(false)), delivery := None)
      case CloseQueue => v.(worker := W.Next(v.worker, W.Close))
      case RequestStop => v.(worker := W.Next(v.worker, W.RequestStop))
      case JoinWorker => v.(worker := W.Next(v.worker, W.JoinThread))
  }

  /** What a step that is not an I/O step of its session may do to a peer. */
  predicate Aside(p: Peer, p': Peer)
  {
    p'.session == p.session && (p'.run == p.run || p'.run.Finished?) && p.posted <= p'.posted
  }

  /** A step changes a session only if it is an I/O step of that session. */
  lemma StepAt(v: Server, step: Step, id: SessionId)
    requires Enabled(v, step) && id in v.peers && (step.Connect? ==> id != v.nextId)
    ensures id in Next(v, step).peers
    ensures if IsIo(step) && step.id == id then Next(v, step).peers[id] == IoEffect(v.peers[id], step, !v.worker.closed).peer
            else Aside(v.peers[id], Next(v, step).peers[id])
  {
    hide IoEffect, R.Apply, E.EventPacket, SubmitAll, G.Collect, G.Register, G.Unregister;
  }

  /** A handler is posted only by a delivery, and it carries the event being published. */
  lemma PostedAt(v: Server, step: Step, id: SessionId)
    requires Enabled(v, step) && id in v.peers && (step.Connect? ==> id != v.nextId) && !IsIo(step)
    ensures id in Next(v, step).peers
    ensures if step == Deliver(id) then Next(v, step).peers[id].posted == v.peers[id].posted + [E.EventPacket(Event(v))]
            else Next(v, step).peers[id].posted == v.peers[id].posted
  {
    hide IoEffect, R.Apply, E.EventPacket, SubmitAll, G.Collect, G.Register, G.Unregister;
  }

  lemma OtherPeer(v: Server, step: Step, id: SessionId)
    requires Enabled(v, step) && IsIo(step) && id in v.peers && step.id != id
    ensures id in Next(v, step).peers && Next(v, step).peers[id] == v.peers[id]
  {
    hide IoEffect, SubmitAll;
  }

  lemma StepIsNew(v: Server, step: Step, id: SessionId)
    requires Enabled(v, step) && id !in v.peers && id in Next(v, step).peers
    ensures step.Connect? && id == v.nextId && Next(v, step).peers[id] == Peer(S.NewSession(id), [], Reading, true)
  {
    hide IoEffect, R.Apply, E.EventPacket, SubmitAll, G.Collect, G.Register, G.Unregister;
  }

  /** An I/O step leaves the registry, the publish in progress and the worker's own side alone. */
  lemma IoAside(v: Server, step: Step)
    requires Enabled(v, step) && IsIo(step)
    ensures var v' := Next(v, step);
            && v'.registry == v.registry && v'.delivery == v.delivery && v'.nextId == v.nextId
            && v'.worker == SubmitAll(v.worker, IoEffect(v.peers[step.id], step, !v.worker.closed).attempted)
  {
    hide IoEffect, SubmitAll;
  }

  /** Sessions are registered by connecting and dropped by unregistering, or by a publish that finds them gone. */
  lemma RegistryAt(v: Server, step: Step)
    requires Enabled(v, step) && !IsIo(step)
    ensures Next(v, step).registry ==
            match step
            case Connect => G.Register(v.registry, v.nextId)
            case Unregister(id) => G.Unregister(v.registry, id)
            case Collect => G.Collect(v.registry, Event(v), Alive(v))
            case _ => v.registry
  {
    hide R.Apply, E.EventPacket, G.Collect, G.Register, G.Unregister, Alive;
  }

  /** A session's object goes away only by expiring, and its run_session ends only by unregistering. */
  lemma PresenceAt(v: Server, step: Step, id: SessionId)
    requires Enabled(v, step) && !IsIo(step) && id in v.peers && (step.Connect? ==> id != v.nextId)
    ensures id in Next(v, step).peers
    ensures Next(v, step).peers[id].alive == (v.peers[id].alive && step != Expire(id))
    ensures Next(v, step).peers[id].run == if step == Unregister(id) then Finished else v.peers[id].run
  {
    hide R.Apply, E.EventPacket, G.Collect, G.Register, G.Unregister, Alive;
  }

  /** Commands are accepted only from I/O steps, and only while the queue is open; it is never reopened. */
  lemma AcceptedAt(v: Server, step: Step)
    requires Enabled(v, step)
    ensures var w, w' := v.worker, Next(v, step).worker;
            if IsIo(step) then
              && w'.closed == w.closed
              && w'.accepted == w.accepted + if w.closed then [] else IoEffect(v.peers[step.id], step, !w.closed).attempted
            else w'.accepted == w.accepted && (w.closed ==> w'.closed)
  {
    hide IoEffect, R.Apply, E.EventPacket, G.Collect, G.Register, G.Unregister;
  }

  // Whole runs.

  ghost predicate Possible(steps: seq<Step>)
    decreases |steps|, 0
  {
    steps == [] ||
    (Possible(steps[..|steps| - 1]) && Enabled(State(steps[..|steps| - 1]), steps[|steps| - 1]))
  }

  /** The server after a run from its start. */
  ghost function State(steps: seq<Step>): Server
    requires Possible(steps)
    decreases |steps|, 1
  {
    if steps == [] then INITIAL else Next(State(steps[..|steps| - 1]), steps[|steps| - 1])
  }
}
