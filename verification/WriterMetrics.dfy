/**
 The write-batch objects of the running server: each writer constructs one when it has fetched a batch, completes it
 when the write completes and destroys it at the end of that turn of its loop. An object is named by its session, which
 leaves no name for the object of a second writer of the session: that there is none is what write_in_progress_ gives.
 */
module WriterMetrics {
  import opened Common
  import opened OutboundQueue
  import opened ServerSteps
  import B = ServerBroadcast
  import P = PacketCodec
  import R = Room
  import S = SessionSteps
  import T = BatchTokens

  function BatchOf(batch: seq<Packet>): T.Batch
  {
    T.Batch(|batch|, Total(batch))
  }

  /** The object for the batch a writer has fetched, if it has. */
  function Fetched(id: SessionId, s: S.Session): seq<T.Step>
  {
    if s.batch == [] then [] else [T.Construct(id, id, BatchOf(s.batch))]
  }

  /** What a step of the server does with write-batch objects. */
  function TokenSteps(v: Server, step: Step): seq<T.Step>
    requires Enabled(v, step)
  {
    match step
    case StartWriter(id) => Fetched(id, S.WriterTurn(v.peers[id].session))
    case WriteDone(id, transferred, failed) =>
      var s := v.peers[id].session;
      var bytes := if failed then transferred else |Flatten(s.batch)|;
      [T.Complete(id, bytes, failed)] + [T.Destroy(id)] + Fetched(id, S.WriteCompleted(s, transferred, failed).session)
    case _ => []
  }

  ghost function TokenRun(steps: seq<Step>): seq<T.Step>
    requires Possible(steps)
  {
    if steps == [] then []
    else TokenRun(steps[..|steps| - 1]) + TokenSteps(State(steps[..|steps| - 1]), steps[|steps| - 1])
  }

  /** What the in-flight batch of a session is to the ledger. */
  ghost predicate InLedger(l: T.Ledger, id: SessionId, batch: seq<Packet>)
  {
    if batch == [] then id !in l.objects else id in l.objects && l.objects[id] == Some(T.Token(id, BatchOf(batch)))
  }

  /** The objects that exist are those of the batches in flight, each held by its own session's writer. */
  ghost predicate Linked(v: Server, l: T.Ledger)
  {
    && (forall id: SessionId :: id in v.peers ==> InLedger(l, id, v.peers[id].session.batch))
    && (forall o :: o in l.objects ==> IsPeer(v, o))
  }

  predicate IsPeer(v: Server, o: nat)
  {
    o < 0x1_0000_0000_0000_0000 && o in v.peers
  }

  /** The run so far is possible, ended in l, never had two batches of a session, and reported no byte too many. */
  ghost predicate Reached(run: seq<T.Step>, l: T.Ledger)
  {
    && T.Possible(run) && T.State(run) == l && T.AlwaysSingle(run) && T.Honest(run) && T.NonEmpty(run)
    && OwnSlots(l)
  }

  ghost predicate OwnSlots(l: T.Ledger)
  {
    forall o :: T.Holds(l, o) ==> l.objects[o].value.session == o
  }

  lemma TokenStep(run: seq<T.Step>, l: T.Ledger, step: T.Step)
    requires Reached(run, l) && T.Enabled(l, step)
    requires step.Construct? ==> step.session == step.o && step.batch.packets > 0
    requires step.Complete? && T.Holds(l, step.o) ==> step.bytes <= l.objects[step.o].value.batch.bytes
    ensures Reached(run + [step], T.Next(l, step))
  {
    T.RunStep(run, step);
    var longer := run + [step];
    assert longer[..|run|] == run;
    SlotsStayOwn(l, step);
    OwnIsSingle(T.Next(l, step));
    hide T.Next, T.Enabled, T.Single;
  }

  lemma SlotsStayOwn(l: T.Ledger, step: T.Step)
    requires OwnSlots(l) && T.Enabled(l, step) && (step.Construct? ==> step.session == step.o)
    ensures OwnSlots(T.Next(l, step))
  {
    forall o | T.Holds(T.Next(l, step), o)
      ensures T.Next(l, step).objects[o].value.session == o
    {
      if o != step.o {
        T.OthersKept(l, step, o);
      }
    }
  }

  lemma OwnIsSingle(l: T.Ledger)
    requires OwnSlots(l)
    ensures T.Single(l)
  {
  }

  /** Fetching into an empty frame. */
  lemma FetchTokens(run: seq<T.Step>, l: T.Ledger, id: SessionId, s: S.Session) returns (l': T.Ledger)
    requires Reached(run, l) && id !in l.objects
    ensures Reached(run + Fetched(id, s), l') && InLedger(l', id, s.batch)
    ensures l'.objects - {id} == l.objects - {id}
  {
    hide Reached;
    if s.batch == [] {
      l' := l;
      assert run + [] == run;
    } else {
      var step := T.Construct(id, id, BatchOf(s.batch));
      TokenStep(run, l, step);
      l' := T.Next(l, step);
    }
  }

  /** Completing and destroying the object of a batch in flight. */
  lemma ReleaseTokens(run: seq<T.Step>, l: T.Ledger, id: SessionId, batch: seq<Packet>, bytes: nat, failed: bool)
    returns (l': T.Ledger)
    requires Reached(run, l) && batch != [] && InLedger(l, id, batch) && bytes <= |Flatten(batch)|
    ensures Reached(run + [T.Complete(id, bytes, failed)] + [T.Destroy(id)], l')
    ensures id !in l'.objects && l'.objects == l.objects - {id}
  {
    hide Reached;
    TotalIsFlattenedSize(batch);
    var complete := T.Complete(id, bytes, failed);
    TokenStep(run, l, complete);
    var done := T.Next(l, complete);
    TokenStep(run + [complete], done, T.Destroy(id));
    l' := T.Next(done, T.Destroy(id));
  }

  lemma IoTokens(v: Server, step: Step, run: seq<T.Step>, l: T.Ledger) returns (l': T.Ledger)
    requires B.Inv(v) && Enabled(v, step) && (step.StartWriter? || step.WriteDone?) && Reached(run, l) && Linked(v, l)
    ensures Reached(run + TokenSteps(v, step), l')
    ensures InLedger(l', step.id, IoEffect(v.peers[step.id], step, !v.worker.closed).peer.session.batch)
    ensures l'.objects - {step.id} == l.objects - {step.id}
  {
    hide B.Inv, Reached, S.WriterTurn, S.WriteCompleted;
    B.IoIsReady(v, step);
    var s := v.peers[step.id].session;
    assert InLedger(l, step.id, s.batch);
    if step.StartWriter? {
      l' := FetchTokens(run, l, step.id, S.WriterTurn(s));
    } else {
      var bytes := if step.failed then step.transferred else |Flatten(s.batch)|;
      var released := ReleaseTokens(run, l, step.id, s.batch, bytes, step.failed);
      var after := run + [T.Complete(step.id, bytes, step.failed)] + [T.Destroy(step.id)];
      l' := FetchTokens(after, released, step.id, S.WriteCompleted(s, step.transferred, step.failed).session);
      assert run + TokenSteps(v, step) ==
             after + Fetched(step.id, S.WriteCompleted(s, step.transferred, step.failed).session);
    }
  }

  lemma EffectKeepsBatch(p: Peer, step: Step, open: bool)
    requires IsIo(step) && B.IoReady(p, step) && !step.StartWriter? && !step.WriteDone?
    ensures IoEffect(p, step, open).peer.session.batch == p.session.batch
  {
    hide S.ProcessOne, S.Enqueue, S.Stop;
    match step
    case NextPacket(_) => ProcessKeepsBatch(p.session, open);
    case RunPosted(_) => S.EnqueueFields(p.session, p.posted[0]);
    case _ =>
      StopKeepsBatch(p.session, R.ProtocolError);
      StopKeepsBatch(p.session, R.ClientClosed);
      StopKeepsBatch(p.session, R.IoError);
  }

  lemma ProcessKeepsBatch(s: S.Session, open: bool)
    ensures S.ProcessOne(s, open).0.session.batch == s.batch
  {
    hide P.DecodeOne, S.HandlePacket;
    if s.inbox != [] && P.DecodeOne(s.inbox).Success? {
      HandleKeepsBatch(s, P.DecodeOne(s.inbox).value, open);
    }
  }

  lemma HandleKeepsBatch(s: S.Session, view: P.PacketView, open: bool)
    requires view.consumed <= |s.inbox|
    ensures S.HandlePacket(s, view, open).0.session.batch == s.batch
  {
    hide P.Packet, S.Enqueue, S.Stop;
    StopKeepsBatch(s, R.ProtocolError);
    StopKeepsBatch(s, R.ServerShutdown);
    S.EnqueueFields(S.Consume(s, view), P.Packet(P.Ping, view.payload));
  }

  lemma StopKeepsBatch(s: S.Session, reason: R.Reason)
    ensures S.Stop(s, reason).session.batch == s.batch
  {
  }

  lemma StepTokens(v: Server, step: Step, run: seq<T.Step>, l: T.Ledger) returns (l': T.Ledger)
    requires B.Inv(v) && Enabled(v, step) && Reached(run, l) && Linked(v, l)
    ensures Reached(run + TokenSteps(v, step), l') && Linked(Next(v, step), l')
  {
    hide B.Inv, Reached, IoEffect, Next, BatchOf;
    B.ConnectIsNew(v);
    if step.StartWriter? || step.WriteDone? {
      l' := IoTokens(v, step, run, l);
    } else {
      l' := l;
      assert run + [] == run;
    }
    var v' := Next(v, step);
    forall id: SessionId | id in v'.peers
      ensures InLedger(l', id, v'.peers[id].session.batch)
    {
      if id !in v.peers {
        StepIsNew(v, step, id);
        assert id in l.objects ==> IsPeer(v, id);
      } else {
        assert InLedger(l, id, v.peers[id].session.batch);
        StepAt(v, step, id);
        if IsIo(step) && step.id == id {
          if !step.StartWriter? && !step.WriteDone? {
            B.IoIsReady(v, step);
            EffectKeepsBatch(v.peers[id], step, !v.worker.closed);
          }
        } else {
          SameElsewhere(l, l', step, id);
        }
      }
    }
    forall o | o in l'.objects
      ensures IsPeer(v', o)
    {
      if IsIo(step) && o == step.id {
        StepAt(v, step, step.id);
      } else {
        SameElsewhere(l, l', step, o);
        assert IsPeer(v, o);
        StepAt(v, step, o);
      }
    }
  }

  lemma SameElsewhere(l: T.Ledger, l': T.Ledger, step: Step, o: nat)
    requires l' == l || (IsIo(step) && l'.objects - {step.id} == l.objects - {step.id} && o != step.id)
    ensures o in l'.objects <==> o in l.objects
    ensures o in l.objects ==> l'.objects[o] == l.objects[o]
  {
    if l' != l {
      assert o in l'.objects <==> o in l'.objects - {step.id};
      assert o in l.objects <==> o in l.objects - {step.id};
      assert o in l.objects ==> (l'.objects - {step.id})[o] == (l.objects - {step.id})[o];
    }
  }

  lemma {:induction false} RunTokens(steps: seq<Step>) returns (l: T.Ledger)
    requires Possible(steps)
    ensures Reached(TokenRun(steps), l) && Linked(State(steps), l)
  {
    if steps == [] {
      l := T.INITIAL;
      T.InitialIsRight();
    } else {
      var init, last := steps[..|steps| - 1], steps[|steps| - 1];
      var before := RunTokens(init);
      B.RunKeepsInv(init);
      hide Next, Enabled, Reached, Linked, TokenSteps, B.Inv;
      l := StepTokens(State(init), last, TokenRun(init), before);
    }
  }

  lemma ShownIs(run: seq<T.Step>, l: T.Ledger, id: SessionId, batch: seq<Packet>)
    requires Reached(run, l) && InLedger(l, id, batch) && T.AlwaysRight(run)
    ensures T.Shown(l, id) == BatchOf(batch)
  {
    hide T.Shown, T.InFlight, T.State, T.Possible, T.Honest, T.NonEmpty;
    assert T.Right(l) && T.Single(l);
    assert T.Shown(l, id) == T.InFlight(l, id);
    if batch == [] {
      assert T.Idle(l, id);
      T.InFlightOfNone(l, id);
    } else {
      assert T.Holds(l, id);
      T.InFlightOfOne(l, id);
    }
  }

  /**
   In every run of the server the write-batch objects meet the condition for the overwritten gauge: no session ever
   has two. So the gauge is right all along, and shows each session's batch in flight; and no more bytes are counted
   as transferred than were requested.
   */
  lemma GaugeShowsInFlight(steps: seq<Step>, id: SessionId)
    requires Possible(steps) && id in State(steps).peers
    ensures var run := TokenRun(steps);
            && T.Possible(run) && T.AlwaysSingle(run) && T.AlwaysRight(run)
            && T.Shown(T.State(run), id) == BatchOf(State(steps).peers[id].session.batch)
            && T.State(run).transferred <= T.State(run).requested
  {
    var l := RunTokens(steps);
    var run := TokenRun(steps);
    hide Possible, State, TokenRun, T.AlwaysRight, T.AlwaysSingle, T.Honest;
    T.GaugeRightExactly(run);
    T.SingleExactly(run);
    T.TransferredWithinRequested(run);
    ShownIs(run, l, id, State(steps).peers[id].session.batch);
  }
}
