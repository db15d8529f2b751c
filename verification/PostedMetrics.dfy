/**
 The posted-delivery objects of the running server. deliver constructs one, moves it into the handler it posts and
 destroys the moved-from one; the handler begins its object when it runs and destroys it with itself. The k-th call of
 deliver for a session names the two objects 2k and 2k + 1.
 */
module PostedMetrics {
  import opened Common
  import opened OutboundQueue
  import opened ServerSteps
  import B = ServerBroadcast
  import D = DeliveryTokens
  import E = RoomEventEncoder
  import S = SessionSteps

  function Times(steps: seq<Step>, step: Step): nat
  {
    if steps == [] then 0 else Times(steps[..|steps| - 1], step) + if steps[|steps| - 1] == step then 1 else 0
  }

  function DeliverTokens(k: nat, size: nat): seq<D.Step>
  {
    [D.Construct(2 * k, size)] + [D.Move(2 * k, 2 * k + 1)] + [D.Destroy(2 * k)]
  }

  function HandlerTokens(k: nat): seq<D.Step>
  {
    [D.Begin(2 * k + 1)] + [D.Destroy(2 * k + 1)]
  }

  /** What the run does with the objects of one session. */
  ghost function TokenRun(steps: seq<Step>, id: SessionId): seq<D.Step>
    requires Possible(steps)
  {
    if steps == [] then []
    else
      var init, last := steps[..|steps| - 1], steps[|steps| - 1];
      TokenRun(init, id) +
      if last == Deliver(id) then DeliverTokens(Times(init, Deliver(id)), |E.EventPacket(Event(State(init)))|)
      else if last == RunPosted(id) then HandlerTokens(Times(init, RunPosted(id)))
      else []
  }

  function PostedOf(v: Server, id: SessionId): seq<Packet>
  {
    if id in v.peers then v.peers[id].posted else []
  }

  /** The objects in the handlers of posted packets, the first of them with number n. */
  function Held(n: nat, posted: seq<Packet>): (objects: map<nat, Option<nat>>)
    ensures forall o :: o in objects ==> o % 2 == 1 && n <= o / 2 < n + |posted|
  {
    if posted == [] then map[]
    else
      var k := |posted| - 1;
      Held(n, posted[..k])[2 * (n + k) + 1 := Some(|posted[k]|)]
  }

  lemma {:induction false} HeldFront(n: nat, posted: seq<Packet>)
    requires posted != []
    ensures 2 * n + 1 in Held(n, posted) && Held(n, posted)[2 * n + 1] == Some(|posted[0]|)
    ensures Held(n, posted) - {2 * n + 1} == Held(n + 1, posted[1..])
  {
    var k := |posted| - 1;
    var init := posted[..k];
    if k == 0 {
      assert init == [] && posted[1..] == [];
    } else {
      HeldFront(n, init);
      assert posted[1..][..k - 1] == init[1..];
      RemoveOther(Held(n, init), 2 * n + 1, 2 * (n + k) + 1, Some(|posted[k]|));
    }
  }

  lemma RemoveOther(objects: map<nat, Option<nat>>, o: nat, other: nat, held: Option<nat>)
    requires o != other
    ensures objects[other := held] - {o} == (objects - {o})[other := held]
  {
  }

  lemma HeldBack(n: nat, posted: seq<Packet>, packet: Packet)
    ensures Held(n, posted + [packet]) == Held(n, posted)[2 * (n + |posted|) + 1 := Some(|packet|)]
    ensures 2 * (n + |posted|) !in Held(n, posted) && 2 * (n + |posted|) + 1 !in Held(n, posted)
  {
    assert (posted + [packet])[..|posted|] == posted;
  }

  /** The run is possible; its gauges show the posted handlers, whose objects are the only ones; none was abandoned. */
  ghost predicate Shows(run: seq<D.Step>, n: nat, posted: seq<Packet>)
  {
    && D.Possible(run)
    && var l := D.State(run);
    && l.objects == Held(n, posted) && l.jobs == |posted| && l.bytes == Total(posted) && l.abandoned == 0
  }

  lemma DeliverShows(run: seq<D.Step>, n: nat, posted: seq<Packet>, packet: Packet)
    requires Shows(run, n, posted)
    ensures Shows(run + DeliverTokens(n + |posted|, |packet|), n, posted + [packet])
  {
    hide Held, D.Possible, D.State;
    var k, size := n + |posted|, |packet|;
    HeldBack(n, posted, packet);
    D.RunStep(run, D.Construct(2 * k, size));
    var one := run + [D.Construct(2 * k, size)];
    D.RunStep(one, D.Move(2 * k, 2 * k + 1));
    var two := one + [D.Move(2 * k, 2 * k + 1)];
    D.RunStep(two, D.Destroy(2 * k));
    assert run + DeliverTokens(k, size) == two + [D.Destroy(2 * k)];
    assert (posted + [packet])[..|posted|] == posted;
    assert D.State(two + [D.Destroy(2 * k)]).objects == Held(n, posted + [packet]);
  }

  lemma HandlerShows(run: seq<D.Step>, n: nat, posted: seq<Packet>)
    requires Shows(run, n, posted) && posted != []
    ensures Shows(run + HandlerTokens(n), n + 1, posted[1..])
  {
    hide Held, D.Possible, D.State;
    HeldFront(n, posted);
    TotalCons(posted);
    D.RunStep(run, D.Begin(2 * n + 1));
    var one := run + [D.Begin(2 * n + 1)];
    D.RunStep(one, D.Destroy(2 * n + 1));
    assert run + HandlerTokens(n) == one + [D.Destroy(2 * n + 1)];
    assert D.State(one + [D.Destroy(2 * n + 1)]).objects == Held(n, posted) - {2 * n + 1};
  }

  lemma EffectKeepsPosted(p: Peer, step: Step, open: bool)
    requires IsIo(step) && B.IoReady(p, step)
    ensures IoEffect(p, step, open).peer.posted == if step.RunPosted? then p.posted[1..] else p.posted
  {
    hide S.ProcessOne, S.Enqueue, S.WriteCompleted, S.WriterTurn, S.ReadFailed, S.Received;
  }

  /** Only deliveries post handlers, and only running one removes it. */
  lemma StepPosted(v: Server, step: Step, id: SessionId)
    requires B.Inv(v) && Enabled(v, step)
    ensures step == Deliver(id) ==> v.worker.phase.Handling?
    ensures step == RunPosted(id) ==> PostedOf(v, id) != []
    ensures PostedOf(Next(v, step), id) ==
            if step == Deliver(id) then PostedOf(v, id) + [E.EventPacket(Event(v))]
            else if step == RunPosted(id) then PostedOf(v, id)[1..]
            else PostedOf(v, id)
  {
    hide B.Inv, Next, IoEffect, E.EventPacket;
    B.ConnectIsNew(v);
    if id in v.peers {
      if IsIo(step) {
        if step.id == id {
          StepAt(v, step, id);
          B.IoIsReady(v, step);
          EffectKeepsPosted(v.peers[id], step, !v.worker.closed);
        } else {
          OtherPeer(v, step, id);
        }
      } else {
        PostedAt(v, step, id);
      }
    } else if id in Next(v, step).peers {
      StepIsNew(v, step, id);
    }
  }

  lemma {:induction false} RunShows(steps: seq<Step>, id: SessionId)
    requires Possible(steps)
    ensures var posted := PostedOf(State(steps), id);
            && Times(steps, Deliver(id)) == Times(steps, RunPosted(id)) + |posted|
            && Shows(TokenRun(steps, id), Times(steps, RunPosted(id)), posted)
  {
    hide Next, Enabled, Shows, DeliverTokens, HandlerTokens, E.EventPacket, B.Inv, PostedOf;
    if steps == [] {
      NothingShows(id);
    } else {
      var init, last := steps[..|steps| - 1], steps[|steps| - 1];
      RunShows(init, id);
      B.RunKeepsInv(init);
      var v, n := State(init), Times(init, RunPosted(id));
      StepPosted(v, last, id);
      if last == Deliver(id) {
        DeliverShows(TokenRun(init, id), n, PostedOf(v, id), E.EventPacket(Event(v)));
      } else if last == RunPosted(id) {
        HandlerShows(TokenRun(init, id), n, PostedOf(v, id));
      } else {
        assert TokenRun(init, id) + [] == TokenRun(init, id);
      }
    }
  }

  lemma NothingShows(id: SessionId)
    ensures PostedOf(INITIAL, id) == [] && Shows([], 0, [])
  {
  }

  /** In every run a session's posted gauges are the number and the bytes of its posted handlers, and none is abandoned. */
  lemma PostedGauges(steps: seq<Step>, id: SessionId)
    requires Possible(steps) && id in State(steps).peers
    ensures var run, posted := TokenRun(steps, id), State(steps).peers[id].posted;
            && D.Possible(run) && D.State(run).jobs == |posted| && D.State(run).bytes == Total(posted)
            && D.State(run).abandoned == 0
  {
    RunShows(steps, id);
  }
}
