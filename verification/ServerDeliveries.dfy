/** The deliver calls of the running server, counted, against the memberships in the Room's log. */
module ServerDeliveries {
  import opened Common
  import opened ServerSteps
  import B = ServerBroadcast
  import E = RoomEventEncoder
  import G = SessionRegistry
  import M = ServerMembership
  import R = Room

  /** How often the run has called deliver. */
  function Delivers(steps: seq<Step>): nat
  {
    if steps == [] then 0 else Delivers(steps[..|steps| - 1]) + if steps[|steps| - 1].Deliver? then 1 else 0
  }

  /** Deliver calls that the publish in progress still has to make. */
  function Remaining(v: Server): nat
  {
    if v.delivery.Some? then |v.delivery.value| else 0
  }

  /** Every player was registered and had a living endpoint whenever publish looked. */
  ghost predicate EveryoneThere(steps: seq<Step>)
    requires Possible(steps)
  {
    steps == [] ||
    (EveryoneThere(steps[..|steps| - 1]) &&
     (steps[|steps| - 1].Collect? ==> AllReachable(State(steps[..|steps| - 1]))))
  }

  predicate AllReachable(v: Server)
  {
    v.worker.players.Keys <= v.registry.sessions * Alive(v)
  }

  lemma DeliveriesStep(log: seq<R.Entry>, entry: R.Entry)
    ensures R.Deliveries(log + [entry]) == R.Deliveries(log) + |entry.after|
  {
    assert (log + [entry])[..|log|] == log;
  }

  /** Only publish's locked section publishes. */
  lemma PublishedStays(v: Server, step: Step)
    requires B.Inv(v) && Enabled(v, step) && !step.Collect?
    ensures B.Published(Next(v, step)) == B.Published(v)
  {
    hide B.PeerOk, B.BroadcastAt, IoEffect, R.Apply, E.EventPacket, G.Collect, G.Register, G.Unregister, M.Inv;
    if step.Apply? {
      B.ApplySameEvents(v);
    } else if WorkerEnabled(v, step) && !step.Deliver? {
      B.ControlSameEvents(v, step);
    }
  }

  lemma RemainingStays(v: Server, step: Step)
    requires Enabled(v, step) && !step.Collect?
    ensures Remaining(Next(v, step)) == Remaining(v) - if step.Deliver? then 1 else 0
  {
    hide IoEffect, R.Apply, E.EventPacket, G.Collect, G.Register, G.Unregister;
  }

  /** The locked section publishes the last entry of the log to its players that are registered and alive. */
  lemma CollectPublishes(v: Server)
    requires B.Inv(v) && Enabled(v, Collect)
    ensures var v' := Next(v, Collect);
            && R.Deliveries(B.Published(v')) == R.Deliveries(B.Published(v)) + |v.worker.players.Keys|
            && Remaining(v) == 0 && Remaining(v') == |v.worker.players.Keys * (v.registry.sessions * Alive(v))|
  {
    hide B.PeerOk, B.BroadcastAt, IoEffect, R.Apply, E.EventPacket, G.Collect, M.Inv, Alive, R.Deliveries;
    M.CollectKeepsInv(v);
    B.LastEntry(v);
    var log := v.worker.log;
    assert log == B.Published(v) + [log[|log| - 1]];
    DeliveriesStep(B.Published(v), log[|log| - 1]);
    Regroup(v.worker.players.Keys, v.registry.sessions, Alive(v));
  }

  lemma Regroup(players: set<SessionId>, sessions: set<SessionId>, alive: set<SessionId>)
    ensures players * sessions * alive == players * (sessions * alive)
  {
  }

  lemma Fewer(players: set<SessionId>, reachable: set<SessionId>)
    ensures |players * reachable| <= |players|
    ensures |players * reachable| == |players| <==> players <= reachable
  {
    var missing := players - reachable;
    assert players == players * reachable + missing;
    assert |players| == |players * reachable| + |missing|;
    if missing == {} {
      assert players <= reachable;
    } else {
      var id :| id in missing;
      assert |missing| > 0;
    }
  }

  /** What a step adds to the calls made or due, and to the memberships published. */
  lemma StepCalls(v: Server, step: Step)
    requires B.Inv(v) && Enabled(v, step)
    ensures var v' := Next(v, step);
            var calls := Remaining(v') + (if step.Deliver? then 1 else 0) - Remaining(v);
            var due := R.Deliveries(B.Published(v')) - R.Deliveries(B.Published(v));
            calls <= due && (calls == due <==> (step.Collect? ==> AllReachable(v)))
  {
    hide Next, Enabled, B.Inv, R.Deliveries, Alive, B.Published, Remaining;
    if step.Collect? {
      CollectPublishes(v);
      Fewer(v.worker.players.Keys, v.registry.sessions * Alive(v));
    } else {
      PublishedStays(v, step);
      RemainingStays(v, step);
    }
  }

  /**
   In every run: the deliver calls made and still to be made are at most one per player after each published event,
   and exactly that many if and only if every player was reachable whenever publish looked.
   */
  lemma {:induction false} DeliverCalls(steps: seq<Step>)
    requires Possible(steps)
    ensures var v := State(steps);
            var calls := Delivers(steps) + Remaining(v);
            && calls <= R.Deliveries(B.Published(v))
            && (calls == R.Deliveries(B.Published(v)) <==> EveryoneThere(steps))
  {
    hide Next, Enabled, B.Inv, R.Deliveries, Alive, B.Published, Remaining, AllReachable;
    if steps != [] {
      var init, last := steps[..|steps| - 1], steps[|steps| - 1];
      DeliverCalls(init);
      B.RunKeepsInv(init);
      StepCalls(State(init), last);
    } else {
      NothingPublished();
    }
  }

  lemma NothingPublished()
    ensures R.Deliveries(B.Published(INITIAL)) == 0 && Remaining(INITIAL) == 0
  {
  }

  /** Between two publishes the calls made are the memberships of the whole log, if and only if nobody was missed. */
  lemma DeliverCallsOfLog(steps: seq<Step>)
    requires Possible(steps) && M.Unpublished(State(steps)).None? && Remaining(State(steps)) == 0
    ensures Delivers(steps) == R.Deliveries(State(steps).worker.log) <==> EveryoneThere(steps)
  {
    DeliverCalls(steps);
  }
}
