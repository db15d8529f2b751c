/** PendingDelivery objects of one session in any order of construction, move, begin and destruction. */
module DeliveryTokens {
  import opened Common
  import opened Sums

  /**
   objects maps each existing object to what it holds: the bytes it reserved, or nothing once it was moved from or
   begun. constructed and begun are history.
   */
  datatype Ledger = Ledger(
    jobs: int,
    bytes: int,
    abandoned: nat,
    objects: map<nat, Option<nat>>,
    constructed: nat,
    begun: nat)

  const INITIAL := Ledger(0, 0, 0, map[], 0, 0)

  datatype Step = Construct(o: nat, size: nat) | Move(from: nat, to: nat) | Begin(o: nat) | Destroy(o: nat)

  predicate Enabled(l: Ledger, step: Step)
  {
    match step
    case Construct(o, _) => o !in l.objects
    case Move(from, to) => from in l.objects && to !in l.objects
    case Begin(o) => o in l.objects
    case Destroy(o) => o in l.objects
  }

  function Released(l: Ledger, size: nat): Ledger
  {
    l.(jobs := l.jobs - 1, bytes := l.bytes - size)
  }

  function Next(l: Ledger, step: Step): Ledger
    requires Enabled(l, step)
  {
    match step
    case Construct(o, size) =>
      l.(jobs := l.jobs + 1, bytes := l.bytes + size, constructed := l.constructed + 1,
         objects := l.objects[o := Some(size)])
    case Move(from, to) => l.(objects := l.objects[from := None][to := l.objects[from]])
    case Begin(o) =>
      if l.objects[o].None? then l
      else Released(l, l.objects[o].value).(begun := l.begun + 1, objects := l.objects[o := None])
    case Destroy(o) =>
      if l.objects[o].None? then l.(objects := l.objects - {o})
      else Released(l, l.objects[o].value).(abandoned := l.abandoned + 1, objects := l.objects - {o})
  }

  ghost predicate Possible(steps: seq<Step>)
    decreases |steps|, 0
  {
    steps == [] || (Possible(steps[..|steps| - 1]) && Enabled(State(steps[..|steps| - 1]), steps[|steps| - 1]))
  }

  ghost function State(steps: seq<Step>): Ledger
    requires Possible(steps)
    decreases |steps|, 1
  {
    if steps == [] then INITIAL else Next(State(steps[..|steps| - 1]), steps[|steps| - 1])
  }

  lemma RunStep(steps: seq<Step>, step: Step)
    requires Possible(steps) && Enabled(State(steps), step)
    ensures Possible(steps + [step]) && State(steps + [step]) == Next(State(steps), step)
  {
    hide Next, Enabled;
    assert (steps + [step])[..|steps|] == steps;
  }

  /** The reservations that objects still hold. */
  ghost function Live(objects: map<nat, Option<nat>>): map<nat, nat>
  {
    map o | o in objects && objects[o].Some? :: objects[o].value
  }

  lemma LiveAdd(objects: map<nat, Option<nat>>, o: nat, size: nat)
    requires o !in objects
    ensures var live, live' := Live(objects), Live(objects[o := Some(size)]);
            live' == live[o := size] && |live'| == |live| + 1 && Sum(live') == Sum(live) + size
  {
    var live, live' := Live(objects), Live(objects[o := Some(size)]);
    assert live' == live[o := size];
    assert live'.Keys == live.Keys + {o};
    SumAdd(live, o, size);
  }

  lemma LiveRelease(objects: map<nat, Option<nat>>, o: nat)
    requires o in objects && objects[o].Some?
    ensures var live, live' := Live(objects), Live(objects[o := None]);
            live' == live - {o} && |live'| == |live| - 1 && Sum(live') == Sum(live) - objects[o].value
  {
    hide Sum;
    var live, live' := Live(objects), Live(objects[o := None]);
    assert live' == live - {o};
    SumRemove(live, o);
    hide Live;
    assert live.Keys == live'.Keys + {o};
  }

  lemma LiveIgnoresEmpty(objects: map<nat, Option<nat>>, o: nat)
    requires o in objects && objects[o].None?
    ensures Live(objects - {o}) == Live(objects)
  {
  }

  lemma LiveAddEmpty(objects: map<nat, Option<nat>>, o: nat)
    requires o !in objects
    ensures Live(objects[o := None]) == Live(objects)
  {
  }

  lemma LiveDestroy(objects: map<nat, Option<nat>>, o: nat)
    requires o in objects
    ensures Live(objects - {o}) == Live(objects[o := None])
  {
  }

  /** The gauges are the count and the byte sum of the live reservations, and each reservation is released once. */
  ghost predicate Accounted(l: Ledger)
  {
    && l.jobs == |Live(l.objects)| && l.bytes == Sum(Live(l.objects))
    && l.constructed == l.begun + l.abandoned + |Live(l.objects)|
  }

  lemma InitialIsAccounted()
    ensures Accounted(INITIAL)
  {
    assert Live(INITIAL.objects) == map[];
  }

  lemma MoveKeepsLive(objects: map<nat, Option<nat>>, from: nat, to: nat)
    requires from in objects && to !in objects
    ensures var live, live' := Live(objects), Live(objects[from := None][to := objects[from]]);
            |live'| == |live| && Sum(live') == Sum(live)
  {
    hide Live, Sum;
    if objects[from].Some? {
      LiveRelease(objects, from);
      LiveAdd(objects[from := None], to, objects[from].value);
    } else {
      assert objects[from := None] == objects;
      LiveAddEmpty(objects, to);
    }
  }

  lemma StepAccounts(l: Ledger, step: Step)
    requires Accounted(l) && Enabled(l, step)
    ensures Accounted(Next(l, step))
  {
    hide Live, Sum;
    match step
    case Construct(o, size) => LiveAdd(l.objects, o, size);
    case Move(from, to) => MoveKeepsLive(l.objects, from, to);
    case Begin(o) =>
      if l.objects[o].Some? {
        LiveRelease(l.objects, o);
      }
    case Destroy(o) =>
      if l.objects[o].Some? {
        LiveRelease(l.objects, o);
        LiveDestroy(l.objects, o);
      } else {
        LiveIgnoresEmpty(l.objects, o);
      }
  }

  /** In every order of operations the gauges are exact and each reservation is released once. */
  lemma {:induction false} GaugesAreExact(steps: seq<Step>)
    requires Possible(steps)
    ensures Accounted(State(steps))
  {
    hide Next, Enabled, Accounted;
    if steps == [] {
      InitialIsAccounted();
    } else {
      GaugesAreExact(steps[..|steps| - 1]);
      StepAccounts(State(steps[..|steps| - 1]), steps[|steps| - 1]);
    }
  }

  // The counters, read off the run.

  /** What an object holds by the last step that names it; a move hands it on. */
  function Holding(steps: seq<Step>, o: nat): Option<nat>
  {
    if steps == [] then None
    else
      var init := steps[..|steps| - 1];
      match steps[|steps| - 1]
      case Construct(x, size) => if x == o then Some(size) else Holding(init, o)
      case Move(from, to) => if to == o then Holding(init, from) else if from == o then None else Holding(init, o)
      case Begin(x) => if x == o then None else Holding(init, o)
      case Destroy(x) => if x == o then None else Holding(init, o)
  }

  datatype Totals = Totals(constructed: nat, begun: nat, abandoned: nat)

  function Tally(steps: seq<Step>): Totals
  {
    if steps == [] then Totals(0, 0, 0)
    else
      var init := steps[..|steps| - 1];
      var t := Tally(init);
      match steps[|steps| - 1]
      case Construct(_, _) => t.(constructed := t.constructed + 1)
      case Move(_, _) => t
      case Begin(o) => if Holding(init, o).Some? then t.(begun := t.begun + 1) else t
      case Destroy(o) => if Holding(init, o).Some? then t.(abandoned := t.abandoned + 1) else t
  }

  function Held(l: Ledger, o: nat): Option<nat>
  {
    if o in l.objects then l.objects[o] else None
  }

  /** In every run the counters are the numbers of the steps that cause them; objects hold what the run gave them. */
  lemma {:induction false} CountersAreTallies(steps: seq<Step>)
    requires Possible(steps)
    ensures var l := State(steps);
            Tally(steps) == Totals(l.constructed, l.begun, l.abandoned)
    ensures forall o: nat :: Holding(steps, o) == Held(State(steps), o)
  {
    if steps != [] {
      var init, last := steps[..|steps| - 1], steps[|steps| - 1];
      CountersAreTallies(init);
      hide Possible;
      forall o: nat
        ensures Holding(steps, o) == Held(State(steps), o)
      {
        assert Holding(init, o) == Held(State(init), o);
        if last.Move? {
          assert Holding(init, last.from) == Held(State(init), last.from);
        }
      }
      var touched := match last case Begin(o) => o case Destroy(o) => o case _ => 0;
      assert Holding(init, touched) == Held(State(init), touched);
    }
  }
}
