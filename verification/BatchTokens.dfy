/**
 WriteBatch objects in any order of construction, completion and destruction: what the counters say, and exactly when
 the in-flight gauge, which is overwritten rather than added to, is right.
 */
module BatchTokens {
  import opened Common
  import opened Sums

  datatype Batch = Batch(packets: nat, bytes: nat)

  const ZERO := Batch(0, 0)

  /** What an object holds: the session it writes for and what it asked for. */
  datatype Token = Token(session: nat, batch: Batch)

  /** objects are the existing ones; one that has completed holds nothing. */
  datatype Ledger = Ledger(
    started: nat,
    completed: nat,
    failed: nat,
    abandoned: nat,
    requested: nat,
    transferred: nat,
    gauge: map<nat, Batch>,
    objects: map<nat, Option<Token>>)

  const INITIAL := Ledger(0, 0, 0, 0, 0, 0, map[], map[])

  datatype Step = Construct(o: nat, session: nat, batch: Batch) | Complete(o: nat, bytes: nat, error: bool) | Destroy(o: nat)

  predicate Enabled(l: Ledger, step: Step)
  {
    if step.Construct? then step.o !in l.objects else step.o in l.objects
  }

  function Next(l: Ledger, step: Step): Ledger
    requires Enabled(l, step)
  {
    match step
    case Construct(o, session, batch) =>
      l.(gauge := l.gauge[session := batch], started := l.started + 1, requested := l.requested + batch.bytes,
         objects := l.objects[o := Some(Token(session, batch))])
    case Complete(o, bytes, error) =>
      if l.objects[o].None? then l
      else
        l.(gauge := l.gauge[l.objects[o].value.session := ZERO], transferred := l.transferred + bytes,
           completed := l.completed + 1, failed := l.failed + (if error then 1 else 0), objects := l.objects[o := None])
    case Destroy(o) =>
      if l.objects[o].None? then l.(objects := l.objects - {o})
      else
        l.(gauge := l.gauge[l.objects[o].value.session := ZERO], abandoned := l.abandoned + 1,
           objects := l.objects - {o})
  }

  ghost predicate Possible(steps: seq<Step>)
    decreases |steps|, 0
  {
    steps == [] || (Possible(steps[..|steps| - 1]) && Enabled(State(steps[..|steps| - 1]), steps[|steps| - 1]))
  }

  ghost function State(steps: seq<Step>): Ledger
    requires Possible(steps)
    decreases |steps|, 1
  {
    if steps == [] then INITIAL else Next(State(steps[..|steps| - 1]), steps[|steps| - 1])
  }

  lemma RunStep(steps: seq<Step>, step: Step)
    requires Possible(steps) && Enabled(State(steps), step)
    ensures Possible(steps + [step]) && State(steps + [step]) == Next(State(steps), step)
  {
    hide Next, Enabled;
    assert (steps + [step])[..|steps|] == steps;
  }

  // Each batch is released once.

  predicate Holds(l: Ledger, o: nat)
  {
    o in l.objects && l.objects[o].Some?
  }

  /** The batches that are still held. */
  function Live(l: Ledger): set<nat>
  {
    set o | o in l.objects && Holds(l, o)
  }

  /** An object that holds nothing moves no counter and no gauge, however often it is completed, and when destroyed. */
  lemma EmptyIsInert(l: Ledger, step: Step)
    requires Enabled(l, step) && !step.Construct? && !Holds(l, step.o)
    ensures var l' := Next(l, step);
            l' == l.(objects := l'.objects) && Live(l') == Live(l)
  {
  }

  ghost predicate Accounted(l: Ledger)
  {
    l.started == l.completed + l.abandoned + |Live(l)| && l.failed <= l.completed
  }

  lemma StepAccounts(l: Ledger, step: Step)
    requires Accounted(l) && Enabled(l, step)
    ensures Accounted(Next(l, step))
  {
    var l' := Next(l, step);
    if step.Construct? {
      assert Live(l') == Live(l) + {step.o};
    } else if Holds(l, step.o) {
      assert Live(l') == Live(l) - {step.o};
    } else {
      EmptyIsInert(l, step);
    }
  }

  /** In every order of operations: started = completed + abandoned + still held. */
  lemma {:induction false} EachReleasesOnce(steps: seq<Step>)
    requires Possible(steps)
    ensures Accounted(State(steps))
  {
    hide Next, Enabled;
    if steps != [] {
      EachReleasesOnce(steps[..|steps| - 1]);
      StepAccounts(State(steps[..|steps| - 1]), steps[|steps| - 1]);
    } else {
      assert Live(INITIAL) == {};
    }
  }

  // The counters, read off the run.

  /** What an object holds by the last step that names it: a batch if that constructed it. */
  function Holding(steps: seq<Step>, o: nat): Option<Token>
  {
    if steps == [] then None
    else
      var last := steps[|steps| - 1];
      if last.o != o then Holding(steps[..|steps| - 1], o)
      else if last.Construct? then Some(Token(last.session, last.batch))
      else None
  }

  datatype Totals = Totals(started: nat, completed: nat, failed: nat, abandoned: nat, requested: nat, transferred: nat)

  /** Every construction counts, and a completion or destruction counts if it releases the batch. */
  function Tally(steps: seq<Step>): Totals
  {
    if steps == [] then Totals(0, 0, 0, 0, 0, 0)
    else
      var init, last := steps[..|steps| - 1], steps[|steps| - 1];
      var t, releases := Tally(init), Holding(init, last.o).Some?;
      match last
      case Construct(_, _, batch) => t.(started := t.started + 1, requested := t.requested + batch.bytes)
      case Complete(_, bytes, error) =>
        if !releases then t
        else
          t.(completed := t.completed + 1, transferred := t.transferred + bytes,
             failed := t.failed + if error then 1 else 0)
      case Destroy(_) => if releases then t.(abandoned := t.abandoned + 1) else t
  }

  /** In every run the counters are the counts and byte sums of the steps that cause them. */
  lemma {:induction false} CountersAreTallies(steps: seq<Step>)
    requires Possible(steps)
    ensures var l := State(steps);
            Tally(steps) == Totals(l.started, l.completed, l.failed, l.abandoned, l.requested, l.transferred)
    ensures forall o: nat :: Holding(steps, o) == if Holds(State(steps), o) then State(steps).objects[o] else None
  {
    if steps != [] {
      var init, last := steps[..|steps| - 1], steps[|steps| - 1];
      CountersAreTallies(init);
      hide Possible;
      assert Holding(init, last.o).Some? <==> Holds(State(init), last.o);
      forall o: nat
        ensures Holding(steps, o) == if Holds(State(steps), o) then State(steps).objects[o] else None
      {
        assert Holding(init, o) == if Holds(State(init), o) then State(init).objects[o] else None;
        if o != last.o {
          OthersKept(State(init), last, o);
        }
      }
    }
  }

  // Bytes.

  function HeldBytes(l: Ledger): map<nat, nat>
  {
    map o | o in l.objects && Holds(l, o) :: l.objects[o].value.batch.bytes
  }

  /** No completion of this run reports more than its batch asked for. */
  ghost predicate Honest(steps: seq<Step>)
    requires Possible(steps)
  {
    steps == [] ||
    (Honest(steps[..|steps| - 1]) &&
     var l, last := State(steps[..|steps| - 1]), steps[|steps| - 1];
     last.Complete? && Holds(l, last.o) ==> last.bytes <= l.objects[last.o].value.batch.bytes)
  }

  lemma StepBytes(l: Ledger, step: Step)
    requires Enabled(l, step)
    ensures var held, held' := Sum(HeldBytes(l)), Sum(HeldBytes(Next(l, step)));
            if step.Construct? then held' == held + step.batch.bytes
            else held' == held - if Holds(l, step.o) then l.objects[step.o].value.batch.bytes else 0
  {
    hide Sum;
    var l' := Next(l, step);
    if step.Construct? {
      SumAdd(HeldBytes(l), step.o, step.batch.bytes);
      assert HeldBytes(l') == HeldBytes(l)[step.o := step.batch.bytes];
    } else if Holds(l, step.o) {
      SumRemove(HeldBytes(l), step.o);
      assert HeldBytes(l') == HeldBytes(l) - {step.o};
    } else {
      assert HeldBytes(l') == HeldBytes(l);
    }
  }

  /** Then the bytes transferred and those still held together are within the bytes requested. */
  lemma {:induction false} TransferredWithinRequested(steps: seq<Step>)
    requires Possible(steps) && Honest(steps)
    ensures State(steps).transferred + Sum(HeldBytes(State(steps))) <= State(steps).requested
  {
    hide HeldBytes, Sum;
    if steps == [] {
      NothingHeld();
    } else {
      TransferredWithinRequested(steps[..|steps| - 1]);
      StepBytes(State(steps[..|steps| - 1]), steps[|steps| - 1]);
    }
  }

  lemma NothingHeld()
    ensures Sum(HeldBytes(INITIAL)) == 0
  {
    assert HeldBytes(INITIAL) == map[];
  }

  // The gauge.

  function Shown(l: Ledger, s: nat): Batch
  {
    if s in l.gauge then l.gauge[s] else ZERO
  }

  function Packets(l: Ledger, s: nat): map<nat, nat>
  {
    map o | o in l.objects && Holds(l, o) && l.objects[o].value.session == s :: l.objects[o].value.batch.packets
  }

  function Bytes(l: Ledger, s: nat): map<nat, nat>
  {
    map o | o in l.objects && Holds(l, o) && l.objects[o].value.session == s :: l.objects[o].value.batch.bytes
  }

  /** What the session really has in flight: the sum over the batches still held for it. */
  ghost function InFlight(l: Ledger, s: nat): Batch
  {
    Batch(Sum(Packets(l, s)), Sum(Bytes(l, s)))
  }

  ghost predicate Right(l: Ledger)
  {
    forall s :: Shown(l, s) == InFlight(l, s)
  }

  /** No session has two batches in flight. */
  ghost predicate Single(l: Ledger)
  {
    forall o, o' :: Holds(l, o) && Holds(l, o') && l.objects[o].value.session == l.objects[o'].value.session ==> o == o'
  }

  ghost predicate AlwaysRight(steps: seq<Step>)
    requires Possible(steps)
  {
    Right(State(steps)) && (steps != [] ==> AlwaysRight(steps[..|steps| - 1]))
  }

  ghost predicate AlwaysSingle(steps: seq<Step>)
    requires Possible(steps)
  {
    Single(State(steps)) && (steps != [] ==> AlwaysSingle(steps[..|steps| - 1]))
  }

  ghost predicate Idle(l: Ledger, s: nat)
  {
    forall o :: Holds(l, o) ==> l.objects[o].value.session != s
  }

  /** Apart from its own object a step leaves what is held alone. */
  lemma OthersKept(l: Ledger, step: Step, o: nat)
    requires Enabled(l, step) && o != step.o
    ensures Holds(Next(l, step), o) <==> Holds(l, o)
    ensures Holds(l, o) ==> Next(l, step).objects[o] == l.objects[o]
  {
  }

  lemma InFlightOfNone(l: Ledger, s: nat)
    requires Idle(l, s)
    ensures InFlight(l, s) == ZERO
  {
    assert Packets(l, s) == map[] && Bytes(l, s) == map[];
  }

  lemma InFlightOfOne(l: Ledger, o: nat)
    requires Single(l) && Holds(l, o)
    ensures InFlight(l, l.objects[o].value.session) == l.objects[o].value.batch
  {
    var s := l.objects[o].value.session;
    assert Packets(l, s).Keys == {o} && Bytes(l, s).Keys == {o};
    SumOfOne(Packets(l, s), o);
    SumOfOne(Bytes(l, s), o);
  }

  ghost predicate HeldEmpty(l: Ledger, s: nat, except: nat)
  {
    forall o :: Holds(l, o) && o != except && l.objects[o].value.session == s ==> l.objects[o].value.batch == ZERO
  }

  /** A step that overwrites the gauge finds nothing but empty batches held for that session, its own aside. */
  ghost predicate Alone(l: Ledger, step: Step)
    requires Enabled(l, step)
  {
    if step.Construct? then HeldEmpty(l, step.session, step.o)
    else Holds(l, step.o) ==> HeldEmpty(l, l.objects[step.o].value.session, step.o)
  }

  lemma InFlightZero(l: Ledger, s: nat, except: nat)
    requires Holds(l, except) ==> l.objects[except].value.session != s
    ensures InFlight(l, s) == ZERO <==> HeldEmpty(l, s, except)
  {
    hide Sum;
    SumZero(Packets(l, s));
    SumZero(Bytes(l, s));
    forall o | o in Packets(l, s)
      ensures o in Bytes(l, s) && Holds(l, o) && l.objects[o].value.session == s && o != except
      ensures l.objects[o].value.batch == Batch(Packets(l, s)[o], Bytes(l, s)[o])
    {
    }
    forall o | Holds(l, o) && l.objects[o].value.session == s
      ensures o in Packets(l, s) && o in Bytes(l, s)
    {
    }
  }

  /** What a step does to the batches held for a session. */
  lemma InFlightStep(l: Ledger, step: Step, s: nat)
    requires Enabled(l, step)
    ensures if step.Construct? && step.session == s then
              InFlight(Next(l, step), s) ==
              Batch(InFlight(l, s).packets + step.batch.packets, InFlight(l, s).bytes + step.batch.bytes)
            else !Holds(l, step.o) || l.objects[step.o].value.session != s ==> InFlight(Next(l, step), s) == InFlight(l, s)
  {
    hide Sum, Packets, Bytes, Next;
    PacketsStep(l, step, s);
    BytesStep(l, step, s);
    if step.Construct? && step.session == s {
      SumAdd(Packets(l, s), step.o, step.batch.packets);
      SumAdd(Bytes(l, s), step.o, step.batch.bytes);
    }
  }

  lemma PacketsStep(l: Ledger, step: Step, s: nat)
    requires Enabled(l, step)
    ensures if step.Construct? && step.session == s then
              step.o !in Packets(l, s) && Packets(Next(l, step), s) == Packets(l, s)[step.o := step.batch.packets]
            else !Holds(l, step.o) || l.objects[step.o].value.session != s ==> Packets(Next(l, step), s) == Packets(l, s)
  {
  }

  lemma BytesStep(l: Ledger, step: Step, s: nat)
    requires Enabled(l, step)
    ensures if step.Construct? && step.session == s then
              step.o !in Bytes(l, s) && Bytes(Next(l, step), s) == Bytes(l, s)[step.o := step.batch.bytes]
            else !Holds(l, step.o) || l.objects[step.o].value.session != s ==> Bytes(Next(l, step), s) == Bytes(l, s)
  {
  }

  lemma OtherGauges(l: Ledger, step: Step, s: nat)
    requires Enabled(l, step) && Shown(l, s) == InFlight(l, s)
    requires step.Construct? ==> step.session != s
    requires !step.Construct? && Holds(l, step.o) ==> l.objects[step.o].value.session != s
    ensures Shown(Next(l, step), s) == InFlight(Next(l, step), s)
  {
    hide InFlight;
    InFlightStep(l, step, s);
  }

  lemma ConstructedGauge(l: Ledger, step: Step)
    requires Enabled(l, step) && step.Construct?
    ensures Shown(Next(l, step), step.session) == InFlight(Next(l, step), step.session) <==> Alone(l, step)
  {
    InFlightStep(l, step, step.session);
    InFlightZero(l, step.session, step.o);
  }

  lemma ReleasedGauge(l: Ledger, step: Step)
    requires Enabled(l, step) && !step.Construct? && Holds(l, step.o)
    ensures var s := l.objects[step.o].value.session;
            Shown(Next(l, step), s) == InFlight(Next(l, step), s) <==> Alone(l, step)
  {
    hide InFlight;
    var l', s := Next(l, step), l.objects[step.o].value.session;
    InFlightZero(l', s, step.o);
    forall o | o != step.o
      ensures Holds(l', o) <==> Holds(l, o)
      ensures Holds(l, o) ==> l'.objects[o] == l.objects[o]
    {
      OthersKept(l, step, o);
    }
  }

  /** A right gauge stays right through a step if and only if the step is alone. */
  lemma StepRight(l: Ledger, step: Step)
    requires Enabled(l, step) && Right(l)
    ensures Right(Next(l, step)) <==> Alone(l, step)
  {
    var writes := step.Construct? || Holds(l, step.o);
    var target := if step.Construct? then step.session else if writes then l.objects[step.o].value.session else 0;
    hide Shown, InFlight;
    if step.Construct? {
      ConstructedGauge(l, step);
    } else if writes {
      ReleasedGauge(l, step);
    }
    hide Next, Enabled;
    forall s | !writes || s != target
      ensures Shown(Next(l, step), s) == InFlight(Next(l, step), s)
    {
      assert Shown(l, s) == InFlight(l, s);
      OtherGauges(l, step, s);
    }
    assert Right(Next(l, step)) ==> Shown(Next(l, step), target) == InFlight(Next(l, step), target);
  }

  ghost predicate AlwaysAlone(steps: seq<Step>)
    requires Possible(steps)
  {
    steps == [] ||
    (AlwaysAlone(steps[..|steps| - 1]) && Alone(State(steps[..|steps| - 1]), steps[|steps| - 1]))
  }

  /**
   In every run: the gauge has been right all along if and only if every step that overwrote it found no other batch
   of that session held but empty ones.
   */
  lemma {:induction false} GaugeRightExactly(steps: seq<Step>)
    requires Possible(steps)
    ensures AlwaysRight(steps) <==> AlwaysAlone(steps)
  {
    hide Next, Enabled, Right, Alone;
    if steps == [] {
      InitialIsRight();
    } else {
      var init, last := steps[..|steps| - 1], steps[|steps| - 1];
      GaugeRightExactly(init);
      if AlwaysRight(init) {
        StepRight(State(init), last);
      }
    }
  }

  lemma InitialIsRight()
    ensures Right(INITIAL) && Single(INITIAL)
  {
    forall s
      ensures Shown(INITIAL, s) == InFlight(INITIAL, s)
    {
      InFlightOfNone(INITIAL, s);
    }
  }

  // The same for batches that are not empty, as the writer's never are.

  ghost predicate NonEmpty(steps: seq<Step>)
  {
    forall i :: 0 <= i < |steps| && steps[i].Construct? ==> steps[i].batch.packets > 0
  }

  ghost predicate AllHeldNonEmpty(l: Ledger)
  {
    forall o :: Holds(l, o) ==> l.objects[o].value.batch.packets > 0
  }

  lemma {:induction false} HeldAreNonEmpty(steps: seq<Step>)
    requires Possible(steps) && NonEmpty(steps)
    ensures AllHeldNonEmpty(State(steps))
  {
    if steps != [] {
      var init, last := steps[..|steps| - 1], steps[|steps| - 1];
      HeldAreNonEmpty(init);
      var l, l' := State(init), State(steps);
      forall o | Holds(l', o)
        ensures l'.objects[o].value.batch.packets > 0
      {
        if o != last.o {
          OthersKept(l, last, o);
        } else {
          assert last == steps[|steps| - 1];
        }
      }
    }
  }

  lemma AloneIsSingle(l: Ledger, step: Step)
    requires Enabled(l, step) && Single(l) && AllHeldNonEmpty(l)
    ensures Single(Next(l, step)) <==> Alone(l, step)
  {
    var l' := Next(l, step);
    forall o | o != step.o
      ensures Holds(l', o) <==> Holds(l, o)
      ensures Holds(l, o) ==> l'.objects[o] == l.objects[o]
    {
      OthersKept(l, step, o);
    }
    if step.Construct? {
      assert Holds(l', step.o) && l'.objects[step.o].value.session == step.session;
    }
  }

  /** Non-empty batches: every step was alone if and only if no session ever had two. */
  lemma {:induction false} SingleExactly(steps: seq<Step>)
    requires Possible(steps) && NonEmpty(steps)
    ensures AlwaysAlone(steps) <==> AlwaysSingle(steps)
  {
    hide Next, Enabled, Right, Alone, Single, AllHeldNonEmpty;
    if steps == [] {
      InitialIsRight();
    } else {
      var init, last := steps[..|steps| - 1], steps[|steps| - 1];
      SingleExactly(init);
      HeldAreNonEmpty(init);
      if AlwaysSingle(init) {
        AloneIsSingle(State(init), last);
      }
    }
  }

  /** Two batches of one session: completing the first zeroes the gauge while the second is still in flight. */
  lemma FirstCompletionHidesSecond(s: nat, first: Batch, second: Batch, bytes: nat, error: bool)
    requires second.packets > 0
    ensures var steps := [Construct(1, s, first)] + [Construct(2, s, second)] + [Complete(1, bytes, error)];
            && Possible(steps) && Holds(State(steps), 2) && State(steps).objects[2].value == Token(s, second)
            && Shown(State(steps), s) == ZERO && InFlight(State(steps), s) == second
  {
    RunStep([], Construct(1, s, first));
    assert [] + [Construct(1, s, first)] == [Construct(1, s, first)];
    RunStep([Construct(1, s, first)], Construct(2, s, second));
    RunStep([Construct(1, s, first)] + [Construct(2, s, second)], Complete(1, bytes, error));
    var l := State([Construct(1, s, first)] + [Construct(2, s, second)] + [Complete(1, bytes, error)]);
    assert l.objects == map[1 := None, 2 := Some(Token(s, second))];
    assert forall o :: Holds(l, o) <==> o == 2;
    InFlightOfOne(l, 2);
  }
}
