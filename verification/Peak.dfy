/**
 A gauge and its peak under concurrent updates: any number of threads add to and subtract from the gauge, and each
 add then raises the peak with a load and a compare-exchange loop. Every atomic operation is one step.
 */
module Peak {

  /** A thread inside update_peak: about to load, or holding the value it last loaded. */
  datatype Updater = Offering(value: nat) | Comparing(previous: nat, value: nat)

  /** history holds every value the gauge has had, the last one being the current one. */
  datatype Metric = Metric(gauge: nat, peak: nat, updaters: map<nat, Updater>, history: seq<nat>)

  const INITIAL := Metric(0, 0, map[], [0])

  /** spurious is a weak compare-exchange failing although the values agree. */
  datatype Step =
    | Add(thread: nat, bytes: nat)
    | Sub(bytes: nat)
    | Load(thread: nat)
    | Exchange(thread: nat, spurious: bool)

  predicate Enabled(m: Metric, step: Step)
  {
    match step
    case Add(thread, _) => thread !in m.updaters
    case Sub(bytes) => bytes <= m.gauge
    case Load(thread) => thread in m.updaters && m.updaters[thread].Offering?
    case Exchange(thread, _) => thread in m.updaters && m.updaters[thread].Comparing?
  }

  function Next(m: Metric, step: Step): Metric
    requires Enabled(m, step)
  {
    match step
    case Add(thread, bytes) =>
      var gauge := m.gauge + bytes;
      m.(gauge := gauge, updaters := m.updaters[thread := Offering(gauge)], history := m.history + [gauge])
    case Sub(bytes) => m.(gauge := m.gauge - bytes, history := m.history + [m.gauge - bytes])
    case Load(thread) => m.(updaters := m.updaters[thread := Comparing(m.peak, m.updaters[thread].value)])
    case Exchange(thread, spurious) =>
      var u := m.updaters[thread];
      if u.previous >= u.value then m.(updaters := m.updaters - {thread})
      else if m.peak == u.previous && !spurious then m.(peak := u.value, updaters := m.updaters - {thread})
      else m.(updaters := m.updaters[thread := Comparing(m.peak, u.value)])
  }

  ghost predicate Inv(m: Metric)
  {
    && m.history != [] && m.gauge == m.history[|m.history| - 1]
    && m.peak in m.history
    && (forall t :: t in m.updaters ==> UpdaterOk(m, m.updaters[t]))
    && (forall v :: v in m.history ==> Covered(m, v))
  }

  ghost predicate UpdaterOk(m: Metric, u: Updater)
  {
    u.value in m.history && (u.Comparing? ==> u.previous <= m.peak)
  }

  /** A value the gauge has had is at most the peak, or at most a value still being offered. */
  ghost predicate Covered(m: Metric, v: nat)
  {
    v <= m.peak || exists t :: t in m.updaters && v <= m.updaters[t].value
  }

  lemma HistoryIsCovered(m: Metric, v: nat)
    requires Inv(m)
    ensures v in m.history ==> Covered(m, v)
    ensures m.gauge in m.history
  {
  }

  lemma UpdaterIsOk(m: Metric, thread: nat)
    requires Inv(m)
    ensures thread in m.updaters ==> UpdaterOk(m, m.updaters[thread])
    ensures m.peak in m.history && m.history != [] && m.gauge == m.history[|m.history| - 1]
  {
  }

  lemma OfferCovers(m: Metric, thread: nat)
    ensures thread in m.updaters ==> Covered(m, m.updaters[thread].value)
  {
  }

  lemma CoverSurvives(m: Metric, m': Metric, thread: nat, v: nat)
    requires Covered(m, v) && m.peak <= m'.peak
    requires forall t :: t in m.updaters && t != thread ==> t in m'.updaters && m'.updaters[t] == m.updaters[t]
    requires thread in m.updaters ==>
               m.updaters[thread].value <= m'.peak ||
               (thread in m'.updaters && m.updaters[thread].value <= m'.updaters[thread].value)
    ensures Covered(m', v)
  {
  }

  lemma StepKeepsCover(m: Metric, step: Step, v: nat)
    requires Inv(m) && Enabled(m, step) && v in Next(m, step).history
    ensures Covered(Next(m, step), v)
  {
    hide Inv, Covered;
    var m' := Next(m, step);
    var thread := if step.Sub? then 0 else step.thread;
    if step.Add? && v == m'.gauge {
      OfferCovers(m', thread);
    } else {
      var w := if v in m.history then v else m.gauge;
      HistoryIsCovered(m, w);
      UpdaterIsOk(m, thread);
      CoverSurvives(m, m', thread, w);
      CoverBelow(m', w, v);
    }
  }

  lemma CoverBelow(m: Metric, w: nat, v: nat)
    requires Covered(m, w) && v <= w
    ensures Covered(m, v)
  {
  }

  lemma StepKeepsUpdater(m: Metric, step: Step, t: nat)
    requires Inv(m) && Enabled(m, step) && t in Next(m, step).updaters
    ensures UpdaterOk(Next(m, step), Next(m, step).updaters[t])
  {
  }

  lemma StepKeepsRecord(m: Metric, step: Step)
    requires Inv(m) && Enabled(m, step)
    ensures var m' := Next(m, step);
            && m.peak <= m'.peak && m'.peak in m'.history && m.history <= m'.history
            && m'.history != [] && m'.gauge == m'.history[|m'.history| - 1]
  {
  }

  lemma StepKeepsInv(m: Metric, step: Step)
    requires Inv(m) && Enabled(m, step)
    ensures Inv(Next(m, step))
    ensures m.peak <= Next(m, step).peak
  {
    var m' := Next(m, step);
    StepKeepsRecord(m, step);
    hide Next, Enabled, UpdaterOk, Covered;
    forall v | v in m'.history
      ensures Covered(m', v)
    {
      StepKeepsCover(m, step, v);
    }
    forall t | t in m'.updaters
      ensures UpdaterOk(m', m'.updaters[t])
    {
      StepKeepsUpdater(m, step, t);
    }
  }

  ghost predicate Possible(steps: seq<Step>)
    decreases |steps|, 0
  {
    steps == [] || (Possible(steps[..|steps| - 1]) && Enabled(State(steps[..|steps| - 1]), steps[|steps| - 1]))
  }

  ghost function State(steps: seq<Step>): Metric
    requires Possible(steps)
    decreases |steps|, 1
  {
    if steps == [] then INITIAL else Next(State(steps[..|steps| - 1]), steps[|steps| - 1])
  }

  lemma {:induction false} RunKeepsInv(steps: seq<Step>)
    requires Possible(steps)
    ensures Inv(State(steps))
  {
    hide Next, Enabled;
    if steps != [] {
      RunKeepsInv(steps[..|steps| - 1]);
      StepKeepsInv(State(steps[..|steps| - 1]), steps[|steps| - 1]);
    }
  }

  /** The peak never decreases along a run. */
  lemma {:induction false} PeakNeverDecreases(steps: seq<Step>, n: nat)
    requires n <= |steps| && Possible(steps)
    ensures Possible(steps[..n]) && State(steps[..n]).peak <= State(steps).peak
  {
    hide Next, Enabled;
    if n < |steps| {
      var init := steps[..|steps| - 1];
      PeakNeverDecreases(init, n);
      assert init[..n] == steps[..n];
      RunKeepsInv(init);
      StepKeepsInv(State(init), steps[|steps| - 1]);
    } else {
      assert steps[..n] == steps;
    }
  }

  function Change(step: Step): int
  {
    if step.Add? then step.bytes else if step.Sub? then 0 - step.bytes else 0
  }

  /** What was added so far, less what was subtracted. */
  function Balance(steps: seq<Step>): int
  {
    if steps == [] then 0 else Balance(steps[..|steps| - 1]) + Change(steps[|steps| - 1])
  }

  /** The gauge has had this value at some moment of the run. */
  ghost predicate Reached(steps: seq<Step>, v: int)
  {
    exists n: nat :: n <= |steps| && Balance(steps[..n]) == v
  }

  lemma ReachedStep(init: seq<Step>, last: Step, v: int)
    ensures Reached(init + [last], v) <==> Reached(init, v) || Balance(init + [last]) == v
  {
    var steps := init + [last];
    forall n: nat | n <= |init|
      ensures steps[..n] == init[..n]
    {
    }
    assert steps[..|steps|] == steps;
    if Reached(init, v) {
      var n: nat :| n <= |init| && Balance(init[..n]) == v;
      assert Balance(steps[..n]) == v;
    }
    if Reached(steps, v) {
      var n: nat :| n <= |steps| && Balance(steps[..n]) == v;
      assert n <= |init| ==> Balance(init[..n]) == v;
    }
  }

  lemma StepHistory(m: Metric, step: Step)
    requires Enabled(m, step) && m.gauge in m.history
    ensures var m' := Next(m, step);
            && m'.gauge == m.gauge + Change(step)
            && (forall v :: v in m'.history <==> v in m.history || v == m'.gauge)
  {
  }

  /** In every run the gauge is the sum of what was added and subtracted, and its history is what that sum has been. */
  lemma {:induction false} GaugeIsBalance(steps: seq<Step>)
    requires Possible(steps)
    ensures State(steps).gauge == Balance(steps) && State(steps).gauge in State(steps).history
    ensures forall v: nat :: v in State(steps).history <==> Reached(steps, v)
  {
    hide Next, Enabled, Reached;
    if steps == [] {
      NothingReached();
    } else {
      var init, last := steps[..|steps| - 1], steps[|steps| - 1];
      GaugeIsBalance(init);
      StepHistory(State(init), last);
      assert steps == init + [last];
      forall v: nat
        ensures v in State(steps).history <==> Reached(steps, v)
      {
        ReachedStep(init, last, v);
      }
    }
  }

  lemma NothingReached()
    ensures forall v: nat :: v in INITIAL.history <==> Reached([], v)
  {
    var none: seq<Step> := [];
    assert none[..0] == none;
    assert Reached(none, 0);
  }

  /**
   Once no update is in progress, the peak is the largest value the gauge has ever had: the largest balance over all
   moments of the run.
   */
  lemma PeakIsMaximum(steps: seq<Step>)
    requires Possible(steps) && State(steps).updaters == map[]
    ensures Reached(steps, State(steps).peak)
    ensures forall n: nat :: n <= |steps| ==> Balance(steps[..n]) <= State(steps).peak
  {
    RunKeepsInv(steps);
    GaugeIsBalance(steps);
    hide Next, Enabled, Possible, State;
    var m := State(steps);
    forall n: nat | n <= |steps|
      ensures Balance(steps[..n]) <= m.peak
    {
      var v := Balance(steps[..n]);
      if v >= 0 {
        assert Reached(steps, v);
        assert Covered(m, v);
      }
    }
  }
}
