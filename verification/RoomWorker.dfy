/**
 The Room worker: any number of submitters, one worker thread and one stopping thread around the
 command queue. RoomWorkerSteps is the protocol as atomic steps; the class below it is the code
 each step runs.
 */
module RoomWorkerSteps {
  import opened Common
  import opened Room

  /** Where the worker thread is in its loop. */
  datatype Phase = Waiting | Popped(command: Command) | Handling(event: Event) | Exited

  datatype Summary = Summary(players: Players, processed: nat, rejected: nat, failures: nat)

  /** The last two fields are history: the commands ever accepted and the events ever produced. */
  datatype Worker = Worker(
    pending: seq<Command>,
    closed: bool,
    stopRequested: bool,
    phase: Phase,
    players: Players,
    processed: nat,
    rejected: nat,
    failures: nat,
    summary: Option<Summary>,
    accepted: seq<Command>,
    log: seq<Entry>)

  const INITIAL := Worker([], false, false, Waiting, map[], 0, 0, 0, None, [], [])

  datatype Step =
    | Submit(command: Command)
    | Pop
    | ApplyPopped
    | FinishHandler(threw: bool)
    | Close
    | RequestStop
    | JoinThread

  predicate Enabled(w: Worker, step: Step)
  {
    match step
    case Submit(_) => true
    case Pop => w.phase.Waiting? && (w.closed || w.pending != [] || w.stopRequested)
    case ApplyPopped => w.phase.Popped?
    case FinishHandler(_) => w.phase.Handling?
    case Close => true
    case RequestStop => w.closed
    case JoinThread => w.stopRequested && w.phase.Exited?
  }

  function Next(w: Worker, step: Step): Worker
    requires Enabled(w, step)
  {
    match step
    case Submit(command) =>
      if w.closed then w else w.(pending := w.pending + [command], accepted := w.accepted + [command])
    case Pop =>
      if w.pending == [] then w.(phase := Exited)
      else w.(phase := Popped(w.pending[0]), pending := w.pending[1..])
    case ApplyPopped =>
      var (players, result) := Apply(w.players, w.phase.command);
      if result.Success? then
        w.(players := players, processed := w.processed + 1, phase := Handling(result.value),
           log := w.log + [Entry(result.value, players.Keys)])
      else
        w.(players := players, processed := w.processed + 1, rejected := w.rejected + 1, phase := Waiting)
    case FinishHandler(threw) =>
      w.(phase := Waiting, failures := w.failures + if threw then 1 else 0)
    case Close => w.(closed := true)
    case RequestStop => w.(stopRequested := true)
    case JoinThread =>
      if w.summary.Some? then w
      else w.(summary := Some(Summary(w.players, w.processed, w.rejected, w.failures)))
  }

  /** Accepted but not yet applied, oldest first. */
  function Outstanding(w: Worker): seq<Command>
  {
    (if w.phase.Popped? then [w.phase.command] else []) + w.pending
  }

  ghost predicate Inv(w: Worker)
  {
    && Ordered(w)
    && Replay(w.accepted[..w.processed]) == History(w.players, w.log, w.rejected)
    && PhaseOk(w)
  }

  /** Nothing accepted is lost, repeated or overtaken. */
  ghost predicate Ordered(w: Worker)
  {
    w.processed <= |w.accepted| && w.accepted[w.processed..] == Outstanding(w)
  }

  ghost predicate PhaseOk(w: Worker)
  {
    && (w.stopRequested ==> w.closed)
    && (w.phase.Exited? ==> w.closed && w.pending == [])
    && (w.phase.Handling? ==> w.log != [] && w.log[|w.log| - 1].event == w.phase.event)
    && w.failures + (if w.phase.Handling? then 1 else 0) <= |w.log|
    && (w.summary.Some? ==>
          w.phase.Exited? && w.summary.value == Summary(w.players, w.processed, w.rejected, w.failures))
  }

  lemma SubmitKeepsInv(w: Worker, command: Command)
    requires Inv(w)
    ensures Inv(Next(w, Submit(command)))
  {
    if !w.closed {
      var w' := Next(w, Submit(command));
      assert w'.accepted[..w.processed] == w.accepted[..w.processed];
      assert w'.accepted[w.processed..] == w.accepted[w.processed..] + [command];
      assert Outstanding(w') == Outstanding(w) + [command];
    }
  }

  lemma ApplyIsAdvance(w: Worker)
    requires w.phase.Popped?
    ensures var w' := Next(w, ApplyPopped);
            Advance(History(w.players, w.log, w.rejected), w.phase.command) ==
            History(w'.players, w'.log, w'.rejected)
  {
  }

  lemma AppliedReplay(accepted: seq<Command>, n: nat)
    requires n < |accepted|
    ensures Replay(accepted[..n + 1]) == Advance(Replay(accepted[..n]), accepted[n])
  {
    assert accepted[..n + 1] == accepted[..n] + [accepted[n]];
    ReplayStep(accepted[..n], accepted[n]);
  }

  lemma ApplyKeepsOrder(w: Worker)
    requires Ordered(w) && w.phase.Popped?
    ensures w.processed < |w.accepted| && w.accepted[w.processed] == w.phase.command
    ensures Ordered(Next(w, ApplyPopped))
  {
    var n := w.processed;
    assert Outstanding(w)[0] == w.phase.command;
    assert Outstanding(w)[1..] == w.pending;
    assert w.accepted[n + 1..] == w.accepted[n..][1..];
    assert Outstanding(Next(w, ApplyPopped)) == w.pending;
  }

  lemma ApplyKeepsInv(w: Worker)
    requires Inv(w) && w.phase.Popped?
    ensures Inv(Next(w, ApplyPopped))
  {
    hide Replay, Advance, Ordered, Apply;
    ApplyKeepsOrder(w);
    ApplyIsAdvance(w);
    AppliedReplay(w.accepted, w.processed);
    UnfoldFold(w);
  }

  lemma UnfoldFold(w: Worker)
    requires Inv(w)
    ensures Ordered(w) && Replay(w.accepted[..w.processed]) == History(w.players, w.log, w.rejected)
  {
  }

  lemma StepKeepsInv(w: Worker, step: Step)
    requires Inv(w) && Enabled(w, step)
    ensures Inv(Next(w, step))
  {
    match step
    case Submit(command) => SubmitKeepsInv(w, command);
    case ApplyPopped => ApplyKeepsInv(w);
    case Pop =>
      if w.pending != [] {
        assert Outstanding(Next(w, Pop)) == Outstanding(w);
      }
    case _ =>
  }

  lemma ExitedMeansDone(w: Worker)
    requires Inv(w) && w.phase.Exited?
    ensures w.processed == |w.accepted| && Replay(w.accepted) == History(w.players, w.log, w.rejected)
    ensures w.summary.Some? ==> w.summary.value == Summary(w.players, w.processed, w.rejected, w.failures)
  {
    assert w.accepted[w.processed..] == [];
    assert w.accepted[..w.processed] == w.accepted;
  }

  // Whole runs.

  ghost predicate Possible(steps: seq<Step>)
    decreases |steps|, 0
  {
    steps == [] ||
    (Possible(steps[..|steps| - 1]) && Enabled(State(steps[..|steps| - 1]), steps[|steps| - 1]))
  }

  ghost function State(steps: seq<Step>): Worker
    requires Possible(steps)
    decreases |steps|, 1
  {
    if steps == [] then INITIAL else Next(State(steps[..|steps| - 1]), steps[|steps| - 1])
  }

  /** The commands submitted before the first close, in order: what a run promises to process. */
  function SubmittedBeforeClose(steps: seq<Step>): seq<Command>
  {
    if steps == [] then []
    else
      var init, last := steps[..|steps| - 1], steps[|steps| - 1];
      if last.Submit? && Close !in init then SubmittedBeforeClose(init) + [last.command]
      else SubmittedBeforeClose(init)
  }

  /** What a step does to the close, the acceptances and the failures. */
  lemma StepHistory(w: Worker, step: Step)
    requires Enabled(w, step)
    ensures var w' := Next(w, step);
            && (w'.closed <==> w.closed || step.Close?)
            && w'.accepted == w.accepted + (if step.Submit? && !w.closed then [step.command] else [])
            && w'.failures == w.failures + if step == FinishHandler(true) then 1 else 0
  {
    hide Apply;
  }

  lemma InitialInv()
    ensures Inv(INITIAL)
  {
  }

  /** How often the event handler threw. */
  function Throws(steps: seq<Step>): nat
  {
    if steps == [] then 0 else Throws(steps[..|steps| - 1]) + if steps[|steps| - 1] == FinishHandler(true) then 1 else 0
  }

  lemma {:induction false} RunKeepsInv(steps: seq<Step>)
    requires Possible(steps)
    ensures Inv(State(steps))
    ensures State(steps).closed <==> Close in steps
    ensures State(steps).accepted == SubmittedBeforeClose(steps)
    ensures State(steps).failures == Throws(steps)
  {
    if steps == [] {
      InitialInv();
    } else {
      hide Inv, Next, Enabled;
      var init, last := steps[..|steps| - 1], steps[|steps| - 1];
      RunKeepsInv(init);
      StepKeepsInv(State(init), last);
      StepHistory(State(init), last);
      assert steps == init + [last];
    }
  }

  /**
   Shutdown drains: in every interleaving the worker exits only once the queue is closed and empty,
   and by then every command submitted before the close, and no other, has been applied once, in order. The failures
   are the handler calls that threw.
   */
  lemma ShutdownDrains(steps: seq<Step>)
    requires Possible(steps) && State(steps).phase.Exited?
    ensures var w := State(steps);
            var h := Replay(SubmittedBeforeClose(steps));
            && Close in steps && w.pending == []
            && w.players == h.players && w.log == h.log
            && w.processed == |SubmittedBeforeClose(steps)| == w.rejected + |w.log|
            && w.rejected == h.rejected && w.failures == Throws(steps) <= |w.log|
            && (w.summary.Some? ==>
                  w.summary.value == Summary(h.players, |SubmittedBeforeClose(steps)|, h.rejected, Throws(steps)))
  {
    RunKeepsInv(steps);
    ExitedMeansDone(State(steps));
  }

  /** How far the worker still is from exiting a closed queue. */
  function Remaining(w: Worker): nat
  {
    3 * |w.pending| +
    match w.phase
    case Exited => 0
    case Waiting => 1
    case Handling(_) => 2
    case Popped(_) => 3
  }

  function WorkerStep(w: Worker): Step
    requires !w.phase.Exited?
  {
    match w.phase
    case Waiting => Pop
    case Popped(_) => ApplyPopped
    case Handling(_) => FinishHandler(false)
  }

  /** After a close the worker always has a step, each of its steps brings it nearer, and nobody can set it back. */
  lemma ClosedQueueTerminates(w: Worker, step: Step)
    requires Inv(w) && w.closed
    ensures !w.phase.Exited? ==> Enabled(w, WorkerStep(w))
    ensures Enabled(w, step) && (step.Pop? || step.ApplyPopped? || step.FinishHandler?) ==>
              Remaining(Next(w, step)) < Remaining(w)
    ensures Enabled(w, step) ==> Remaining(Next(w, step)) <= Remaining(w)
  {
  }
}

module RoomWorker {
  import opened Common
  import opened Room
  import opened CloseableQueue
  import opened RoomWorkerSteps

  class RoomWorker {
    const room: Room
    const commands: CloseableQueue<Command>
    var processed: nat
    var rejected: nat
    var failures: nat
    var stopRequested: bool
    var summary: Option<Summary>
    /** Where the worker thread is. */
    var phase: Phase
    ghost var accepted: seq<Command>
    ghost var log: seq<Entry>
    /** How often the handler threw. */
    ghost var thrown: nat

    ghost function View(): Worker
      reads this, room, commands
    {
      Worker(commands.values, commands.closed, stopRequested, phase, room.players, processed, rejected, failures,
             summary, accepted, log)
    }

    constructor ()
      ensures View() == INITIAL && thrown == 0 && fresh(room) && fresh(commands)
    {
      room := new Room();
      commands := new CloseableQueue<Command>();
      processed, rejected, failures := 0, 0, 0;
      stopRequested := false;
      summary := None;
      phase := Waiting;
      accepted, log, thrown := [], [], 0;
    }

    method SubmitCommand(command: Command) returns (ok: bool)
      modifies this`accepted, commands
      ensures View() == Next(old(View()), Submit(command))
      ensures ok == !old(commands.closed)
    {
      ok := commands.Push(command);
      if ok {
        accepted := accepted + [command];
      }
    }

    /** The handler is foreign code: it may throw on any event. */
    method HandleEvent(event: Event) returns (threw: bool)
      modifies this`thrown
      ensures thrown == old(thrown) + if threw then 1 else 0
    {
      threw := *;
      thrown := thrown + if threw then 1 else 0;
    }

    method PopCommand() returns (command: Option<Command>)
      requires phase.Waiting? && (commands.closed || commands.values != [] || stopRequested)
      modifies this`phase, commands
      ensures View() == Next(old(View()), Pop)
      ensures if command.None? then phase.Exited? && old(commands.values) == []
              else phase == Popped(command.value) && |commands.values| < |old(commands.values)|
      ensures commands.closed == old(commands.closed)
    {
      command := commands.WaitPop(stopRequested);
      phase := if command.None? then Exited else Popped(command.value);
      assert command.Some? ==> commands.values == old(commands.values)[1..];
    }

    method ApplyOne(command: Command) returns (result: Result<Event, CommandError>)
      requires phase == Popped(command)
      modifies this`phase, this`processed, this`rejected, this`log, room
      ensures View() == Next(old(View()), ApplyPopped)
      ensures result.Failure? ==> phase.Waiting?
      ensures result.Success? ==> phase == Handling(result.value)
    {
      result := room.ApplyCommand(command);
      processed := processed + 1;
      if result.Failure? {
        rejected := rejected + 1;
        phase := Waiting;
      } else {
        log := log + [Entry(result.value, room.players.Keys)];
        phase := Handling(result.value);
      }
    }

    method FinishHandling(threw: bool)
      requires phase.Handling?
      modifies this`phase, this`failures
      ensures View() == Next(old(View()), FinishHandler(threw)) && phase.Waiting?
      ensures failures == old(failures) + if threw then 1 else 0
    {
      if threw {
        failures := failures + 1;
      }
      phase := Waiting;
    }

    /** One turn of the worker loop; false when wait_pop returned nothing. */
    method RunOnce() returns (more: bool)
      requires Inv(View()) && phase.Waiting?
      requires commands.closed || commands.values != [] || stopRequested
      modifies this, room, commands
      ensures Inv(View()) && more == (old(commands.values) != [])
      ensures if more then phase.Waiting? && |commands.values| < |old(commands.values)| else phase.Exited?
      ensures accepted == old(accepted) && commands.closed == old(commands.closed)
      ensures summary == old(summary) && stopRequested == old(stopRequested)
      ensures failures - thrown == old(failures - thrown)
    {
      hide Next, Inv;
      StepKeepsInv(View(), Pop);
      var command := PopCommand();
      if command.None? {
        return false;
      }
      StepKeepsInv(View(), ApplyPopped);
      var result := ApplyOne(command.value);
      if result.Success? {
        var threw := HandleEvent(result.value);
        StepKeepsInv(View(), FinishHandler(threw));
        FinishHandling(threw);
      }
      more := true;
    }

    method CloseAndRequestStop()
      requires Inv(View())
      modifies this`stopRequested, commands
      ensures View() == Next(Next(old(View()), Close), RequestStop) && Inv(View())
      ensures failures == old(failures)
    {
      StepKeepsInv(View(), Close);
      commands.Close();
      StepKeepsInv(View(), RequestStop);
      stopRequested := true;
    }

    /** The worker thread's next step, wherever it is in its loop. */
    method WorkerTurn()
      requires Inv(View()) && commands.closed && !phase.Exited?
      modifies this, room, commands
      ensures Inv(View()) && commands.closed && Remaining(View()) < old(Remaining(View()))
      ensures accepted == old(accepted) && summary == old(summary) && stopRequested == old(stopRequested)
      ensures failures - thrown == old(failures - thrown)
    {
      hide Next, Inv, Remaining;
      StepKeepsInv(View(), WorkerStep(View()));
      ClosedQueueTerminates(View(), WorkerStep(View()));
      match phase
      case Waiting =>
        var _ := PopCommand();
      case Popped(command) =>
        var _ := ApplyOne(command);
      case Handling(event) =>
        var threw := HandleEvent(event);
        StepKeepsInv(View(), FinishHandler(threw));
        ClosedQueueTerminates(View(), FinishHandler(threw));
        FinishHandling(threw);
    }

    /** Join: the worker thread runs out the closed queue from wherever it is. */
    method JoinWorker()
      requires Inv(View()) && commands.closed
      modifies this, room, commands
      ensures Inv(View()) && phase.Exited? && commands.closed
      ensures accepted == old(accepted) && summary == old(summary) && stopRequested == old(stopRequested)
      ensures failures - thrown == old(failures - thrown)
    {
      hide Inv, Remaining;
      while !phase.Exited?
        invariant Inv(View()) && commands.closed
        invariant accepted == old(accepted) && summary == old(summary) && stopRequested == old(stopRequested)
        invariant failures - thrown == old(failures - thrown)
        decreases Remaining(View())
      {
        WorkerTurn();
      }
    }

    /** Close, request_stop and join; the worker thread may be anywhere in its loop. A second call returns the first summary. */
    method Stop() returns (players: seq<PlayerSnapshot>, result: Summary)
      requires Inv(View())
      modifies this, room, commands
      ensures Inv(View()) && phase.Exited? && accepted == old(accepted)
      ensures result.failures == failures == old(failures) + (thrown - old(thrown))
      ensures summary == Some(result) && (old(summary).Some? ==> result == old(summary).value)
      ensures result.players == Replay(accepted).players && result.rejected == Replay(accepted).rejected
      ensures result.processed == |accepted| == result.rejected + |Replay(accepted).log|
      ensures IsSnapshot(Replay(accepted).players, players)
    {
      hide Inv, Replay, IsSnapshot;
      SummaryMeansExited();
      if summary.None? {
        Summarize();
      }
      ExitedMeansDone(View());
      result := summary.value;
      players := room.Snapshot();
    }

    method Summarize()
      requires Inv(View()) && summary.None?
      modifies this, room, commands
      ensures Inv(View()) && phase.Exited? && accepted == old(accepted) && summary.Some?
      ensures failures - thrown == old(failures - thrown)
    {
      hide Inv;
      CloseAndRequestStop();
      JoinWorker();
      StepKeepsInv(View(), JoinThread);
      summary := Some(Summary(room.players, processed, rejected, failures));
    }

    lemma SummaryMeansExited()
      requires Inv(View())
      ensures summary.Some? ==> phase.Exited?
    {
    }
  }
}
