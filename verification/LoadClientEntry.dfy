/**
 How a bot of the load test enters the Room and why it leaves. It takes the first PlayerJoined it reads for its own
 entry, whoever it is about; what makes that right is that the first event a session is sent is its own.
 */
module LoadClientEntry {
  import opened LoadClient
  import opened LoadClientProof
  import R = Room

  /** The log is what the Room's table went through, and a bot that has not entered has read nothing. */
  ghost predicate Fresh(t: Test)
  {
    && R.Consistent(t.log) && t.players.Keys == R.MembersBefore(t.log, |t.log|)
    && forall b :: 0 <= b < |t.bots| && Rank(t.bots[b].stage) < 2 ==> t.bots[b].cursor == 0
  }

  lemma FirstReadIsOwn(t: Test, b: nat)
    requires Fresh(t) && b < |t.bots| && b <= 0x7FFF_FFFF && t.bots[b].stage.Entering?
    ensures t.bots[b].cursor < |R.Visible(t.log, b)| ==>
              R.OwnJoin(R.Visible(t.log, b)[t.bots[b].cursor], b) && t.bots[b].cursor == 0
  {
    hide R.Consistent, R.Visible;
    if R.Visible(t.log, b) != [] {
      R.FirstVisibleIsOwnJoin(t.log, b);
    }
  }

  lemma ProcessKeepsFresh(t: Test)
    requires Fresh(t) && t.pending != []
    ensures Fresh(ProcessFirst(t))
  {
    hide R.Consistent;
    var (players, result) := R.Apply(t.players, t.pending[0]);
    if result.Success? {
      R.ConsistentStep(t.log, R.Entry(result.value, players.Keys));
    } else {
      assert t.log + [] == t.log;
    }
  }

  lemma ReadKeepsFresh(c: Config, t: Test, b: nat)
    requires Fresh(t) && ValidConfig(c) && Enabled(c, t, Read(b))
    ensures Fresh(Next(c, t, Read(b)))
  {
    hide R.Consistent, R.Visible;
    if t.bots[b].stage.Entering? {
      FirstReadIsOwn(t, b);
    }
  }

  lemma StepKeepsFresh(c: Config, t: Test, step: Step)
    requires Fresh(t) && ValidConfig(c) && Enabled(c, t, step)
    ensures Fresh(Next(c, t, step))
  {
    match step
    case Act(b) => hide R.Consistent;
    case Read(b) => ReadKeepsFresh(c, t, b);
    case Process(i) =>
      var t' := t.(pending := ToFront(t.pending, i));
      assert Fresh(t');
      ProcessKeepsFresh(t');
  }

  lemma {:induction false} RunKeepsFresh(c: Config, steps: seq<Step>)
    requires ValidConfig(c) && Possible(c, steps)
    ensures Fresh(State(c, steps))
  {
    if steps != [] {
      hide Next, Enabled, Fresh;
      RunKeepsFresh(c, steps[..|steps| - 1]);
      StepKeepsFresh(c, State(c, steps[..|steps| - 1]), steps[|steps| - 1]);
    }
  }

  /** In every interleaving the event by which a bot takes itself to have entered is its own Joined. */
  lemma EntersByOwnJoin(c: Config, steps: seq<Step>, b: nat)
    requires ValidConfig(c) && Possible(c, steps) && Enabled(c, State(c, steps), Read(b))
    requires State(c, steps).bots[b].stage.Entering?
    ensures var t := State(c, steps);
            && R.OwnJoin(R.Visible(t.log, b)[t.bots[b].cursor], b)
            && Next(c, t, Read(b)).bots[b].stage.Ready?
  {
    RunKeepsFresh(c, steps);
    FirstReadIsOwn(State(c, steps), b);
    hide Possible, State, Fresh, R.Visible;
  }

  // Leaving.

  /** Nobody is, or will be, gone from the Room but by its own request. */
  ghost predicate ByRequest(t: Test)
  {
    && (forall command :: command in t.pending && command.Leave? ==> command.reason == R.LeftRoom)
    && (forall entry :: entry in t.log && entry.event.Left? ==> entry.event.reason == R.LeftRoom)
  }

  lemma ProcessKeepsRequests(t: Test)
    requires ByRequest(t) && t.pending != []
    ensures ByRequest(ProcessFirst(t))
  {
    assert t.pending[0] in t.pending;
    assert forall command :: command in t.pending[1..] ==> command in t.pending;
  }

  lemma StepKeepsRequests(c: Config, t: Test, step: Step)
    requires ByRequest(t) && ValidConfig(c) && Enabled(c, t, step)
    ensures ByRequest(Next(c, t, step))
  {
    if step.Process? {
      var t' := t.(pending := ToFront(t.pending, step.i));
      assert forall command :: command in t'.pending ==> command in t.pending;
      ProcessKeepsRequests(t');
    }
  }

  /** In every interleaving every PlayerLeft of the load test carries left_room. */
  lemma {:induction false} LeavesAreRequested(c: Config, steps: seq<Step>)
    requires ValidConfig(c) && Possible(c, steps)
    ensures var t := State(c, steps);
            && (forall command :: command in t.pending && command.Leave? ==> command.reason == R.LeftRoom)
            && (forall entry :: entry in t.log && entry.event.Left? ==> entry.event.reason == R.LeftRoom)
  {
    if steps != [] {
      hide Next, Enabled;
      LeavesAreRequested(c, steps[..|steps| - 1]);
      StepKeepsRequests(c, State(c, steps[..|steps| - 1]), steps[|steps| - 1]);
    }
  }
}
