/** The load test always completes: no interleaving gets stuck, and none runs for ever. */
module LoadClientProgress {
  import opened Common
  import opened LoadClient
  import opened LoadClientMoves
  import opened LoadClientProof
  import R = Room

  // What a bot waits for is on its way or unread.

  /** The event that takes a waiting bot on; a warmed-up bot will wait for the barrier move next. */
  predicate Wanted(c: Config, b: nat, s: Stage, e: R.Event)
  {
    match s
    case Entering => e.Joined?
    case Warming(done, true) => IsMoveTo(e, b + 1, Coordinate(done + 1))
    case Warmed => IsMoveTo(e, 0, 0)
    case Barrier(_) => IsMoveTo(e, 0, 0)
    case Measuring(done, true) => IsMoveTo(e, b + 1, Coordinate(c.warmup + done + 1))
    case _ => false
  }

  ghost predicate HasUnread(c: Config, b: nat, bot: Bot, visible: seq<R.Event>)
  {
    exists i :: bot.cursor <= i < |visible| && Wanted(c, b, bot.stage, visible[i])
  }

  predicate AwaitsOwn(s: Stage)
  {
    s.Entering? || (s.Warming? && s.awaiting) || (s.Measuring? && s.awaiting)
  }

  /** Bot 0's barrier move has still to be sent or applied. */
  predicate BarrierAhead(first: Stage, hasPending: bool)
  {
    Rank(first) < 5 || first == Barrier(false) || (first == Barrier(true) && hasPending)
  }

  ghost predicate WaitOk(c: Config, t: Test, b: nat)
    requires b < |t.bots| && b < 0x7FFF_FFFF
  {
    var bot, visible := t.bots[b], R.Visible(t.log, b);
    && (AwaitsOwn(bot.stage) ==> HasPending(t.pending, b) || HasUnread(c, b, bot, visible))
    && (bot.stage.Warmed? || bot.stage.Barrier? ==>
          BarrierAhead(t.bots[0].stage, HasPending(t.pending, 0)) || HasUnread(c, b, bot, visible))
    && (!bot.stage.Gone? ==> LeftCount(visible) == |Leavers(t.log)|)
  }

  ghost predicate Live(c: Config, t: Test)
  {
    forall b: nat :: b < |t.bots| && b < 0x7FFF_FFFF ==> WaitOk(c, t, b)
  }

  // Reading.

  lemma ReadKeepsOwn(c: Config, t: Test, b: nat, t': Test)
    requires Inv(c, t) && Enabled(c, t, Read(b)) && b < 0x7FFF_FFFF && WaitOk(c, t, b) && t' == Next(c, t, Read(b))
    ensures WaitOk(c, t', b)
  {
    hide Inv, R.Visible, HasPending, LeftCount, Leavers, HasUnread, BarrierAhead;
    var bot, visible := t.bots[b], R.Visible(t.log, b);
    UnreadShrinks(c, b, bot, visible);
    assert t'.pending == t.pending;
    assert t'.bots[b].stage == bot.stage ==> t'.bots[0].stage == t.bots[0].stage;
  }

  lemma UnreadShrinks(c: Config, b: nat, bot: Bot, visible: seq<R.Event>)
    requires IsReading(b, bot.stage) && bot.cursor < |visible|
    ensures var s' := ReadTurn(c, b, bot.stage, visible[bot.cursor]);
            if s' == bot.stage then HasUnread(c, b, bot, visible) ==> HasUnread(c, b, Bot(s', bot.cursor + 1), visible)
            else !AwaitsOwn(s') && !s'.Warmed? && !s'.Barrier? && !s'.Gone?
  {
  }

  /** A bot whose stage changes by reading has nothing on its way. */
  lemma ReadSent(c: Config, t: Test, b: nat)
    requires Inv(c, t) && Enabled(c, t, Read(b)) && b < 0x7FFF_FFFF
    ensures var s, e := t.bots[b].stage, R.Visible(t.log, b)[t.bots[b].cursor];
            s == ReadTurn(c, b, s, e) || !HasPending(t.pending, b)
  {
    hide Inv, R.Visible, HasPending;
    VisibleIsLogged(t.log, b, t.bots[b].cursor);
    var k :| 0 <= k < |t.log| && t.log[k].event == R.Visible(t.log, b)[t.bots[b].cursor] && b in t.log[k].after;
    ReadAdvances(c, t, b, k);
  }

  lemma ReadKeepsBarrierAhead(c: Config, t: Test)
    requires Inv(c, t) && Enabled(c, t, Read(0))
    ensures var s, e := t.bots[0].stage, R.Visible(t.log, 0)[t.bots[0].cursor];
            BarrierAhead(s, HasPending(t.pending, 0)) ==> BarrierAhead(ReadTurn(c, 0, s, e), HasPending(t.pending, 0))
  {
    hide Inv, R.Visible, HasPending;
    ReadSent(c, t, 0);
  }

  lemma ReadKeepsLive(c: Config, t: Test, b: nat)
    requires Inv(c, t) && Live(c, t) && Enabled(c, t, Read(b)) && ValidConfig(c)
    ensures Live(c, Next(c, t, Read(b)))
  {
    hide Inv, R.Visible, HasPending, LeftCount, Leavers, HasUnread, BarrierAhead;
    var t' := Next(c, t, Read(b));
    assert t'.pending == t.pending;
    if b == 0 {
      ReadKeepsBarrierAhead(c, t);
    }
    assert BarrierAhead(t.bots[0].stage, HasPending(t.pending, 0)) ==>
        BarrierAhead(t'.bots[0].stage, HasPending(t'.pending, 0));
    hide ReadTurn, IsReading;
    forall d: nat | d < |t'.bots| && d < 0x7FFF_FFFF
      ensures WaitOk(c, t', d)
    {
      assert WaitOk(c, t, d);
      if d == b {
        ReadKeepsOwn(c, t, b, t');
      } else {
        assert t'.bots[d] == t.bots[d];
      }
    }
  }

  // Acting.

  lemma BeforeBarrier(c: Config, t: Test, b: nat)
    requires Inv(c, t) && b < |t.bots| && Rank(t.bots[b].stage) < 4
    ensures Rank(t.bots[0].stage) < 5
  {
    hide Count, SumSent, R.Visible, Leavers, Gates, PlayersOk, ReadersOk, Totals, MovesOk, PendingOk, UnseenOk, LeaversOk,
         HasPending, Shape;
    assert Together(Rank(t.bots[0].stage), Rank(t.bots[b].stage));
  }

  /** Acting changes one bot and perhaps appends its command. */
  ghost predicate Acts(c: Config, t: Test, b: nat, turn: Turn, t': Test)
  {
    && b < |t.bots| && t'.bots == t.bots[b := t.bots[b].(stage := turn.stage)] && t'.log == t.log
    && t'.pending == t.pending + (if turn.command.Some? then [turn.command.value] else [])
    && (turn.command.Some? ==> turn.command.value.id == b)
  }

  lemma ActIs(c: Config, t: Test, b: nat)
    requires ValidConfig(c) && Enabled(c, t, Act(b))
    ensures Acts(c, t, b, ActTurn(c, t, b), Next(c, t, Act(b)))
  {
  }

  lemma ActPending(c: Config, t: Test, b: nat, turn: Turn, t': Test, d: nat)
    requires Acts(c, t, b, turn, t')
    ensures HasPending(t'.pending, d) <==> HasPending(t.pending, d) || (d == b && turn.command.Some?)
  {
    if turn.command.Some? {
      HasPendingAppend(t.pending, turn.command.value, d);
    } else {
      assert t'.pending == t.pending;
    }
  }

  /** Bot 0 sends the barrier move only after being ahead of it, and then it is on its way. */
  lemma ActKeepsBarrierAhead(c: Config, t: Test, b: nat, t': Test)
    requires ValidConfig(c) && Enabled(c, t, Act(b)) && t' == Next(c, t, Act(b))
    ensures BarrierAhead(t.bots[0].stage, HasPending(t.pending, 0)) ==>
              BarrierAhead(t'.bots[0].stage, HasPending(t'.pending, 0))
  {
    hide HasPending;
    ActIs(c, t, b);
    ActPending(c, t, b, ActTurn(c, t, b), t', 0);
  }

  lemma ActKeepsOwn(c: Config, t: Test, b: nat, t': Test)
    requires Inv(c, t) && ValidConfig(c) && Enabled(c, t, Act(b)) && b < 0x7FFF_FFFF && WaitOk(c, t, b)
    requires t' == Next(c, t, Act(b))
    ensures WaitOk(c, t', b)
  {
    hide Inv, HasPending, R.Visible, LeftCount, Leavers, Become;
    ActIs(c, t, b);
    ActPending(c, t, b, ActTurn(c, t, b), t', b);
    ActKeepsBarrierAhead(c, t, b, t');
    var bot, bot' := t.bots[b], t'.bots[b];
    if Rank(bot.stage) < 4 {
      BeforeBarrier(c, t, b);
    }
    if bot.stage.Warmed? && HasUnread(c, b, bot, R.Visible(t.log, b)) {
      var i :| bot.cursor <= i < |R.Visible(t.log, b)| && Wanted(c, b, bot.stage, R.Visible(t.log, b)[i]);
      assert Wanted(c, b, bot'.stage, R.Visible(t.log, b)[i]);
    }
  }

  lemma ActKeepsLive(c: Config, t: Test, b: nat)
    requires Inv(c, t) && Live(c, t) && ValidConfig(c) && Enabled(c, t, Act(b))
    ensures Live(c, Next(c, t, Act(b)))
  {
    hide Inv, R.Visible, HasPending, LeftCount, Leavers, HasUnread, BarrierAhead, Become, ActTurn, CanAct;
    var t' := Next(c, t, Act(b));
    ActIs(c, t, b);
    ActKeepsBarrierAhead(c, t, b, t');
    forall d: nat | d < |t'.bots| && d < 0x7FFF_FFFF
      ensures WaitOk(c, t', d)
    {
      assert WaitOk(c, t, d);
      if d == b {
        ActKeepsOwn(c, t, b, t');
      } else {
        ActPending(c, t, b, ActTurn(c, t, b), t', d);
      }
    }
  }

  // The Room processes a command.

  lemma UnreadGrows(c: Config, b: nat, bot: Bot, visible: seq<R.Event>, more: seq<R.Event>)
    ensures HasUnread(c, b, bot, visible) ==> HasUnread(c, b, bot, visible + more)
    ensures bot.cursor <= |visible| && more != [] && Wanted(c, b, bot.stage, more[0]) ==>
              HasUnread(c, b, bot, visible + more)
  {
    var longer := visible + more;
    if HasUnread(c, b, bot, visible) {
      var i :| bot.cursor <= i < |visible| && Wanted(c, b, bot.stage, visible[i]);
      assert longer[i] == visible[i];
    }
    if more != [] {
      assert longer[|visible|] == more[0];
    }
  }

  /** The event of a bot's own command is the one it waits for, and it is told of it. */
  lemma OwnEventIsWanted(c: Config, t: Test, t': Test, entry: R.Entry)
    requires Inv(c, t) && Processes(t, t', entry)
    ensures var b := t.pending[0].id;
            b < |t.bots| && (AwaitsOwn(t.bots[b].stage) ==> b in entry.after && Wanted(c, b, t.bots[b].stage, entry.event))
  {
    hide Inv, HasPending;
    ProcessSender(c, t);
  }

  /** The barrier move reaches every bot that waits for it. */
  lemma BarrierIsWanted(c: Config, t: Test, t': Test, entry: R.Entry, d: nat)
    requires Inv(c, t) && Processes(t, t', entry) && d < |t.bots|
    requires t.bots[d].stage.Warmed? || t.bots[d].stage.Barrier?
    ensures t.pending[0].id == 0 && t.bots[0].stage == Barrier(true) ==>
              d in entry.after && Wanted(c, d, t.bots[d].stage, entry.event)
  {
    hide Inv, HasPending, Leavers;
    ProcessSender(c, t);
    UnfoldAt(c, t, d);
  }

  /** A Left reaches every bot that has still to leave. */
  lemma LeftIsSeen(c: Config, t: Test, t': Test, entry: R.Entry, d: nat)
    requires Inv(c, t) && Processes(t, t', entry) && d < |t.bots| && !t.bots[d].stage.Gone? && entry.event.Left?
    ensures d in entry.after
  {
    hide Inv, HasPending, Leavers;
    ProcessSender(c, t);
    var b := t.pending[0].id;
    UnfoldAt(c, t, d);
    if Rank(t.bots[d].stage) < 8 {
      NobodyLeftYet(c, t, d);
    }
  }

  lemma LeftCountStep(events: seq<R.Event>, e: R.Event)
    ensures LeftCount(events + [e]) == LeftCount(events) + if e.Left? then 1 else 0
    ensures LeftCount(events + []) == LeftCount(events)
  {
    assert (events + [e])[..|events|] == events;
    assert events + [] == events;
  }

  lemma ProcessKeepsWait(c: Config, t: Test, t': Test, entry: R.Entry, d: nat)
    requires Inv(c, t) && Processes(t, t', entry) && d < |t.bots| && d < 0x7FFF_FFFF && WaitOk(c, t, d)
    requires t.bots[d].cursor <= |R.Visible(t.log, d)|
    ensures WaitOk(c, t', d)
  {
    hide Inv, HasPending, Leavers, LeftCount, R.Visible, HasUnread, Wanted;
    var bot, visible := t.bots[d], R.Visible(t.log, d);
    R.VisibleStep(t.log, entry, d);
    var more := if d in entry.after then [entry.event] else [];
    UnreadGrows(c, d, bot, visible, more);
    UnfoldAt(c, t, d);
    HasPendingTail(c, t, d);
    HasPendingTail(c, t, 0);
    OwnEventIsWanted(c, t, t', entry);
    if bot.stage.Warmed? || bot.stage.Barrier? {
      BarrierIsWanted(c, t, t', entry, d);
    }
    LogStep(t.log, entry);
    LeftCountStep(visible, entry.event);
    if entry.event.Left? && !bot.stage.Gone? {
      LeftIsSeen(c, t, t', entry, d);
    }
  }

  lemma ProcessKeepsLive(c: Config, t: Test)
    requires Inv(c, t) && Live(c, t) && t.pending != []
    ensures Live(c, ProcessFirst(t))
  {
    var entry := ProcessIs(c, t);
    var t' := ProcessFirst(t);
    hide Inv, WaitOk, R.Visible, R.Apply, LeftCount;
    forall d: nat | d < |t'.bots| && d < 0x7FFF_FFFF
      ensures WaitOk(c, t', d)
    {
      assert WaitOk(c, t, d);
      UnfoldAt(c, t, d);
      UnfoldReader(c, t, d);
      ProcessKeepsWait(c, t, t', entry, d);
    }
  }

  lemma StepKeepsLive(c: Config, t: Test, step: Step)
    requires Inv(c, t) && Live(c, t) && ValidConfig(c) && Enabled(c, t, step)
    ensures Live(c, Next(c, t, step))
  {
    hide Inv, Live;
    match step
    case Act(b) => ActKeepsLive(c, t, b);
    case Read(b) => ReadKeepsLive(c, t, b);
    case Process(i) =>
      FrontKeepsInv(c, t, i);
      FrontKeepsLive(c, t, i);
      ProcessKeepsLive(c, Front(t, i));
  }

  lemma FrontKeepsLive(c: Config, t: Test, i: nat)
    requires Live(c, t) && i < |t.pending|
    ensures Live(c, Front(t, i))
  {
    hide HasPending, R.Visible, LeftCount, Leavers, HasUnread, BarrierAhead, ToFront;
    var t' := Front(t, i);
    forall b: nat
      ensures HasPending(t'.pending, b) <==> HasPending(t.pending, b)
    {
      FrontSame(t.pending, i, b, 0);
    }
    forall b: nat | b < |t'.bots| && b < 0x7FFF_FFFF
      ensures WaitOk(c, t', b)
    {
      assert WaitOk(c, t, b);
    }
  }

  // Nobody is stuck.

  ghost predicate Stuck(c: Config, t: Test)
  {
    forall step :: !Enabled(c, t, step)
  }

  lemma {:induction false} CountAll(bots: seq<Bot>, rank: nat)
    requires forall b :: 0 <= b < |bots| ==> Rank(bots[b].stage) >= rank
    ensures Count(bots, rank) == |bots|
  {
    if bots != [] {
      CountAll(bots[..|bots| - 1], rank);
    }
  }

  lemma UnfoldGates(c: Config, t: Test)
    requires Inv(c, t)
    ensures ValidConfig(c) && |t.bots| == c.clients && Gates(t)
    ensures forall b :: 0 <= b < |t.bots| ==> StageOk(c, t.bots[b].stage)
  {
  }

  /** A stuck bot waits at a gate, for the barrier, or counts Lefts. */
  lemma StuckStages(c: Config, t: Test, b: nat)
    requires Inv(c, t) && Live(c, t) && Stuck(c, t) && b < |t.bots| && b < 0x7FFF_FFFF
    ensures t.pending == []
    ensures var s := t.bots[b].stage;
            s.Ready? || s.Warmed? || s.Barrier? || s.AtBarrier? || s.Completed? || s.Counting? || s.Gone?
    ensures !CanAct(c, t, b)
    ensures IsReading(b, t.bots[b].stage) ==> t.bots[b].cursor >= |R.Visible(t.log, b)|
  {
    hide Inv, R.Visible, LeftCount, Leavers;
    UnfoldGates(c, t);
    assert !Enabled(c, t, Process(0)) && !Enabled(c, t, Act(b)) && !Enabled(c, t, Read(b));
    assert WaitOk(c, t, b) && StageOk(c, t.bots[b].stage);
  }

  lemma StuckPastGates(c: Config, t: Test)
    requires Inv(c, t) && Live(c, t) && Stuck(c, t)
    ensures |t.bots| == c.clients <= 0x7FFF_FFFF
    ensures forall b :: 0 <= b < |t.bots| ==> t.bots[b].stage.Counting? || t.bots[b].stage.Gone?
  {
    hide Inv, Live, Stuck, R.Visible, Count, IsReading;
    UnfoldGates(c, t);
    forall b: nat | b < |t.bots|
      ensures Rank(t.bots[b].stage) >= 2 && !(Rank(t.bots[b].stage) in {3, 7})
      ensures !CanAct(c, t, b)
    {
      StuckStages(c, t, b);
    }
    CountAll(t.bots, 2);
    assert forall b :: 0 <= b < |t.bots| ==> Rank(t.bots[b].stage) >= 4;
    CountAll(t.bots, 4);
    assert forall b :: 0 <= b < |t.bots| ==> Rank(t.bots[b].stage) >= 5;
    forall b: nat | b < |t.bots|
      ensures !t.bots[b].stage.Barrier?
    {
      NobodyAtBarrier(c, t, b);
    }
    assert forall b :: 0 <= b < |t.bots| ==> Rank(t.bots[b].stage) >= 6;
    CountAll(t.bots, 6);
    assert forall b :: 0 <= b < |t.bots| ==> Rank(t.bots[b].stage) >= 8;
    CountAll(t.bots, 8);
  }

  lemma NobodyAtBarrier(c: Config, t: Test, b: nat)
    requires Inv(c, t) && Live(c, t) && Stuck(c, t) && b < |t.bots| && b < 0x7FFF_FFFF
    requires Rank(t.bots[0].stage) >= 5
    ensures !t.bots[b].stage.Barrier?
  {
    hide Inv, Stuck, R.Visible, LeftCount, Leavers;
    StuckStages(c, t, b);
    StuckStages(c, t, 0);
    assert WaitOk(c, t, b);
  }

  /** The next bot to leave has counted all Lefts once it has read everything. */
  lemma NextLeaverActs(c: Config, t: Test, k: nat)
    requires Inv(c, t) && k < |t.bots| && k < 0x7FFF_FFFF && WaitOk(c, t, k) && t.bots[k].stage.Counting?
    requires k == |Leavers(t.log)| && t.bots[k].cursor >= |R.Visible(t.log, k)|
    ensures CanAct(c, t, k)
  {
    hide Inv, R.Visible, LeftCount, Leavers, HasPending, HasUnread;
    UnfoldGates(c, t);
    UnfoldReader(c, t, k);
    var visible := R.Visible(t.log, k);
    assert visible[..t.bots[k].cursor] == visible;
  }

  /** A state in which nothing can happen any more is the end of the test: everybody has left. */
  lemma StuckMeansFinished(c: Config, t: Test)
    requires Inv(c, t) && Live(c, t) && Stuck(c, t)
    ensures t.pending == [] && forall b :: 0 <= b < |t.bots| ==> t.bots[b].stage.Gone?
  {
    hide Inv, Stuck, R.Visible, LeftCount, Leavers, WaitOk, CanAct, IsReading;
    StuckPastGates(c, t);
    UnfoldGates(c, t);
    StuckStages(c, t, 0);
    var k := |Leavers(t.log)|;
    forall b: nat | b < |t.bots|
      ensures b < k <==> t.bots[b].stage.Gone?
    {
      UnfoldAt(c, t, b);
    }
    if k < |t.bots| {
      StuckStages(c, t, k);
      assert WaitOk(c, t, k) && t.bots[k].stage.Counting?;
      CountersRead(c, t, k);
    }
  }

  lemma CountersRead(c: Config, t: Test, k: nat)
    requires Inv(c, t) && k < |t.bots| && k < 0x7FFF_FFFF && WaitOk(c, t, k) && t.bots[k].stage.Counting?
    requires k == |Leavers(t.log)|
    ensures CanAct(c, t, k) || (IsReading(k, t.bots[k].stage) && t.bots[k].cursor < |R.Visible(t.log, k)|)
  {
    hide Inv, R.Visible, LeftCount, Leavers, WaitOk;
    if t.bots[k].cursor >= |R.Visible(t.log, k)| {
      NextLeaverActs(c, t, k);
    }
  }

  // Every run is finite.

  /** How many times a bot will still act. */
  function ActsLeft(c: Config, s: Stage): int
  {
    match s
    case Start => c.warmup + c.measured + 9
    case Entering => c.warmup + c.measured + 8
    case Ready => c.warmup + c.measured + 8
    case Warming(done, awaiting) => (c.warmup - done) + c.measured + (if awaiting then 6 else 7)
    case Warmed => c.measured + 6
    case Barrier(sent) => c.measured + if sent then 4 else 5
    case AtBarrier => c.measured + 4
    case Measuring(done, awaiting) => (c.measured - done) + if awaiting then 2 else 3
    case Completed => 2
    case Counting(_) => 1
    case Gone => 0
  }

  function SumActs(c: Config, bots: seq<Bot>): int
  {
    if bots == [] then 0 else SumActs(c, bots[..|bots| - 1]) + ActsLeft(c, bots[|bots| - 1].stage)
  }

  function SumUnread(bots: seq<Bot>, log: seq<R.Entry>): int
    requires |bots| <= 0x7FFF_FFFF
  {
    if bots == [] then 0
    else
      var n := |bots| - 1;
      SumUnread(bots[..n], log) + |R.Visible(log, n)| - bots[n].cursor
  }

  lemma {:induction false} SumsUpdate(c: Config, bots: seq<Bot>, log: seq<R.Entry>, b: nat, bot: Bot)
    requires b < |bots| <= 0x7FFF_FFFF
    ensures SumActs(c, bots[b := bot]) == SumActs(c, bots) - ActsLeft(c, bots[b].stage) + ActsLeft(c, bot.stage)
    ensures SumUnread(bots[b := bot], log) == SumUnread(bots, log) + bots[b].cursor - bot.cursor
  {
    var n := |bots| - 1;
    if b < n {
      SumsUpdate(c, bots[..n], log, b, bot);
      assert bots[b := bot][..n] == bots[..n][b := bot];
    } else {
      assert bots[b := bot][..n] == bots[..n];
    }
  }

  lemma {:induction false} SumUnreadStep(bots: seq<Bot>, log: seq<R.Entry>, entry: R.Entry)
    requires |bots| <= 0x7FFF_FFFF
    ensures SumUnread(bots, log + [entry]) <= SumUnread(bots, log) + |bots|
  {
    if bots != [] {
      SumUnreadStep(bots[..|bots| - 1], log, entry);
      R.VisibleStep(log, entry, |bots| - 1);
    }
  }

  /** Acts weigh more than the command they may send, and a command more than the reads of its event. */
  function Work(c: Config, t: Test): int
    requires |t.bots| <= 0x7FFF_FFFF
  {
    SumActs(c, t.bots) * (c.clients + 2) + |t.pending| * (c.clients + 1) + SumUnread(t.bots, t.log)
  }

  lemma ActLowers(c: Config, t: Test, b: nat)
    requires ValidConfig(c) && Enabled(c, t, Act(b)) && StageOk(c, t.bots[b].stage)
    ensures ActsLeft(c, ActTurn(c, t, b).stage) <= ActsLeft(c, t.bots[b].stage) - 1
  {
  }

  lemma ReadLowers(c: Config, b: nat, s: Stage, e: R.Event)
    requires IsReading(b, s)
    ensures ActsLeft(c, ReadTurn(c, b, s, e)) <= ActsLeft(c, s)
  {
  }

  lemma Weigh(n: nat, acts: int, acts': int, pending: int, pending': int)
    requires acts' <= acts
    ensures pending' == pending ==> acts' * (n + 2) + pending' * (n + 1) <= acts * (n + 2) + pending * (n + 1)
    ensures pending' <= pending + 1 && acts' < acts ==>
              acts' * (n + 2) + pending' * (n + 1) <= acts * (n + 2) + pending * (n + 1) - 1
    ensures pending' == pending - 1 ==>
              acts' * (n + 2) + pending' * (n + 1) <= acts * (n + 2) + pending * (n + 1) - (n + 1)
  {
    var down, up := acts - acts', pending' - pending;
    assert acts * (n + 2) - acts' * (n + 2) == down * (n + 2);
    assert pending' * (n + 1) - pending * (n + 1) == up * (n + 1);
    assert down * (n + 2) >= 0;
    if down >= 1 {
      assert down * (n + 2) >= n + 2;
    }
    if up <= 1 {
      assert up * (n + 1) <= n + 1;
    }
  }

  /** Every step uses up work. */
  lemma StepLowersWork(c: Config, t: Test, step: Step)
    requires Inv(c, t) && ValidConfig(c) && |t.bots| == c.clients && Enabled(c, t, step)
    ensures |Next(c, t, step).bots| == c.clients && Work(c, Next(c, t, step)) < Work(c, t)
  {
    hide Inv, R.Visible, SumActs, SumUnread, ActsLeft, ReadTurn, ActTurn, CanAct, IsReading;
    var t' := Next(c, t, step);
    match step
    case Act(b) =>
      UnfoldGates(c, t);
      ActLowers(c, t, b);
      SumsUpdate(c, t.bots, t.log, b, t'.bots[b]);
      Weigh(c.clients, SumActs(c, t.bots), SumActs(c, t'.bots), |t.pending|, |t'.pending|);
    case Read(b) =>
      ReadLowers(c, b, t.bots[b].stage, R.Visible(t.log, b)[t.bots[b].cursor]);
      SumsUpdate(c, t.bots, t.log, b, t'.bots[b]);
      Weigh(c.clients, SumActs(c, t.bots), SumActs(c, t'.bots), |t.pending|, |t'.pending|);
    case Process(i) =>
      FrontKeepsInv(c, t, i);
      var entry := ProcessIs(c, Front(t, i));
      SumUnreadStep(t.bots, t.log, entry);
      Weigh(c.clients, SumActs(c, t.bots), SumActs(c, t'.bots), |t.pending|, |t'.pending|);
  }

  lemma {:induction false} WorkIsNatural(c: Config, bots: seq<Bot>, log: seq<R.Entry>)
    requires |bots| <= 0x7FFF_FFFF
    requires forall b: nat :: b < |bots| ==> StageOk(c, bots[b].stage) && bots[b].cursor <= |R.Visible(log, b)|
    ensures SumActs(c, bots) >= 0 && SumUnread(bots, log) >= 0
  {
    hide R.Visible;
    if bots != [] {
      var n := |bots| - 1;
      var init := bots[..n];
      forall b: nat | b < |init|
        ensures StageOk(c, init[b].stage) && init[b].cursor <= |R.Visible(log, b)|
      {
        assert init[b] == bots[b];
      }
      WorkIsNatural(c, init, log);
    }
  }

  lemma WorkAtLeastZero(c: Config, t: Test)
    requires Inv(c, t)
    ensures ValidConfig(c) && |t.bots| == c.clients && Work(c, t) >= 0
  {
    hide Inv, R.Visible, SumActs, SumUnread, LeftCount, Leavers, StageOk;
    UnfoldGates(c, t);
    forall b: nat | b < |t.bots|
      ensures t.bots[b].cursor <= |R.Visible(t.log, b)|
    {
      UnfoldReader(c, t, b);
    }
    WorkIsNatural(c, t.bots, t.log);
    assert SumActs(c, t.bots) * (c.clients + 2) >= 0 && |t.pending| * (c.clients + 1) >= 0;
  }

  lemma {:induction false} InitialSums(c: Config, bots: seq<Bot>)
    requires |bots| <= 0x7FFF_FFFF && forall b :: 0 <= b < |bots| ==> bots[b] == Bot(Start, 0)
    ensures SumActs(c, bots) == |bots| * (c.warmup + c.measured + 9) && SumUnread(bots, []) == 0
  {
    if bots != [] {
      var n := |bots| - 1;
      InitialSums(c, bots[..n]);
      assert (n + 1) * (c.warmup + c.measured + 9) == n * (c.warmup + c.measured + 9) + (c.warmup + c.measured + 9);
    }
  }

  lemma InitialLive(c: Config)
    requires ValidConfig(c)
    ensures Live(c, Initial(c))
    ensures Work(c, Initial(c)) == c.clients * (c.warmup + c.measured + 9) * (c.clients + 2)
  {
    var t := Initial(c);
    InitialSums(c, t.bots);
    assert |t.pending| * (c.clients + 1) == 0;
  }

  lemma {:induction false} RunKeepsLive(c: Config, steps: seq<Step>)
    requires ValidConfig(c) && Possible(c, steps)
    ensures var t := State(c, steps);
            && Live(c, t) && |t.bots| == c.clients
            && Work(c, t) + |steps| <= c.clients * (c.warmup + c.measured + 9) * (c.clients + 2)
  {
    hide Inv, Live, Next, Enabled, Work;
    if steps == [] {
      InitialLive(c);
    } else {
      var init, last := steps[..|steps| - 1], steps[|steps| - 1];
      RunKeepsLive(c, init);
      RunKeepsInv(c, init);
      StepKeepsLive(c, State(c, init), last);
      StepLowersWork(c, State(c, init), last);
    }
  }

  /**
   Every run of the load test is finite, with a bound given by its configuration, and a run that cannot go on has
   every bot gone, the Room empty and idle, and the deliver calls at their one possible total.
   */
  lemma LoadTestCompletes(c: Config, steps: seq<Step>)
    requires ValidConfig(c) && Possible(c, steps)
    ensures |steps| <= c.clients * (c.warmup + c.measured + 9) * (c.clients + 2)
    ensures Stuck(c, State(c, steps)) ==>
              var t, n := State(c, steps), c.clients;
              && |t.bots| == n && (forall b :: 0 <= b < n ==> t.bots[b].stage.Gone?)
              && t.pending == [] && t.players == map[]
              && R.Deliveries(t.log) == n * (n * (c.warmup + c.measured) + 1) + n * n
  {
    hide Possible, State, Inv, Live, Stuck, Work, R.Deliveries;
    RunKeepsInv(c, steps);
    RunKeepsLive(c, steps);
    var t := State(c, steps);
    WorkAtLeastZero(c, t);
    if Stuck(c, t) {
      StuckMeansFinished(c, t);
      TotalDeliveries(c, steps);
      FinalRoomIsEmpty(c, t);
    }
  }

  lemma FinalRoomIsEmpty(c: Config, t: Test)
    requires Inv(c, t) && t.pending == [] && forall b :: 0 <= b < |t.bots| ==> t.bots[b].stage.Gone?
    ensures t.players == map[]
  {
    hide Inv, UnseenOk;
    UnfoldPlaces(c, t);
    assert t.players.Keys == {};
  }
}
