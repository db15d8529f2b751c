/** The load test's order and totals, in every interleaving. */
module LoadClientProof {
  import opened Common
  import opened LoadClient
  import opened LoadClientMoves
  import R = Room

  // Counting bots.

  function Count(bots: seq<Bot>, rank: nat): nat
  {
    if bots == [] then 0
    else Count(bots[..|bots| - 1], rank) + if Rank(bots[|bots| - 1].stage) >= rank then 1 else 0
  }

  lemma {:induction false} CountUpdate(bots: seq<Bot>, b: nat, bot: Bot, rank: nat)
    requires b < |bots| && Rank(bots[b].stage) <= Rank(bot.stage)
    ensures Count(bots[b := bot], rank) == Count(bots, rank) + Passed(bots[b].stage, bot.stage, rank)
  {
    var n := |bots| - 1;
    if b < n {
      CountUpdate(bots[..n], b, bot, rank);
      assert bots[b := bot][..n] == bots[..n][b := bot];
    } else {
      assert bots[b := bot][..n] == bots[..n];
    }
  }

  lemma {:induction false} CountFull(bots: seq<Bot>, rank: nat)
    ensures Count(bots, rank) <= |bots|
    ensures Count(bots, rank) == |bots| ==> forall b :: 0 <= b < |bots| ==> Rank(bots[b].stage) >= rank
  {
    if bots != [] {
      CountFull(bots[..|bots| - 1], rank);
    }
  }

  /** The moves a bot has sent, the barrier move of bot 0 included. */
  function Sent(c: Config, b: nat, s: Stage): nat
  {
    Numbered(c, s) + if b == 0 && BarrierSent(s) then 1 else 0
  }

  function SumSent(c: Config, bots: seq<Bot>): nat
  {
    if bots == [] then 0 else SumSent(c, bots[..|bots| - 1]) + Sent(c, |bots| - 1, bots[|bots| - 1].stage)
  }

  lemma {:induction false} SumUpdate(c: Config, bots: seq<Bot>, b: nat, bot: Bot)
    requires b < |bots|
    ensures SumSent(c, bots[b := bot]) == SumSent(c, bots) - Sent(c, b, bots[b].stage) + Sent(c, b, bot.stage)
  {
    var n := |bots| - 1;
    if b < n {
      SumUpdate(c, bots[..n], b, bot);
      assert bots[b := bot][..n] == bots[..n][b := bot];
    } else {
      assert bots[b := bot][..n] == bots[..n];
    }
  }

  lemma {:induction false} SumOfGone(c: Config, bots: seq<Bot>)
    requires forall b :: 0 <= b < |bots| ==> bots[b].stage.Gone?
    ensures SumSent(c, bots) == |bots| * (c.warmup + c.measured) + if bots == [] then 0 else 1
  {
    if bots != [] {
      var n := |bots| - 1;
      SumOfGone(c, bots[..n]);
      assert (n + 1) * (c.warmup + c.measured) == n * (c.warmup + c.measured) + (c.warmup + c.measured);
    }
  }

  // Counting events and commands.

  function Joins(log: seq<R.Entry>): nat
  {
    if log == [] then 0 else Joins(log[..|log| - 1]) + if log[|log| - 1].event.Joined? then 1 else 0
  }

  function Moves(log: seq<R.Entry>): nat
  {
    if log == [] then 0 else Moves(log[..|log| - 1]) + if log[|log| - 1].event.Moved? then 1 else 0
  }

  /** Who left, in order. */
  function Leavers(log: seq<R.Entry>): seq<R.SessionId>
  {
    if log == [] then []
    else
      var last := log[|log| - 1].event;
      Leavers(log[..|log| - 1]) + if last.Left? then [last.id] else []
  }

  function LeftCount(events: seq<R.Event>): nat
  {
    if events == [] then 0 else LeftCount(events[..|events| - 1]) + if events[|events| - 1].Left? then 1 else 0
  }

  function PendingMoves(pending: seq<R.Command>): nat
  {
    if pending == [] then 0 else (if pending[0].Move? then 1 else 0) + PendingMoves(pending[1..])
  }

  lemma {:induction false} PendingMovesAppend(pending: seq<R.Command>, command: R.Command)
    ensures PendingMoves(pending + [command]) == PendingMoves(pending) + if command.Move? then 1 else 0
  {
    if pending != [] {
      PendingMovesAppend(pending[1..], command);
      assert (pending + [command])[1..] == pending[1..] + [command];
    } else {
      assert [command][1..] == [];
    }
  }

  lemma LogStep(log: seq<R.Entry>, entry: R.Entry)
    ensures var log' := log + [entry];
            && Joins(log') == Joins(log) + (if entry.event.Joined? then 1 else 0)
            && Moves(log') == Moves(log) + (if entry.event.Moved? then 1 else 0)
            && Leavers(log') == Leavers(log) + (if entry.event.Left? then [entry.event.id] else [])
            && R.Deliveries(log') == R.Deliveries(log) + |entry.after|
  {
  }

  lemma {:induction false} LeftCountPrefix(events: seq<R.Event>, n: nat)
    requires n <= |events|
    ensures LeftCount(events[..n]) <= LeftCount(events)
  {
    if n < |events| {
      LeftCountPrefix(events[..|events| - 1], n);
      assert events[..|events| - 1][..n] == events[..n];
    } else {
      assert events[..n] == events;
    }
  }

  lemma {:induction false} VisibleLeaves(log: seq<R.Entry>, id: R.SessionId)
    ensures LeftCount(R.Visible(log, id)) <= |Leavers(log)|
  {
    if log != [] {
      var init, last := log[..|log| - 1], log[|log| - 1];
      VisibleLeaves(init, id);
      var v := R.Visible(init, id);
      assert (v + [last.event])[..|v|] == v;
      assert v + [] == v;
    }
  }

  lemma {:induction false} VisibleIsLogged(log: seq<R.Entry>, id: R.SessionId, i: nat)
    requires i < |R.Visible(log, id)|
    ensures exists k :: 0 <= k < |log| && log[k].event == R.Visible(log, id)[i] && id in log[k].after
  {
    var n := |log| - 1;
    if i < |R.Visible(log[..n], id)| {
      VisibleIsLogged(log[..n], id, i);
      var k :| 0 <= k < n && log[..n][k].event == R.Visible(log[..n], id)[i] && id in log[..n][k].after;
      assert log[k] == log[..n][k];
    } else {
      assert log[n].event == R.Visible(log, id)[i] && id in log[n].after;
    }
  }

  lemma {:induction false} NoLeaversNoLeft(log: seq<R.Entry>, k: nat)
    requires k < |log| && Leavers(log) == []
    ensures !log[k].event.Left?
  {
    if k < |log| - 1 {
      NoLeaversNoLeft(log[..|log| - 1], k);
      assert log[k] == log[..|log| - 1][k];
    }
  }

  // The invariant.

  ghost predicate Inv(c: Config, t: Test)
  {
    && ValidConfig(c)
    && Shape(c, t) && Gates(t) && Lockstep(t.bots)
    && PendingOk(c, t) && MovesOk(c, t) && PlayersOk(t) && UnseenOk(t)
    && LeaversOk(t) && ReadersOk(t) && Totals(c, t)
  }

  ghost predicate Shape(c: Config, t: Test)
  {
    |t.bots| == c.clients && forall b :: 0 <= b < |t.bots| ==> StageOk(c, t.bots[b].stage)
  }

  ghost predicate Gates(t: Test)
  {
    && t.ready == Count(t.bots, 2) && t.warmed == Count(t.bots, 4)
    && t.barrier == Count(t.bots, 6) && t.completed == Count(t.bots, 8)
  }

  /** Nobody is past a gate that somebody has not reached. */
  ghost predicate Lockstep(bots: seq<Bot>)
  {
    forall a, b :: 0 <= a < |bots| && 0 <= b < |bots| ==> Together(Rank(bots[a].stage), Rank(bots[b].stage))
  }

  predicate Together(a: nat, b: nat)
  {
    (a >= 3 ==> b >= 2) && (a >= 5 ==> b >= 4) && (a >= 7 ==> b >= 6) && (a >= 9 ==> b >= 8)
  }

  /** A command on its way is the one its sender's stage is waiting for. */
  ghost predicate Matches(c: Config, b: nat, s: Stage, command: R.Command)
    requires ValidConfig(c)
  {
    match command
    case Join(_) => s.Entering?
    case Leave(_, _) => s.Gone?
    case Move(_, p) =>
      || (s == Barrier(true) && b == 0 && p == BARRIER)
      || (Awaiting(s) && p.x == b + 1 && p.y == Coordinate(Numbered(c, s)))
  }

  /** Every sender has at most one command on its way. */
  ghost predicate PendingOk(c: Config, t: Test)
    requires ValidConfig(c)
  {
    && (forall i :: 0 <= i < |t.pending| ==>
          t.pending[i].id < |t.bots| && Matches(c, t.pending[i].id, t.bots[t.pending[i].id].stage, t.pending[i]))
    && (forall i, j :: 0 <= i < j < |t.pending| ==> t.pending[i].id != t.pending[j].id)
  }

  ghost predicate HasPending(pending: seq<R.Command>, b: nat)
  {
    exists i :: 0 <= i < |pending| && pending[i].id == b
  }

  /** A move with this first coordinate is on its way. */
  ghost predicate MovePending(pending: seq<R.Command>, x: int)
  {
    exists i :: 0 <= i < |pending| && IsMoveOf(pending[i], x)
  }

  predicate IsMoveOf(command: R.Command, x: int)
  {
    command.Move? && command.destination.x == x
  }

  /** Of the moves that concern it, each bot can see those applied and has read those it has gone past. */
  ghost predicate MovesOk(c: Config, t: Test)
  {
    forall b: nat :: b < |t.bots| && b < 0x7FFF_FFFF ==> BotMoves(c, t, b, t.bots[b])
  }

  ghost predicate BotMoves(c: Config, t: Test, b: nat, bot: Bot)
    requires b < |t.bots| && b < 0x7FFF_FFFF
  {
    MovesAt(c, b, bot, R.Visible(t.log, b), MovePending(t.pending, b + 1), BarrierSent(t.bots[0].stage),
            MovePending(t.pending, 0))
  }

  /** Commands of the same kind on their way are those of one sender. */
  lemma MovePendingOf(c: Config, t: Test, b: nat)
    requires ValidConfig(c) && PendingOk(c, t) && b < |t.bots|
    ensures MovePending(t.pending, b + 1) ==> HasPending(t.pending, b) && Awaiting(t.bots[b].stage)
    ensures MovePending(t.pending, 0) ==> HasPending(t.pending, 0) && t.bots[0].stage == Barrier(true)
    ensures HasPending(t.pending, b) && Awaiting(t.bots[b].stage) ==> MovePending(t.pending, b + 1)
    ensures HasPending(t.pending, 0) && t.bots[0].stage == Barrier(true) ==> MovePending(t.pending, 0)
  {
  }

  predicate InRoom(s: Stage, hasPending: bool)
  {
    match s
    case Start => false
    case Entering => !hasPending
    case Gone => hasPending
    case _ => true
  }

  ghost predicate PlayersOk(t: Test)
  {
    && (forall id :: id in t.players ==> id < |t.bots|)
    && (forall b: nat :: b < |t.bots| ==> (b in t.players.Keys <==> InRoom(t.bots[b].stage, HasPending(t.pending, b))))
  }

  /** A bot whose Join has not been applied is in no entry of the log. */
  ghost predicate UnseenOk(t: Test)
  {
    forall b: nat, k :: b < |t.bots| && 0 <= k < |t.log| && Outside(t, b) ==> b !in t.log[k].after
  }

  ghost predicate Outside(t: Test, b: nat)
    requires b < |t.bots|
  {
    t.bots[b].stage.Start? || (t.bots[b].stage.Entering? && HasPending(t.pending, b))
  }

  /** The i-th leaver is bot i; at most the next one's Leave is on its way. */
  ghost predicate LeaversOk(t: Test)
  {
    var k := |Leavers(t.log)|;
    && k <= |t.bots|
    && (forall i :: 0 <= i < k ==> Leavers(t.log)[i] == i)
    && (forall b: nat :: b < |t.bots| ==> LeaverOk(t.bots[b].stage, HasPending(t.pending, b), b, k))
  }

  predicate LeaverOk(s: Stage, hasPending: bool, b: nat, k: nat)
  {
    (b < k <==> s.Gone? && !hasPending) && (s.Gone? && hasPending ==> b == k)
  }

  /** No bot has read a Left before it counts them, and then it has counted all it read. */
  ghost predicate ReadersOk(t: Test)
  {
    forall b: nat :: b < |t.bots| && b < 0x7FFF_FFFF ==> ReaderOk(t.bots[b], R.Visible(t.log, b))
  }

  ghost predicate ReaderOk(bot: Bot, visible: seq<R.Event>)
  {
    && bot.cursor <= |visible|
    && (!bot.stage.Gone? ==>
          LeftCount(visible[..bot.cursor]) == if bot.stage.Counting? then bot.stage.observed else 0)
  }

  ghost predicate Totals(c: Config, t: Test)
  {
    TotalsAre(c.clients, Joins(t.log), Moves(t.log), |Leavers(t.log)|, R.Deliveries(t.log), PendingMoves(t.pending),
              SumSent(c, t.bots), |t.players.Keys|)
  }

  /** Moves sent are applied or on their way; who joined and has not left is in; and the deliver calls so far. */
  ghost predicate TotalsAre(n: nat, j: nat, m: nat, k: nat, deliveries: nat, unsent: nat, sent: nat, size: nat)
  {
    m + unsent == sent && size == j - k && Formula(n, j, m, k, deliveries)
  }

  // A bot moves on without sending.

  /** The change a gate or a read makes to a bot. */
  ghost predicate Quiet(c: Config, t: Test, b: nat, bot: Bot)
    requires b < |t.bots| && b < 0x7FFF_FFFF
  {
    var s, s' := t.bots[b].stage, bot.stage;
    && GateOk(t.bots, s, s') && StageOk(c, s')
    && Sent(c, b, s') == Sent(c, b, s) && Numbered(c, s) <= Numbered(c, s') && (BarrierSent(s) ==> BarrierSent(s'))
    && (s == s' || (!HasPending(t.pending, b) && InRoom(s, false) && InRoom(s', false) &&
                    !s.Gone? && !s'.Gone? && !s'.Start? && !s'.Entering?))
    && ReaderOk(bot, R.Visible(t.log, b)) && BotMoves(c, t, b, bot)
  }

  /** At most one stage at a time, and past a gate only when everybody has reached it. */
  ghost predicate GateOk(bots: seq<Bot>, s: Stage, s': Stage)
  {
    && Rank(s) <= Rank(s') <= Rank(s) + 1
    && (Rank(s) < Rank(s') && Rank(s) in {2, 4, 6, 8} ==>
          forall a :: 0 <= a < |bots| ==> Rank(bots[a].stage) >= Rank(s))
  }

  lemma BecomeGates(t: Test, b: nat, bot: Bot, command: Option<R.Command>)
    requires b < |t.bots| && Gates(t) && Rank(t.bots[b].stage) <= Rank(bot.stage)
    ensures Gates(Become(t, b, bot, command))
  {
    CountUpdate(t.bots, b, bot, 2);
    CountUpdate(t.bots, b, bot, 4);
    CountUpdate(t.bots, b, bot, 6);
    CountUpdate(t.bots, b, bot, 8);
  }

  lemma LockstepUpdate(bots: seq<Bot>, b: nat, bot: Bot)
    requires b < |bots| && Lockstep(bots) && GateOk(bots, bots[b].stage, bot.stage)
    ensures Lockstep(bots[b := bot])
  {
  }

  /** The two states differ in one bot (and counters) only. */
  ghost predicate OnlyBot(t: Test, b: nat, bot: Bot, t': Test)
  {
    && b < |t.bots| && t'.bots == t.bots[b := bot]
    && t'.pending == t.pending && t'.players == t.players && t'.log == t.log
  }

  lemma QuietMoves(c: Config, t: Test, b: nat, bot: Bot, t': Test)
    requires MovesOk(c, t) && b < |t.bots| && b < 0x7FFF_FFFF && Quiet(c, t, b, bot) && OnlyBot(t, b, bot, t')
    ensures MovesOk(c, t')
  {
    hide MovesAt, GateOk, StageOk, HasPending, InRoom, ReaderOk, Numbered, BarrierSent, R.Visible, MovePending;
    assert BarrierSent(t'.bots[0].stage) == BarrierSent(t.bots[0].stage);
    forall d: nat | d < |t'.bots| && d < 0x7FFF_FFFF
      ensures BotMoves(c, t', d, t'.bots[d])
    {
      assert BotMoves(c, t, d, t.bots[d]);
    }
  }

  lemma QuietTotals(c: Config, t: Test, b: nat, bot: Bot, t': Test)
    requires OnlyBot(t, b, bot, t') && Totals(c, t) && Sent(c, b, bot.stage) == Sent(c, b, t.bots[b].stage)
    ensures Totals(c, t')
  {
    SumUpdate(c, t.bots, b, bot);
  }

  lemma QuietOthers(c: Config, t: Test, b: nat, bot: Bot, t': Test)
    requires Inv(c, t) && b < |t.bots| && Quiet(c, t, b, bot) && OnlyBot(t, b, bot, t')
    ensures PendingOk(c, t') && PlayersOk(t') && UnseenOk(t') && LeaversOk(t') && ReadersOk(t')
  {
    hide Count, SumSent, Sent, Numbered, BarrierSent, R.Visible, Leavers, R.Deliveries, Joins, Moves, LeftCount,
         PendingMoves, BotMoves, Together, StageOk, Rank, Gates, Lockstep, Totals, MovesOk, Shape, ReaderOk,
         Matches, GateOk;
    assert !HasPending(t.pending, b) ==> forall i :: 0 <= i < |t.pending| ==> t.pending[i].id != b;
    hide HasPending;
    assert ReadersOk(t') && PlayersOk(t') && LeaversOk(t');
    forall d: nat, k | d < |t'.bots| && 0 <= k < |t'.log| && Outside(t', d)
      ensures d !in t'.log[k].after
    {
      assert Outside(t, d);
    }
  }

  lemma QuietKeepsInv(c: Config, t: Test, b: nat, bot: Bot)
    requires Inv(c, t) && b < |t.bots| && Quiet(c, t, b, bot)
    ensures Inv(c, Become(t, b, bot, None))
  {
    hide Count, SumSent, Sent, Numbered, BarrierSent, R.Visible, Gates, Lockstep, PendingOk, MovesOk, PlayersOk, UnseenOk,
         LeaversOk, ReadersOk, Totals, HasPending, InRoom, ReaderOk, StageOk, Passed;
    var t' := Become(t, b, bot, None);
    assert OnlyBot(t, b, bot, t');
    BecomeGates(t, b, bot, None);
    LockstepUpdate(t.bots, b, bot);
    QuietMoves(c, t, b, bot, t');
    QuietTotals(c, t, b, bot, t');
    QuietOthers(c, t, b, bot, t');
  }

  // A bot reads.

  lemma ReadIsQuiet(c: Config, t: Test, b: nat)
    requires Inv(c, t) && Enabled(c, t, Read(b)) && b < 0x7FFF_FFFF
    ensures var bot := t.bots[b];
            Quiet(c, t, b, Bot(ReadTurn(c, b, bot.stage, R.Visible(t.log, b)[bot.cursor]), bot.cursor + 1))
  {
    hide Count, SumSent, R.Visible, Gates, Lockstep, PendingOk, MovesOk, PlayersOk, UnseenOk, LeaversOk, ReadersOk, Totals,
         ReaderOk, HasPending;
    var bot, e := t.bots[b], R.Visible(t.log, b)[t.bots[b].cursor];
    assert StageOk(c, bot.stage);
    VisibleIsLogged(t.log, b, bot.cursor);
    var k :| 0 <= k < |t.log| && t.log[k].event == e && b in t.log[k].after;
    ReadAdvances(c, t, b, k);
    ReadCountsLeft(c, t, b, k);
    hide BotMoves;
  }

  lemma UnfoldMoves(c: Config, t: Test, b: nat)
    requires Inv(c, t) && b < |t.bots| && b < 0x7FFF_FFFF
    ensures ValidConfig(c) && PendingOk(c, t) && BotMoves(c, t, b, t.bots[b])
    ensures BarrierSent(t.bots[0].stage) ==> Rank(t.bots[b].stage) >= 4
  {
    hide Count, SumSent, R.Visible, Leavers, Gates, PlayersOk, ReadersOk, Totals, PendingOk, UnseenOk, LeaversOk, Shape,
         MovesAt;
    assert Together(Rank(t.bots[0].stage), Rank(t.bots[b].stage));
  }

  lemma CountingSendsNothing(c: Config, t: Test, b: nat)
    requires ValidConfig(c) && PendingOk(c, t) && b < |t.bots|
    requires var s := t.bots[b].stage;
             !s.Entering? && !s.Gone? && !Awaiting(s) && (s == Barrier(true) ==> b != 0)
    ensures !HasPending(t.pending, b)
  {
  }

  /** A bot that an event takes on has nothing on its way any more, and has read one more of the moves that concern it. */
  lemma ReadAdvances(c: Config, t: Test, b: nat, k: nat)
    requires Inv(c, t) && b < |t.bots| && b < 0x7FFF_FFFF && IsReading(b, t.bots[b].stage)
    requires t.bots[b].cursor < |R.Visible(t.log, b)| && k < |t.log| && b in t.log[k].after
    requires t.log[k].event == R.Visible(t.log, b)[t.bots[b].cursor]
    ensures var s := t.bots[b].stage;
            var s' := ReadTurn(c, b, s, t.log[k].event);
            && (s == s' || !HasPending(t.pending, b))
            && BotMoves(c, t, b, Bot(s', t.bots[b].cursor + 1))
  {
    hide Inv, R.Visible, PendingOk, HasPending, MovePending, MovesAt;
    var bot, e := t.bots[b], t.log[k].event;
    UnfoldMoves(c, t, b);
    ReadMoves(c, b, bot, R.Visible(t.log, b), MovePending(t.pending, b + 1), BarrierSent(t.bots[0].stage),
              MovePending(t.pending, 0));
    MovePendingOf(c, t, b);
    if bot.stage.Entering? {
      SeenIsInside(c, t, b, k);
    } else if !Awaiting(bot.stage) && (bot.stage == Barrier(true) ==> b != 0) {
      CountingSendsNothing(c, t, b);
    }
  }

  lemma SeenIsInside(c: Config, t: Test, b: nat, k: nat)
    requires Inv(c, t) && b < |t.bots| && k < |t.log| && b in t.log[k].after
    ensures !Outside(t, b)
  {
    hide Count, SumSent, R.Visible, Leavers, Gates, PlayersOk, ReadersOk, Totals, PendingOk, MovesOk, LeaversOk, Shape,
         Lockstep, Outside;
  }

  lemma NobodyLeftYet(c: Config, t: Test, b: nat)
    requires Inv(c, t) && b < |t.bots| && Rank(t.bots[b].stage) < 8
    ensures Leavers(t.log) == []
    ensures forall a: nat :: a < |t.bots| ==> !t.bots[a].stage.Gone?
  {
    hide Count, SumSent, R.Visible, Leavers, R.Deliveries, Joins, Moves, LeftCount, PendingMoves, Gates,
         PlayersOk, ReadersOk, Totals, MovesOk, PendingOk, UnseenOk, HasPending, Shape;
    forall a: nat | a < |t.bots|
      ensures !t.bots[a].stage.Gone?
    {
      assert Together(Rank(t.bots[a].stage), Rank(t.bots[b].stage));
    }
    assert LeaverOk(t.bots[0].stage, HasPending(t.pending, 0), 0, |Leavers(t.log)|);
  }

  lemma ReadCountsLeft(c: Config, t: Test, b: nat, k: nat)
    requires Inv(c, t) && b < |t.bots| && b < 0x7FFF_FFFF && IsReading(b, t.bots[b].stage)
    requires t.bots[b].cursor < |R.Visible(t.log, b)| && k < |t.log|
    requires t.log[k].event == R.Visible(t.log, b)[t.bots[b].cursor]
    ensures ReaderOk(Bot(ReadTurn(c, b, t.bots[b].stage, t.log[k].event), t.bots[b].cursor + 1), R.Visible(t.log, b))
  {
    hide Count, SumSent, R.Visible, Gates, Lockstep, PendingOk, MovesOk, PlayersOk, UnseenOk, LeaversOk, Totals, Shape;
    var bot, visible := t.bots[b], R.Visible(t.log, b);
    assert ReaderOk(bot, visible);
    assert visible[..bot.cursor + 1][..bot.cursor] == visible[..bot.cursor];
    if !bot.stage.Counting? {
      NobodyLeftYet(c, t, b);
      NoLeaversNoLeft(t.log, k);
    }
  }

  // A bot passes a gate or sends.

  lemma GateIsOpen(c: Config, t: Test, b: nat)
    requires Inv(c, t) && b < |t.bots| && CanAct(c, t, b)
    ensures Rank(t.bots[b].stage) in {2, 4, 6, 8} ==>
              forall a :: 0 <= a < |t.bots| ==> Rank(t.bots[a].stage) >= Rank(t.bots[b].stage)
  {
    hide Count, SumSent, R.Visible, Lockstep, PendingOk, MovesOk, PlayersOk, UnseenOk, LeaversOk, ReadersOk, Totals;
    CountFull(t.bots, 2);
    CountFull(t.bots, 4);
    CountFull(t.bots, 6);
    CountFull(t.bots, 8);
  }

  lemma ActIsQuiet(c: Config, t: Test, b: nat)
    requires Inv(c, t) && b < |t.bots| && b < 0x7FFF_FFFF && CanAct(c, t, b) && ActTurn(c, t, b).command.None?
    ensures Quiet(c, t, b, t.bots[b].(stage := ActTurn(c, t, b).stage))
  {
    hide Count, SumSent, R.Visible, Gates, Lockstep, PendingOk, MovesOk, PlayersOk, UnseenOk, LeaversOk, Totals, HasPending,
         Own, Numbers, Barriers, MovePending;
    assert StageOk(c, t.bots[b].stage) && ReaderOk(t.bots[b], R.Visible(t.log, b));
    GateIsOpen(c, t, b);
    UnfoldMoves(c, t, b);
    CountingSendsNothing(c, t, b);
  }

  /** What sending a command needs and does. */
  ghost predicate Sends(c: Config, t: Test, b: nat, s': Stage, command: R.Command)
    requires ValidConfig(c) && b < |t.bots|
  {
    var s := t.bots[b].stage;
    && command.id == b && !HasPending(t.pending, b) && Matches(c, b, s', command)
    && GateOk(t.bots, s, s') && StageOk(c, s')
    && InRoom(s, false) == InRoom(s', true) && (s'.Entering? ==> s.Start?) && !s'.Start? && !s.Gone?
    && Sent(c, b, s') == Sent(c, b, s) + (if command.Move? then 1 else 0)
    && Numbered(c, s') == Numbered(c, s) + One(IsMoveOf(command, b + 1)) && Returned(c, s') == Returned(c, s)
    && (Rank(s') >= 6 <==> Rank(s) >= 6)
    && (b == 0 ==> (BarrierSent(s') <==> BarrierSent(s) || IsMoveOf(command, 0)))
    && (IsMoveOf(command, 0) ==> b == 0 && !BarrierSent(s))
    && (s'.Gone? ==> b == |Leavers(t.log)|)
    && (s'.Counting? ==> false) && (s.Counting? ==> s'.Gone?)
  }

  lemma CountedAreLogged(t: Test, b: nat)
    requires b < |t.bots| && b < 0x7FFF_FFFF && ReaderOk(t.bots[b], R.Visible(t.log, b)) && t.bots[b].stage.Counting?
    ensures t.bots[b].stage.observed <= |Leavers(t.log)|
  {
    LeftCountPrefix(R.Visible(t.log, b), t.bots[b].cursor);
    VisibleLeaves(t.log, b);
  }

  /** The bot that has counted as many Lefts as its index is exactly the next to leave. */
  lemma LeaverIsNext(c: Config, t: Test, b: nat)
    requires Inv(c, t) && b < |t.bots| && b < 0x7FFF_FFFF && t.bots[b].stage.Counting? && t.bots[b].stage.observed >= b
    ensures b == |Leavers(t.log)|
  {
    hide Count, SumSent, R.Visible, Gates, Lockstep, PendingOk, MovesOk, PlayersOk, UnseenOk, Totals, Leavers, HasPending,
         Shape;
    assert ReaderOk(t.bots[b], R.Visible(t.log, b));
    CountedAreLogged(t, b);
    assert LeaverOk(t.bots[b].stage, HasPending(t.pending, b), b, |Leavers(t.log)|);
  }

  lemma ActSends(c: Config, t: Test, b: nat, command: R.Command)
    requires Inv(c, t) && b < |t.bots| && b < 0x7FFF_FFFF && CanAct(c, t, b) && ActTurn(c, t, b).command == Some(command)
    ensures Sends(c, t, b, ActTurn(c, t, b).stage, command)
  {
    hide Inv, HasPending, Leavers, PendingOk;
    UnfoldBot(c, t, b);
    if command.Leave? {
      LeaverIsNext(c, t, b);
    }
    CountingSendsNothing(c, t, b);
  }

  lemma UnfoldBot(c: Config, t: Test, b: nat)
    requires Inv(c, t) && b < |t.bots|
    ensures ValidConfig(c) && |t.bots| == c.clients && StageOk(c, t.bots[b].stage) && PendingOk(c, t)
  {
  }

  lemma HasPendingAppend(pending: seq<R.Command>, command: R.Command, b: nat)
    ensures HasPending(pending + [command], b) <==> HasPending(pending, b) || command.id == b
  {
    var longer := pending + [command];
    assert longer[|pending|] == command;
    if HasPending(pending, b) {
      var i :| 0 <= i < |pending| && pending[i].id == b;
      assert longer[i].id == b;
    }
  }

  /** The two states differ in one bot and the command it sent. */
  ghost predicate BotSent(t: Test, b: nat, s': Stage, command: R.Command, t': Test)
  {
    && b < |t.bots| && t'.bots == t.bots[b := t.bots[b].(stage := s')]
    && t'.pending == t.pending + [command] && t'.players == t.players && t'.log == t.log
  }

  lemma SendPending(c: Config, t: Test, b: nat, s': Stage, command: R.Command, t': Test)
    requires ValidConfig(c) && PendingOk(c, t) && BotSent(t, b, s', command, t') && Sends(c, t, b, s', command)
    ensures PendingOk(c, t')
  {
  }

  lemma MovePendingAppend(pending: seq<R.Command>, command: R.Command, x: int)
    ensures MovePending(pending + [command], x) <==> MovePending(pending, x) || IsMoveOf(command, x)
  {
    var longer := pending + [command];
    assert longer[|pending|] == command;
    if MovePending(pending, x) {
      var i :| 0 <= i < |pending| && IsMoveOf(pending[i], x);
      assert longer[i] == pending[i];
    }
  }

  /** Sending a move changes the counts of its sender, or for the barrier move everybody's, by the move on its way. */
  lemma SendMoves(c: Config, t: Test, b: nat, s': Stage, command: R.Command, t': Test)
    requires ValidConfig(c) && |t.bots| <= 0x7FFF_FFFF && PendingOk(c, t) && MovesOk(c, t)
    requires BotSent(t, b, s', command, t') && Sends(c, t, b, s', command)
    ensures MovesOk(c, t')
  {
    hide Matches, GateOk, InRoom, StageOk, HasPending, Leavers, R.Visible, Own, Numbers, Barriers, MovePending, PendingOk,
         Sent;
    MovePendingOf(c, t, b);
    MovePendingAppend(t.pending, command, 0);
    forall d: nat | d < |t'.bots| && d < 0x7FFF_FFFF
      ensures BotMoves(c, t', d, t'.bots[d])
    {
      assert BotMoves(c, t, d, t.bots[d]);
      MovePendingAppend(t.pending, command, d + 1);
      SentIsOwn(c, b, s', command, d);
    }
  }

  lemma SentIsOwn(c: Config, b: nat, s': Stage, command: R.Command, d: nat)
    requires ValidConfig(c) && Matches(c, b, s', command)
    ensures IsMoveOf(command, d + 1) ==> d == b
  {
  }

  lemma SendOthers(c: Config, t: Test, b: nat, s': Stage, command: R.Command, t': Test)
    requires Inv(c, t) && BotSent(t, b, s', command, t') && Sends(c, t, b, s', command)
    ensures PlayersOk(t') && UnseenOk(t') && LeaversOk(t') && ReadersOk(t')
  {
    hide Count, SumSent, R.Visible, Gates, Lockstep, PendingOk, MovesOk, Totals, Sent, Numbered, BarrierSent, StageOk,
         Matches, GateOk, LeftCount, Leavers, HasPending;
    forall d: nat
      ensures HasPending(t'.pending, d) <==> HasPending(t.pending, d) || d == b
    {
      HasPendingAppend(t.pending, command, d);
    }
    forall d: nat, k | d < |t'.bots| && 0 <= k < |t'.log| && Outside(t', d)
      ensures d !in t'.log[k].after
    {
      assert Outside(t, d);
    }
    forall d: nat | d < |t'.bots| && d < 0x7FFF_FFFF
      ensures ReaderOk(t'.bots[d], R.Visible(t'.log, d))
    {
      assert ReaderOk(t.bots[d], R.Visible(t.log, d));
    }
  }

  lemma SendTotals(c: Config, t: Test, b: nat, s': Stage, command: R.Command, t': Test)
    requires ValidConfig(c) && Totals(c, t) && BotSent(t, b, s', command, t') && Sends(c, t, b, s', command)
    ensures Totals(c, t')
  {
    hide Sent, Numbered, R.Deliveries, Joins, Moves, Leavers;
    SumUpdate(c, t.bots, b, t.bots[b].(stage := s'));
    PendingMovesAppend(t.pending, command);
  }

  lemma SendKeepsInv(c: Config, t: Test, b: nat, s': Stage, command: R.Command)
    requires Inv(c, t) && b < |t.bots| && Sends(c, t, b, s', command)
    ensures Inv(c, Become(t, b, t.bots[b].(stage := s'), Some(command)))
  {
    hide Count, SumSent, Sent, Numbered, BarrierSent, R.Visible, Gates, Lockstep, PendingOk, MovesOk, PlayersOk, UnseenOk,
         LeaversOk, ReadersOk, Totals, HasPending, InRoom, StageOk, Passed, Matches, Leavers;
    var bot := t.bots[b].(stage := s');
    var t' := Become(t, b, bot, Some(command));
    BecomeGates(t, b, bot, Some(command));
    LockstepUpdate(t.bots, b, bot);
    SendPending(c, t, b, s', command, t');
    SendMoves(c, t, b, s', command, t');
    SendOthers(c, t, b, s', command, t');
    SendTotals(c, t, b, s', command, t');
  }

  // The Room processes a command.

  lemma HasPendingTail(c: Config, t: Test, b: nat)
    requires ValidConfig(c) && PendingOk(c, t) && t.pending != []
    ensures HasPending(t.pending[1..], b) <==> HasPending(t.pending, b) && b != t.pending[0].id
  {
  }

  /** The oldest command is accepted, and its entry is what the log gets. */
  ghost predicate Processes(t: Test, t': Test, entry: R.Entry)
  {
    && t.pending != []
    && t'.bots == t.bots && t'.pending == t.pending[1..] && t'.log == t.log + [entry]
    && t'.ready == t.ready && t'.warmed == t.warmed && t'.barrier == t.barrier && t'.completed == t.completed
    && entry.after == t'.players.Keys && entry.event.id == t.pending[0].id
    && t'.players.Keys == R.MembersAfter(t.players.Keys, entry.event)
    && R.Accepts(t.players.Keys, t.pending[0])
    && match t.pending[0]
       case Join(_) => entry.event.Joined?
       case Move(id, p) => entry.event == R.Moved(id, p)
       case Leave(_, _) => entry.event.Left?
  }

  lemma ProcessSender(c: Config, t: Test)
    requires Inv(c, t) && t.pending != []
    ensures var b := t.pending[0].id;
            && b < |t.bots| && Matches(c, b, t.bots[b].stage, t.pending[0]) && HasPending(t.pending, b)
            && R.Accepts(t.players.Keys, t.pending[0])
  {
  }

  lemma ProcessIs(c: Config, t: Test) returns (entry: R.Entry)
    requires Inv(c, t) && t.pending != []
    ensures Processes(t, ProcessFirst(t), entry)
  {
    hide Inv;
    assert ValidConfig(c) by { UnfoldConfig(c, t); }
    ProcessSender(c, t);
    var (players, result) := R.Apply(t.players, t.pending[0]);
    entry := R.Entry(result.value, players.Keys);
  }

  lemma UnfoldConfig(c: Config, t: Test)
    requires Inv(c, t)
    ensures ValidConfig(c)
  {
  }

  lemma ProcessPending(c: Config, t: Test, t': Test, entry: R.Entry)
    requires ValidConfig(c) && PendingOk(c, t) && Processes(t, t', entry)
    ensures PendingOk(c, t')
  {
  }

  lemma MovePendingTail(c: Config, t: Test, d: nat)
    requires ValidConfig(c) && PendingOk(c, t) && t.pending != [] && d < |t.bots|
    ensures MovePending(t.pending[1..], d + 1) <==> MovePending(t.pending, d + 1) && !IsMoveOf(t.pending[0], d + 1)
    ensures MovePending(t.pending[1..], 0) <==> MovePending(t.pending, 0) && !IsMoveOf(t.pending[0], 0)
  {
    MoveTail(t.pending, d + 1);
    MoveTail(t.pending, 0);
    forall i | 0 < i < |t.pending|
      ensures IsMoveOf(t.pending[0], d + 1) ==> !IsMoveOf(t.pending[i], d + 1)
      ensures IsMoveOf(t.pending[0], 0) ==> !IsMoveOf(t.pending[i], 0)
    {
      assert t.pending[0].id != t.pending[i].id;
      assert Matches(c, t.pending[0].id, t.bots[t.pending[0].id].stage, t.pending[0]);
      assert Matches(c, t.pending[i].id, t.bots[t.pending[i].id].stage, t.pending[i]);
    }
  }

  lemma MoveTail(pending: seq<R.Command>, x: int)
    requires pending != []
    ensures MovePending(pending, x) <==> IsMoveOf(pending[0], x) || MovePending(pending[1..], x)
    ensures MovePending(pending[1..], x) ==> exists i :: 0 < i < |pending| && IsMoveOf(pending[i], x)
  {
    var rest := pending[1..];
    if MovePending(rest, x) {
      var i :| 0 <= i < |rest| && IsMoveOf(rest[i], x);
      assert pending[i + 1] == rest[i];
    }
    if MovePending(pending, x) && !IsMoveOf(pending[0], x) {
      var i :| 0 <= i < |pending| && IsMoveOf(pending[i], x);
      assert rest[i - 1] == pending[i];
    }
  }

  /** Everybody who is concerned by a move is told of it. */
  lemma MoveIsSeen(c: Config, t: Test, t': Test, entry: R.Entry, d: nat)
    requires Inv(c, t) && Processes(t, t', entry) && d < |t.bots|
    ensures IsMoveOf(t.pending[0], d + 1) ==>
              d in entry.after && t.pending[0].destination.y == Coordinate(Numbered(c, t.bots[d].stage))
    ensures IsMoveOf(t.pending[0], 0) ==> d in entry.after && t.pending[0].destination.y == 0
  {
    hide Inv, HasPending, Leavers;
    ProcessSender(c, t);
    UnfoldAt(c, t, d);
    if IsMoveOf(t.pending[0], 0) {
      BarrierAttendance(c, t, d);
    }
  }

  lemma BarrierAttendance(c: Config, t: Test, d: nat)
    requires Inv(c, t) && d < |t.bots| && t.bots[0].stage == Barrier(true)
    ensures 4 <= Rank(t.bots[d].stage) < 10
  {
    hide Count, SumSent, R.Visible, Leavers, Gates, PlayersOk, ReadersOk, Totals, PendingOk, UnseenOk, LeaversOk, Shape,
         MovesOk;
    assert Together(Rank(t.bots[0].stage), Rank(t.bots[d].stage));
    assert Together(Rank(t.bots[d].stage), Rank(t.bots[0].stage));
  }

  /** One more visible event: a move on its way becomes a move that can be read. */
  lemma GrowMoves(c: Config, b: nat, bot: Bot, visible: seq<R.Event>, own: bool, sent: bool, barrier: bool, e: R.Event,
                  own': bool, barrier': bool)
    requires MovesAt(c, b, bot, visible, own, sent, barrier)
    requires IsOwn(e, b + 1) ==> own && !own' && e.position.y == Coordinate(Numbered(c, bot.stage))
    requires !IsOwn(e, b + 1) ==> own' == own
    requires IsOwn(e, 0) ==> barrier && !barrier' && e.position.y == 0
    requires !IsOwn(e, 0) ==> barrier' == barrier
    ensures MovesAt(c, b, bot, visible + [e], own', sent, barrier')
  {
    hide Own, Numbers;
    OwnSnoc(visible, e, b + 1);
    OwnSnoc(visible, e, 0);
    NumbersSnoc(visible, e, b + 1);
    assert (visible + [e])[..bot.cursor] == visible[..bot.cursor];
  }

  lemma ProcessMoves(c: Config, t: Test, t': Test, entry: R.Entry)
    requires Inv(c, t) && Processes(t, t', entry)
    ensures MovesOk(c, t')
  {
    hide Inv, R.Visible, MovesAt, PendingOk, HasPending, MovePending, Matches, BarrierSent;
    forall d: nat | d < |t'.bots| && d < 0x7FFF_FFFF
      ensures BotMoves(c, t', d, t'.bots[d])
    {
      UnfoldMoves(c, t, d);
      MovePendingTail(c, t, d);
      MoveIsSeen(c, t, t', entry, d);
      R.VisibleStep(t.log, entry, d);
      ProcessBotMoves(c, t, t', entry, d);
    }
  }

  lemma ProcessBotMoves(c: Config, t: Test, t': Test, entry: R.Entry, d: nat)
    requires Processes(t, t', entry) && d < |t.bots| && d < 0x7FFF_FFFF && BotMoves(c, t, d, t.bots[d])
    requires MovePending(t'.pending, d + 1) <==> MovePending(t.pending, d + 1) && !IsMoveOf(t.pending[0], d + 1)
    requires MovePending(t'.pending, 0) <==> MovePending(t.pending, 0) && !IsMoveOf(t.pending[0], 0)
    requires IsMoveOf(t.pending[0], d + 1) ==>
               d in entry.after && t.pending[0].destination.y == Coordinate(Numbered(c, t.bots[d].stage))
    requires IsMoveOf(t.pending[0], 0) ==> d in entry.after && t.pending[0].destination.y == 0
    requires R.Visible(t'.log, d) == R.Visible(t.log, d) + if d in entry.after then [entry.event] else []
    ensures BotMoves(c, t', d, t.bots[d])
  {
    hide R.Visible, MovesAt, BarrierSent, Numbered;
    HeadIsPending(t.pending, d + 1);
    HeadIsPending(t.pending, 0);
    hide MovePending;
    var visible := R.Visible(t.log, d);
    if d in entry.after {
      GrowMoves(c, d, t.bots[d], visible, MovePending(t.pending, d + 1), BarrierSent(t.bots[0].stage),
                MovePending(t.pending, 0), entry.event, MovePending(t'.pending, d + 1), MovePending(t'.pending, 0));
    } else {
      assert visible + [] == visible;
    }
  }

  lemma HeadIsPending(pending: seq<R.Command>, x: int)
    requires pending != []
    ensures IsMoveOf(pending[0], x) ==> MovePending(pending, x)
  {
  }

  lemma UnfoldAt(c: Config, t: Test, d: nat)
    requires Inv(c, t) && d < |t.bots|
    ensures ValidConfig(c) && PendingOk(c, t) && |t.bots| == c.clients
    ensures d in t.players.Keys <==> InRoom(t.bots[d].stage, HasPending(t.pending, d))
    ensures LeaverOk(t.bots[d].stage, HasPending(t.pending, d), d, |Leavers(t.log)|)
  {
  }

  /** What processing a command does to each bot's place in the Room and in the order of leaving. */
  lemma ProcessAt(c: Config, t: Test, t': Test, entry: R.Entry, d: nat)
    requires Inv(c, t) && Processes(t, t', entry) && d < |t.bots|
    ensures d in t'.players.Keys <==> InRoom(t'.bots[d].stage, HasPending(t'.pending, d))
    ensures Outside(t', d) ==> Outside(t, d) && d !in t'.players.Keys
    ensures LeaverOk(t'.bots[d].stage, HasPending(t'.pending, d), d, |Leavers(t'.log)|)
    ensures t.pending[0].Leave? ==> t.pending[0].id == |Leavers(t.log)| < |t.bots|
  {
    hide Inv, HasPending, PendingOk, Leavers;
    UnfoldAt(c, t, d);
    ProcessSender(c, t);
    UnfoldAt(c, t, t.pending[0].id);
    HasPendingTail(c, t, d);
    LogStep(t.log, entry);
  }

  lemma UnfoldPlaces(c: Config, t: Test)
    requires Inv(c, t)
    ensures PlayersOk(t) && UnseenOk(t)
  {
  }

  lemma ProcessPlayers(c: Config, t: Test, t': Test, entry: R.Entry)
    requires Inv(c, t) && Processes(t, t', entry)
    ensures PlayersOk(t')
  {
    hide Inv, HasPending, InRoom, LeaverOk, Outside, Leavers, Matches, UnseenOk;
    UnfoldPlaces(c, t);
    ProcessSender(c, t);
    forall d: nat | d < |t'.bots|
      ensures d in t'.players.Keys <==> InRoom(t'.bots[d].stage, HasPending(t'.pending, d))
    {
      ProcessAt(c, t, t', entry, d);
    }
  }

  lemma ProcessUnseen(c: Config, t: Test, t': Test, entry: R.Entry)
    requires Inv(c, t) && Processes(t, t', entry)
    ensures UnseenOk(t')
  {
    hide Inv, HasPending, InRoom, LeaverOk, Outside, Leavers, PlayersOk;
    UnfoldPlaces(c, t);
    forall d: nat, k | d < |t'.bots| && 0 <= k < |t'.log| && Outside(t', d)
      ensures d !in t'.log[k].after
    {
      ProcessAt(c, t, t', entry, d);
      assert Outside(t, d);
      assert k < |t.log| ==> t'.log[k] == t.log[k];
    }
  }

  lemma UnfoldOrder(c: Config, t: Test)
    requires Inv(c, t)
    ensures |Leavers(t.log)| <= |t.bots| && (forall i :: 0 <= i < |Leavers(t.log)| ==> Leavers(t.log)[i] == i)
  {
  }

  lemma ProcessLeavers(c: Config, t: Test, t': Test, entry: R.Entry)
    requires Inv(c, t) && Processes(t, t', entry)
    ensures LeaversOk(t')
  {
    hide Inv, HasPending, Leavers, InRoom, LeaverOk, Outside, Matches;
    ProcessSender(c, t);
    LogStep(t.log, entry);
    ProcessAt(c, t, t', entry, t.pending[0].id);
    UnfoldOrder(c, t);
    forall d: nat | d < |t'.bots|
      ensures LeaverOk(t'.bots[d].stage, HasPending(t'.pending, d), d, |Leavers(t'.log)|)
    {
      ProcessAt(c, t, t', entry, d);
    }
  }

  lemma ProcessReaders(t: Test, t': Test, entry: R.Entry)
    requires ReadersOk(t) && Processes(t, t', entry)
    ensures ReadersOk(t')
  {
    hide R.Visible, LeftCount;
    forall d: nat | d < |t'.bots| && d < 0x7FFF_FFFF
      ensures ReaderOk(t'.bots[d], R.Visible(t'.log, d))
    {
      assert ReaderOk(t.bots[d], R.Visible(t.log, d));
      R.VisibleStep(t.log, entry, d);
      assert R.Visible(t'.log, d)[..t.bots[d].cursor] == R.Visible(t.log, d)[..t.bots[d].cursor];
    }
  }

  function Range(lo: nat, hi: nat): (r: set<R.SessionId>)
    requires lo <= hi <= 0x7FFF_FFFF
    ensures forall id: R.SessionId :: id in r <==> lo <= id < hi
    ensures |r| == hi - lo
    decreases hi
  {
    if lo == hi then {} else Range(lo, hi - 1) + {hi - 1}
  }

  /** Once everybody is past the first gate, the players are exactly the bots that have not left. */
  lemma PlayersAreRange(c: Config, t: Test, b: nat)
    requires Inv(c, t) && b < |t.bots| && Rank(t.bots[b].stage) >= 3
    ensures |t.players.Keys| == c.clients - |Leavers(t.log)|
  {
    var k, n := |Leavers(t.log)|, c.clients;
    hide Count, SumSent, R.Visible, Gates, Totals, UnseenOk, ReadersOk, MovesOk, PendingOk, HasPending, Leavers;
    forall d: nat | d < n
      ensures d in t.players.Keys <==> d >= k
    {
      assert Together(Rank(t.bots[b].stage), Rank(t.bots[d].stage));
      assert LeaverOk(t.bots[d].stage, HasPending(t.pending, d), d, k);
      assert d in t.players.Keys <==> InRoom(t.bots[d].stage, HasPending(t.pending, d));
    }
    assert t.players.Keys == Range(k, n);
  }

  /** The delivery formula, doubled. */
  ghost predicate Formula(n: nat, j: nat, m: nat, k: nat, deliveries: nat)
  {
    2 * deliveries == j * (j + 1) + 2 * (n * m) + k * (2 * n - k - 1)
  }

  lemma ProcessSizes(t: Test, t': Test, entry: R.Entry)
    requires Processes(t, t', entry)
    ensures |entry.after| == |t'.players.Keys|
    ensures t.pending[0].Join? ==> entry.event.Joined? && |t'.players.Keys| == |t.players.Keys| + 1
    ensures t.pending[0].Move? ==> entry.event.Moved? && |t'.players.Keys| == |t.players.Keys|
    ensures t.pending[0].Leave? ==> entry.event.Left? && |t'.players.Keys| == |t.players.Keys| - 1
    ensures t'.bots == t.bots && t'.log == t.log + [entry]
    ensures PendingMoves(t.pending) == PendingMoves(t'.pending) + if t.pending[0].Move? then 1 else 0
  {
  }

  /** Who is there when a command is processed: everybody for a move, nobody gone yet for a Join. */
  lemma ProcessAttendance(c: Config, t: Test)
    requires Inv(c, t) && t.pending != []
    ensures t.pending[0].Join? || t.pending[0].Move? ==> |Leavers(t.log)| == 0
    ensures t.pending[0].Move? || t.pending[0].Leave? ==> |t.players.Keys| == c.clients - |Leavers(t.log)|
  {
    hide Inv, Leavers, HasPending;
    ProcessSender(c, t);
    var b := t.pending[0].id;
    if !t.pending[0].Leave? {
      NobodyLeftYet(c, t, b);
    }
    if !t.pending[0].Join? {
      PlayersAreRange(c, t, b);
    }
  }

  lemma UnfoldTotals(c: Config, t: Test)
    requires Inv(c, t)
    ensures Totals(c, t)
  {
  }

  /** What an event adds: a Join tells everybody who is in, a Move all n, a Leave those who stay. */
  lemma TotalsStep(n: nat, j: nat, m: nat, k: nat, deliveries: nat, unsent: nat, sent: nat, size: nat,
                   command: R.Command, size': nat, unsent': nat)
    requires TotalsAre(n, j, m, k, deliveries, unsent, sent, size)
    requires unsent == unsent' + if command.Move? then 1 else 0
    requires command.Join? ==> k == 0 && size' == size + 1
    requires command.Move? ==> k == 0 && size == n && size' == size
    requires command.Leave? ==> size == n - k && size' == size - 1
    ensures TotalsAre(n, j + if command.Join? then 1 else 0, m + if command.Move? then 1 else 0,
                      k + if command.Leave? then 1 else 0, deliveries + size', unsent', sent, size')
  {
  }

  lemma ProcessCounts(c: Config, t: Test, t': Test, entry: R.Entry)
    requires Processes(t, t', entry)
    ensures t.pending != []
    ensures Joins(t'.log) == Joins(t.log) + if t.pending[0].Join? then 1 else 0
    ensures Moves(t'.log) == Moves(t.log) + if t.pending[0].Move? then 1 else 0
    ensures |Leavers(t'.log)| == |Leavers(t.log)| + if t.pending[0].Leave? then 1 else 0
    ensures R.Deliveries(t'.log) == R.Deliveries(t.log) + |t'.players.Keys|
  {
  }

  lemma ProcessTotals(c: Config, t: Test, t': Test, entry: R.Entry)
    requires Inv(c, t) && Processes(t, t', entry)
    ensures Totals(c, t')
  {
    hide Inv, Processes, SumSent, Leavers, Joins, Moves, R.Deliveries, TotalsAre, PendingMoves;
    ProcessCounts(c, t, t', entry);
    ProcessSizes(t, t', entry);
    ProcessAttendance(c, t);
    UnfoldTotals(c, t);
    TotalsStep(c.clients, Joins(t.log), Moves(t.log), |Leavers(t.log)|, R.Deliveries(t.log), PendingMoves(t.pending),
               SumSent(c, t.bots), |t.players.Keys|, t.pending[0], |t'.players.Keys|, PendingMoves(t'.pending));
  }

  lemma ProcessKeepsInv(c: Config, t: Test)
    requires Inv(c, t) && t.pending != []
    ensures Inv(c, ProcessFirst(t))
  {
    var entry := ProcessIs(c, t);
    var t' := ProcessFirst(t);
    hide Count, SumSent, R.Visible, Gates, Lockstep, PendingOk, MovesOk, PlayersOk, UnseenOk, LeaversOk, ReadersOk, Totals,
         R.Apply;
    ProcessPending(c, t, t', entry);
    ProcessMoves(c, t, t', entry);
    ProcessPlayers(c, t, t', entry);
    ProcessUnseen(c, t, t', entry);
    ProcessLeavers(c, t, t', entry);
    ProcessReaders(t, t', entry);
    ProcessTotals(c, t, t', entry);
    GatesIgnoreLog(t, t');
  }

  lemma GatesIgnoreLog(t: Test, t': Test)
    requires Gates(t) && t'.bots == t.bots
    requires t'.ready == t.ready && t'.warmed == t.warmed && t'.barrier == t.barrier && t'.completed == t.completed
    ensures Gates(t')
  {
  }

  // Commands overtake each other.

  function Front(t: Test, i: nat): Test
    requires i < |t.pending|
  {
    t.(pending := ToFront(t.pending, i))
  }

  /** Where the j-th command was before the i-th came to the front. */
  function Was(i: nat, j: nat): nat
  {
    if j == 0 then i else if j <= i then j - 1 else j
  }

  lemma FrontAt(pending: seq<R.Command>, i: nat, j: nat)
    requires i < |pending| && j < |pending|
    ensures |ToFront(pending, i)| == |pending| && ToFront(pending, i)[j] == pending[Was(i, j)]
    ensures exists k :: 0 <= k < |pending| && pending[j] == ToFront(pending, i)[k]
  {
    var k := if j == i then 0 else if j < i then j + 1 else j;
    assert pending[j] == ToFront(pending, i)[k];
  }

  lemma {:induction false} PendingMovesConcat(a: seq<R.Command>, b: seq<R.Command>)
    ensures PendingMoves(a + b) == PendingMoves(a) + PendingMoves(b)
  {
    if a == [] {
      assert a + b == b;
    } else {
      PendingMovesConcat(a[1..], b);
      assert (a + b)[1..] == a[1..] + b;
    }
  }

  lemma FrontMoves(pending: seq<R.Command>, i: nat)
    requires i < |pending|
    ensures PendingMoves(ToFront(pending, i)) == PendingMoves(pending)
  {
    hide PendingMoves;
    var a, x, b := pending[..i], pending[i..i + 1], pending[i + 1..];
    assert pending == a + (x + b) && ToFront(pending, i) == x + (a + b);
    PendingMovesConcat(a, x + b);
    PendingMovesConcat(x, b);
    PendingMovesConcat(x, a + b);
    PendingMovesConcat(a, b);
  }

  lemma FrontSame(pending: seq<R.Command>, i: nat, b: nat, x: int)
    requires i < |pending|
    ensures HasPending(ToFront(pending, i), b) <==> HasPending(pending, b)
    ensures MovePending(ToFront(pending, i), x) <==> MovePending(pending, x)
  {
    var front := ToFront(pending, i);
    forall j: nat | j < |pending|
      ensures front[j] == pending[Was(i, j)] && exists k :: 0 <= k < |pending| && pending[j] == front[k]
    {
      FrontAt(pending, i, j);
    }
  }

  lemma FrontPending(c: Config, t: Test, i: nat)
    requires ValidConfig(c) && PendingOk(c, t) && i < |t.pending|
    ensures PendingOk(c, Front(t, i))
  {
  }

  lemma FrontOthers(c: Config, t: Test, i: nat)
    requires Inv(c, t) && i < |t.pending|
    ensures var t' := Front(t, i);
            MovesOk(c, t') && PlayersOk(t') && UnseenOk(t') && LeaversOk(t') && ReadersOk(t')
  {
    hide Count, SumSent, R.Visible, Gates, Lockstep, PendingOk, Totals, HasPending, MovePending, MovesAt, InRoom,
         LeaverOk, ReaderOk, Leavers, ToFront, Shape;
    var t' := Front(t, i);
    forall b: nat
      ensures HasPending(t'.pending, b) <==> HasPending(t.pending, b)
    {
      FrontSame(t.pending, i, b, 0);
    }
    forall x: int
      ensures MovePending(t'.pending, x) <==> MovePending(t.pending, x)
    {
      FrontSame(t.pending, i, 0, x);
    }
    forall d: nat, k | d < |t'.bots| && 0 <= k < |t'.log| && Outside(t', d)
      ensures d !in t'.log[k].after
    {
      assert Outside(t, d);
    }
    forall d: nat | d < |t'.bots| && d < 0x7FFF_FFFF
      ensures BotMoves(c, t', d, t'.bots[d])
    {
      assert BotMoves(c, t, d, t.bots[d]);
    }
  }

  /** Nothing that holds of the test depends on the order of the commands on their way. */
  lemma FrontKeepsInv(c: Config, t: Test, i: nat)
    requires Inv(c, t) && i < |t.pending|
    ensures Inv(c, Front(t, i))
  {
    hide Count, SumSent, R.Visible, Lockstep, PendingOk, MovesOk, PlayersOk, UnseenOk, LeaversOk, ReadersOk,
         Joins, Moves, Leavers, R.Deliveries, Formula, ToFront, PendingMoves;
    FrontPending(c, t, i);
    FrontOthers(c, t, i);
    FrontMoves(t.pending, i);
  }

  // Every step, every run.

  lemma ActKeepsInv(c: Config, t: Test, b: nat)
    requires Inv(c, t) && ValidConfig(c) && Enabled(c, t, Act(b))
    ensures Inv(c, Next(c, t, Act(b)))
  {
    hide Inv, Become, Quiet, Sends;
    var turn := ActTurn(c, t, b);
    if turn.command.Some? {
      ActSends(c, t, b, turn.command.value);
      SendKeepsInv(c, t, b, turn.stage, turn.command.value);
    } else {
      ActIsQuiet(c, t, b);
      QuietKeepsInv(c, t, b, t.bots[b].(stage := turn.stage));
    }
  }

  lemma ReadKeepsInv(c: Config, t: Test, b: nat)
    requires Inv(c, t) && ValidConfig(c) && Enabled(c, t, Read(b))
    ensures Inv(c, Next(c, t, Read(b)))
  {
    hide Inv, Become, Quiet, R.Visible, ReadTurn;
    ReadIsQuiet(c, t, b);
    var bot := t.bots[b];
    QuietKeepsInv(c, t, b, Bot(ReadTurn(c, b, bot.stage, R.Visible(t.log, b)[bot.cursor]), bot.cursor + 1));
  }

  lemma ProcessAnyKeepsInv(c: Config, t: Test, i: nat)
    requires Inv(c, t) && ValidConfig(c) && Enabled(c, t, Process(i))
    ensures Inv(c, Next(c, t, Process(i)))
  {
    hide Inv, ProcessFirst;
    FrontKeepsInv(c, t, i);
    ProcessKeepsInv(c, Front(t, i));
  }

  lemma StepKeepsInv(c: Config, t: Test, step: Step)
    requires Inv(c, t) && Enabled(c, t, step)
    ensures ValidConfig(c) && Inv(c, Next(c, t, step))
  {
    hide Inv, Next, Enabled;
    UnfoldConfig(c, t);
    match step
    case Act(b) => ActKeepsInv(c, t, b);
    case Read(b) => ReadKeepsInv(c, t, b);
    case Process(i) => ProcessAnyKeepsInv(c, t, i);
  }

  ghost predicate Possible(c: Config, steps: seq<Step>)
    requires ValidConfig(c)
    decreases |steps|, 0
  {
    steps == [] ||
    (Possible(c, steps[..|steps| - 1]) && Enabled(c, State(c, steps[..|steps| - 1]), steps[|steps| - 1]))
  }

  /** The test after a run from its start. */
  ghost function State(c: Config, steps: seq<Step>): Test
    requires ValidConfig(c) && Possible(c, steps)
    decreases |steps|, 1
  {
    if steps == [] then Initial(c) else Next(c, State(c, steps[..|steps| - 1]), steps[|steps| - 1])
  }

  lemma {:induction false} InitialCount(bots: seq<Bot>, rank: nat)
    requires rank > 0 && forall b :: 0 <= b < |bots| ==> bots[b].stage.Start?
    ensures Count(bots, rank) == 0
  {
    if bots != [] {
      InitialCount(bots[..|bots| - 1], rank);
    }
  }

  lemma {:induction false} InitialSum(c: Config, bots: seq<Bot>)
    requires forall b :: 0 <= b < |bots| ==> bots[b].stage.Start?
    ensures SumSent(c, bots) == 0
  {
    if bots != [] {
      InitialSum(c, bots[..|bots| - 1]);
    }
  }

  lemma InitialInv(c: Config)
    requires ValidConfig(c)
    ensures Inv(c, Initial(c))
  {
    hide Count, SumSent, PendingOk, MovesOk, PlayersOk, UnseenOk, LeaversOk, ReadersOk;
    var t := Initial(c);
    InitialCount(t.bots, 2);
    InitialCount(t.bots, 4);
    InitialCount(t.bots, 6);
    InitialCount(t.bots, 8);
    InitialSum(c, t.bots);
    InitialPlaces(c);
  }

  lemma InitialPlaces(c: Config)
    requires ValidConfig(c)
    ensures var t := Initial(c);
            PendingOk(c, t) && MovesOk(c, t) && PlayersOk(t) && UnseenOk(t) && LeaversOk(t) && ReadersOk(t)
  {
  }

  lemma {:induction false} RunKeepsInv(c: Config, steps: seq<Step>)
    requires ValidConfig(c) && Possible(c, steps)
    ensures Inv(c, State(c, steps))
  {
    hide Inv, Next, Enabled;
    if steps == [] {
      InitialInv(c);
    } else {
      RunKeepsInv(c, steps[..|steps| - 1]);
      StepKeepsInv(c, State(c, steps[..|steps| - 1]), steps[|steps| - 1]);
    }
  }

  /**
   In every interleaving bots leave in order of index, and a bot that is not yet counting has read no Left;
   one that counts has counted exactly the Lefts it read.
   */
  lemma BotsLeaveInOrder(c: Config, steps: seq<Step>, b: nat)
    requires ValidConfig(c) && Possible(c, steps) && b < c.clients
    ensures var t := State(c, steps);
            && |t.bots| == c.clients
            && (forall i :: 0 <= i < |Leavers(t.log)| ==> Leavers(t.log)[i] == i)
            && (t.bots[b].cursor <= |R.Visible(t.log, b)|)
            && (Rank(t.bots[b].stage) < 9 ==> LeftCount(R.Visible(t.log, b)[..t.bots[b].cursor]) == 0)
            && (t.bots[b].stage.Counting? ==>
                  t.bots[b].stage.observed == LeftCount(R.Visible(t.log, b)[..t.bots[b].cursor]))
  {
    hide State, Possible, Inv, Rank, LeftCount, Leavers, R.Visible;
    RunKeepsInv(c, steps);
    UnfoldReader(c, State(c, steps), b);
  }

  lemma UnfoldReader(c: Config, t: Test, b: nat)
    requires Inv(c, t) && b < c.clients
    ensures |t.bots| == c.clients && ReaderOk(t.bots[b], R.Visible(t.log, b))
    ensures Rank(t.bots[b].stage) < 9 <==> !t.bots[b].stage.Counting? && !t.bots[b].stage.Gone?
    ensures forall i :: 0 <= i < |Leavers(t.log)| ==> Leavers(t.log)[i] == i
  {
    hide Count, SumSent, R.Visible, Gates, Lockstep, PendingOk, MovesOk, PlayersOk, UnseenOk, Totals, LeftCount, Leavers,
         ReaderOk;
  }

  lemma FinalCounts(c: Config, t: Test)
    requires Inv(c, t) && t.pending == [] && forall b :: 0 <= b < |t.bots| ==> t.bots[b].stage.Gone?
    ensures |Leavers(t.log)| == Joins(t.log) == c.clients && Moves(t.log) == SumSent(c, t.bots)
    ensures Formula(c.clients, c.clients, Moves(t.log), c.clients, R.Deliveries(t.log)) && |t.bots| == c.clients > 0
  {
    hide Count, SumSent, R.Visible, Gates, Lockstep, PendingOk, MovesOk, UnseenOk, ReadersOk, Leavers, Joins, Moves,
         R.Deliveries, Formula;
    var n := c.clients;
    assert LeaverOk(t.bots[n - 1].stage, HasPending(t.pending, n - 1), n - 1, |Leavers(t.log)|);
    PlayersAreRange(c, t, 0);
  }

  /** Joins contribute 1 + ... + n, leaves (n - 1) + ... + 0. */
  lemma FinalFormula(n: nat, m: nat, deliveries: nat)
    requires Formula(n, n, m, n, deliveries)
    ensures deliveries == n * m + n * n
  {
  }

  /** When every bot is gone and the Room has caught up, the number of deliver calls is fixed, whatever the interleaving. */
  lemma TotalDeliveries(c: Config, steps: seq<Step>)
    requires ValidConfig(c) && Possible(c, steps)
    requires State(c, steps).pending == []
    requires forall b :: 0 <= b < |State(c, steps).bots| ==> State(c, steps).bots[b].stage.Gone?
    ensures var n, moves := c.clients, c.clients * (c.warmup + c.measured) + 1;
            R.Deliveries(State(c, steps).log) == n * moves + n * n
  {
    hide Possible, State, Inv, Formula, SumSent;
    RunKeepsInv(c, steps);
    var t := State(c, steps);
    SumOfGone(c, t.bots);
    FinalCounts(c, t);
    FinalFormula(c.clients, Moves(t.log), R.Deliveries(t.log));
  }

  /** While a Leave is on its way nothing else is, so no event reaches fewer recipients than there are players. */
  lemma LeaveTravelsAlone(c: Config, steps: seq<Step>, i: nat)
    requires ValidConfig(c) && Possible(c, steps)
    requires i < |State(c, steps).pending| && State(c, steps).pending[i].Leave?
    ensures |State(c, steps).pending| == 1
  {
    hide Possible, State, Count, SumSent, R.Visible, Gates, MovesOk, PlayersOk, UnseenOk, ReadersOk, Totals, Leavers;
    RunKeepsInv(c, steps);
    var t := State(c, steps);
    var b := t.pending[i].id;
    forall j | 0 <= j < |t.pending|
      ensures t.pending[j].id == |Leavers(t.log)|
    {
      var d := t.pending[j].id;
      assert Matches(c, b, t.bots[b].stage, t.pending[i]) && Matches(c, d, t.bots[d].stage, t.pending[j]);
      assert Together(Rank(t.bots[b].stage), Rank(t.bots[d].stage));
      assert HasPending(t.pending, d);
      assert LeaverOk(t.bots[d].stage, HasPending(t.pending, d), d, |Leavers(t.log)|);
    }
    TwoSendersDiffer(t.pending, |Leavers(t.log)|);
  }

  /** A bot that has sent its Leave and hung up is in no table that the commands on their way lead to. */
  lemma GoneIsOut(c: Config, steps: seq<Step>, b: nat)
    requires ValidConfig(c) && Possible(c, steps) && b < c.clients
    requires b < |State(c, steps).bots| && State(c, steps).bots[b].stage.Gone?
    ensures R.StaysOut(State(c, steps).players.Keys, State(c, steps).pending, b)
  {
    hide Possible, State, Inv, Leavers, PendingOk, LeaverOk, R.StaysOut;
    RunKeepsInv(c, steps);
    var t := State(c, steps);
    UnfoldAt(c, t, b);
    if i: nat :| i < |t.pending| && t.pending[i].id == b {
      GoneSendsLeave(c, t, i);
      LeaveTravelsAlone(c, steps, i);
      OneLeaveIsOut(t.players.Keys, t.pending, b);
    } else {
      R.AbsentStaysOut(t.players.Keys, t.pending, b);
    }
  }

  lemma GoneSendsLeave(c: Config, t: Test, i: nat)
    requires ValidConfig(c) && PendingOk(c, t) && i < |t.pending|
    ensures t.pending[i].id < |t.bots| && (t.bots[t.pending[i].id].stage.Gone? ==> t.pending[i].Leave?)
  {
  }

  lemma OneLeaveIsOut(members: set<R.SessionId>, pending: seq<R.Command>, b: R.SessionId)
    requires |pending| == 1 && pending[0].Leave? && pending[0].id == b
    ensures R.StaysOut(members, pending, b)
  {
    assert pending[1..] == [];
  }

  lemma TwoSendersDiffer(pending: seq<R.Command>, x: nat)
    requires forall i, j :: 0 <= i < j < |pending| ==> pending[i].id != pending[j].id
    ensures |pending| > 1 ==> exists j :: 0 <= j < |pending| && pending[j].id != x
  {
    if |pending| > 1 {
      assert pending[0].id != pending[1].id;
    }
  }
}
