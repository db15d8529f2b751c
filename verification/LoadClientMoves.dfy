/**
 The moves of the load test as a bot reads them. A bot recognises its own move by coordinates alone, and with very many
 moves the 32-bit coordinate repeats; what makes it right is how many of its moves it has read, not the coordinate.
 */
module LoadClientMoves {
  import opened LoadClient
  import R = Room

  /** Numbered moves a bot has sent. */
  function Numbered(c: Config, s: Stage): nat
  {
    match s
    case Warming(done, awaiting) => done + if awaiting then 1 else 0
    case Measuring(done, awaiting) => c.warmup + done + if awaiting then 1 else 0
    case Start => 0
    case Entering => 0
    case Ready => 0
    case Warmed => c.warmup
    case Barrier(_) => c.warmup
    case AtBarrier => c.warmup
    case _ => c.warmup + c.measured
  }

  predicate Awaiting(s: Stage)
  {
    (s.Warming? && s.awaiting) || (s.Measuring? && s.awaiting)
  }

  /** Numbered moves a bot has seen come back. */
  function Returned(c: Config, s: Stage): nat
  {
    Numbered(c, s) - if Awaiting(s) then 1 else 0
  }

  predicate BarrierSent(s: Stage)
  {
    s == Barrier(true) || Rank(s) >= 6
  }

  /** A move with this first coordinate: a bot's index and one, or zero for the barrier move. */
  predicate IsOwn(e: R.Event, x: int)
  {
    e.Moved? && e.position.x == x
  }

  function Own(events: seq<R.Event>, x: int): nat
  {
    if events == [] then 0 else Own(events[..|events| - 1], x) + if IsOwn(events[|events| - 1], x) then 1 else 0
  }

  lemma OwnSnoc(events: seq<R.Event>, e: R.Event, x: int)
    ensures Own(events + [e], x) == Own(events, x) + if IsOwn(e, x) then 1 else 0
  {
    assert (events + [e])[..|events|] == events;
  }

  lemma OwnTake(events: seq<R.Event>, n: nat, x: int)
    requires n < |events|
    ensures Own(events[..n + 1], x) == Own(events[..n], x) + if IsOwn(events[n], x) then 1 else 0
  {
    assert events[..n + 1] == events[..n] + [events[n]];
    OwnSnoc(events[..n], events[n], x);
  }

  lemma {:induction false} OwnPrefix(events: seq<R.Event>, n: nat, x: int)
    requires n <= |events|
    ensures Own(events[..n], x) <= Own(events, x)
  {
    if n < |events| {
      OwnPrefix(events[..|events| - 1], n, x);
      assert events[..|events| - 1][..n] == events[..n];
    } else {
      assert events[..n] == events;
    }
  }

  /** The moves with this first coordinate are numbered in order. */
  ghost predicate Numbers(events: seq<R.Event>, x: int)
  {
    forall i :: 0 <= i < |events| ==> NumberAt(events, i, x)
  }

  ghost predicate NumberAt(events: seq<R.Event>, i: nat, x: int)
    requires i < |events|
  {
    IsOwn(events[i], x) ==> events[i].position.y == Coordinate(Own(events[..i], x) + 1)
  }

  lemma NumbersSnoc(events: seq<R.Event>, e: R.Event, x: int)
    requires Numbers(events, x) && (IsOwn(e, x) ==> e.position.y == Coordinate(Own(events, x) + 1))
    ensures Numbers(events + [e], x)
  {
    var longer := events + [e];
    forall i | 0 <= i < |longer|
      ensures NumberAt(longer, i, x)
    {
      assert longer[..i] == events[..i];
      assert i < |events| ==> NumberAt(events, i, x);
      assert i == |events| ==> longer[..i] == events;
    }
  }

  ghost predicate Barriers(events: seq<R.Event>)
  {
    forall i :: 0 <= i < |events| && IsOwn(events[i], 0) ==> events[i].position.y == 0
  }

  function One(b: bool): nat
  {
    if b then 1 else 0
  }

  /**
   What a bot can see and has read of the moves that concern it. own says that a numbered move of its is on its way,
   sent that the barrier move has been sent and barrier that it is on its way.
   */
  ghost predicate MovesAt(c: Config, b: nat, bot: Bot, visible: seq<R.Event>, own: bool, sent: bool, barrier: bool)
  {
    && Own(visible, b + 1) + One(own) == Numbered(c, bot.stage)
    && Own(visible, 0) + One(barrier) == One(sent)
    && Numbers(visible, b + 1) && Barriers(visible)
    && bot.cursor <= |visible|
    && Own(visible[..bot.cursor], b + 1) == Returned(c, bot.stage)
    && Own(visible[..bot.cursor], 0) == One(Rank(bot.stage) >= 6)
  }

  /** A move that the bot reads is the one it waits for: it takes the bot on, and the move is no longer on its way. */
  lemma ReadMoves(c: Config, b: nat, bot: Bot, visible: seq<R.Event>, own: bool, sent: bool, barrier: bool)
    requires MovesAt(c, b, bot, visible, own, sent, barrier) && bot.cursor < |visible| && IsReading(b, bot.stage)
    requires sent ==> Rank(bot.stage) >= 4
    ensures var s' := ReadTurn(c, b, bot.stage, visible[bot.cursor]);
            && MovesAt(c, b, Bot(s', bot.cursor + 1), visible, own, sent, barrier)
            && (s' != bot.stage && Awaiting(bot.stage) ==> !own)
            && (s' != bot.stage && bot.stage.Barrier? ==> !barrier)
  {
    hide Own, Numbers, Barriers;
    var n, e := bot.cursor, visible[bot.cursor];
    OwnTake(visible, n, b + 1);
    OwnTake(visible, n, 0);
    OwnPrefix(visible, n + 1, b + 1);
    OwnPrefix(visible, n + 1, 0);
    ReadNumber(visible, n, b + 1);
    ReadStage(c, b, bot.stage, e);
  }

  lemma ReadNumber(visible: seq<R.Event>, n: nat, x: int)
    requires Numbers(visible, x) && Barriers(visible) && n < |visible|
    ensures IsOwn(visible[n], x) ==> visible[n].position.y == Coordinate(Own(visible[..n], x) + 1)
    ensures IsOwn(visible[n], 0) ==> visible[n].position.y == 0
  {
    assert NumberAt(visible, n, x);
  }

  /** What reading one event does to a bot's counts. */
  lemma ReadStage(c: Config, b: nat, s: Stage, e: R.Event)
    requires IsReading(b, s)
    ensures var s' := ReadTurn(c, b, s, e);
            && Numbered(c, s') == Numbered(c, s)
            && (Awaiting(s) && IsOwn(e, b + 1) && e.position.y == Coordinate(Returned(c, s) + 1) ==>
                  Returned(c, s') == Returned(c, s) + 1 && (Rank(s') >= 6 <==> Rank(s) >= 6))
            && (s.Barrier? && IsOwn(e, 0) && e.position.y == 0 ==> Returned(c, s') == Returned(c, s) && Rank(s') == 6)
            && (!IsOwn(e, b + 1) && !IsOwn(e, 0) ==>
                  Returned(c, s') == Returned(c, s) && (Rank(s') >= 6 <==> Rank(s) >= 6))
            && (s' != s && Awaiting(s) ==> IsOwn(e, b + 1))
            && (s' != s && s.Barrier? ==> IsOwn(e, 0))
  {
  }
}
