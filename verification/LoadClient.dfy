/**
 The load test: n bots that join, wait for each other at four gates, move, and leave in order of index.
 A bot reads its own view of the Room's event log, in order and at its own pace; commands of different bots may
 overtake each other on their way to the Room. Bots are identified with their session ids. No connection fails.
 */
module LoadClient {
  import opened Common
  import Bytes
  import R = Room

  datatype Config = Config(clients: nat, warmup: nat, measured: nat)

  /** The configurations that the test itself can do with; those that pass validation are among them. */
  predicate ValidConfig(c: Config)
  {
    0 < c.clients <= 0x7FFF_FFFF && 0 < c.measured
  }

  /** The configurations whose coordinates fit 32-bit signed words. */
  predicate InRange(c: Config)
  {
    ValidConfig(c) && c.warmup + c.measured <= 0x7FFF_FFFF
  }

  datatype ConfigError = NoClients | NoPort | NoMeasuredMoves | TooManyClients | TooManyMoves | TooManySamples

  const WORD: nat := 0x1_0000_0000_0000_0000

  /** validate_config, in 64-bit unsigned arithmetic: the subtraction wraps around. */
  function Validate(c: Config, port: nat): Option<ConfigError>
  {
    if c.clients == 0 then Some(NoClients)
    else if port == 0 then Some(NoPort)
    else if c.measured == 0 then Some(NoMeasuredMoves)
    else if c.clients > 0x7FFF_FFFF then Some(TooManyClients)
    else if c.warmup > (0x7FFF_FFFF - c.measured) % WORD then Some(TooManyMoves)
    else if c.clients > (WORD - 1) / c.measured then Some(TooManySamples)
    else None
  }

  /** More measured moves than the coordinate range holds: the subtraction has wrapped to a huge limit. */
  predicate WrapsAround(c: Config)
  {
    && 0x7FFF_FFFF < c.measured < WORD && 0 < c.clients <= 0x7FFF_FFFF
    && c.warmup + c.measured <= WORD + 0x7FFF_FFFF && c.clients * c.measured < WORD
  }

  lemma DivisionLimit(clients: nat, measured: nat)
    requires measured > 0
    ensures clients <= (WORD - 1) / measured <==> clients * measured < WORD
  {
    var q := (WORD - 1) / measured;
    DivBounds(WORD - 1, measured);
    if clients <= q {
      MulLe(clients, q, measured);
    } else {
      MulLe(q + 1, clients, measured);
    }
  }

  /** What validation lets through: the configurations in range, and those whose measured moves wrap the check. */
  lemma ValidationIsExact(c: Config, port: nat)
    requires c.clients < WORD && c.warmup < WORD && c.measured < WORD
    ensures Validate(c, port).None? <==> port != 0 && (InRange(c) || WrapsAround(c))
    ensures Validate(c, port).None? ==> ValidConfig(c)
  {
    if c.measured > 0 {
      DivisionLimit(c.clients, c.measured);
      if c.measured <= 0x7FFF_FFFF && c.clients <= 0x7FFF_FFFF {
        assert (0x7FFF_FFFF - c.measured) % WORD == 0x7FFF_FFFF - c.measured;
        assert c.clients * c.measured <= 0x7FFF_FFFF * 0x7FFF_FFFF by { MulBound(c.clients, c.measured); }
      } else if c.measured > 0x7FFF_FFFF {
        assert (0x7FFF_FFFF - c.measured) % WORD == WORD + 0x7FFF_FFFF - c.measured;
      }
    }
  }

  /** Each refusal names the first thing wrong, in the order of the checks; the coordinate check is the wrapping one. */
  lemma RefusalsAreExact(c: Config, port: nat)
    requires c.clients < WORD && c.warmup < WORD && c.measured < WORD
    ensures var verdict, counted := Validate(c, port), c.clients > 0 && port > 0 && c.measured > 0;
            var limit := if c.measured <= 0x7FFF_FFFF then 0x7FFF_FFFF else WORD + 0x7FFF_FFFF;
            var fits := c.warmup + c.measured <= limit;
            && (verdict == Some(NoClients) <==> c.clients == 0)
            && (verdict == Some(NoPort) <==> c.clients > 0 && port == 0)
            && (verdict == Some(NoMeasuredMoves) <==> c.clients > 0 && port > 0 && c.measured == 0)
            && (verdict == Some(TooManyClients) <==> counted && c.clients > 0x7FFF_FFFF)
            && (verdict == Some(TooManyMoves) <==> counted && c.clients <= 0x7FFF_FFFF && !fits)
            && (verdict == Some(TooManySamples) <==>
                  counted && c.clients <= 0x7FFF_FFFF && fits && c.clients * c.measured >= WORD)
  {
    if c.measured > 0 {
      DivisionLimit(c.clients, c.measured);
      if c.measured <= 0x7FFF_FFFF {
        assert (0x7FFF_FFFF - c.measured) % WORD == 0x7FFF_FFFF - c.measured;
      } else {
        assert (0x7FFF_FFFF - c.measured) % WORD == WORD + 0x7FFF_FFFF - c.measured;
      }
    }
  }

  lemma MulBound(a: nat, b: nat)
    requires a <= 0x7FFF_FFFF && b <= 0x7FFF_FFFF
    ensures a * b <= 0x7FFF_FFFF * 0x7FFF_FFFF
  {
    MulLe(a, 0x7FFF_FFFF, b);
    MulLe(b, 0x7FFF_FFFF, 0x7FFF_FFFF);
  }

  /** One client with 2^31 measured moves passes, though its last coordinate does not fit. */
  lemma CoordinateRangeCanBeExceeded()
    ensures Validate(Config(1, 0, 0x8000_0000), 1).None? && !InRange(Config(1, 0, 0x8000_0000))
  {
  }

  /** Where run_bot is; gates are the stages that only wait for a counter. */
  datatype Stage =
    | Start
    | Entering
    | Ready
    | Warming(done: nat, awaiting: bool)
    | Warmed
    | Barrier(sent: bool)
    | AtBarrier
    | Measuring(done: nat, awaiting: bool)
    | Completed
    | Counting(observed: nat)
    | Gone

  function Rank(s: Stage): nat
  {
    match s
    case Start => 0
    case Entering => 1
    case Ready => 2
    case Warming(_, _) => 3
    case Warmed => 4
    case Barrier(_) => 5
    case AtBarrier => 6
    case Measuring(_, _) => 7
    case Completed => 8
    case Counting(_) => 9
    case Gone => 10
  }

  /** cursor counts the events the bot has read. */
  datatype Bot = Bot(stage: Stage, cursor: nat)

  /** The four counters are RunState's. */
  datatype Test = Test(
    bots: seq<Bot>,
    ready: nat,
    warmed: nat,
    barrier: nat,
    completed: nat,
    pending: seq<R.Command>,
    players: R.Players,
    log: seq<R.Entry>)

  function Initial(c: Config): Test
  {
    Test(seq(c.clients, _ => Bot(Start, 0)), 0, 0, 0, 0, [], map[], [])
  }

  /** What a bot does in one go: its next stage and perhaps a command. */
  datatype Turn = Turn(stage: Stage, command: Option<R.Command>)

  const BARRIER := R.ORIGIN

  /** static_cast<int32_t> of a sequence number. */
  function Coordinate(sequence: nat): Bytes.Int32
  {
    Bytes.FromBits(sequence % 0x1_0000_0000)
  }

  function MoveTo(b: nat, sequence: nat): R.Position
    requires b < 0x7FFF_FFFF
  {
    R.Position(b + 1, Coordinate(sequence))
  }

  ghost predicate StageOk(c: Config, s: Stage)
  {
    match s
    case Warming(done, awaiting) => done <= c.warmup && (awaiting ==> done < c.warmup)
    case Measuring(done, awaiting) => done <= c.measured && (awaiting ==> done < c.measured)
    case _ => true
  }

  predicate CanAct(c: Config, t: Test, b: nat)
    requires b < |t.bots|
  {
    match t.bots[b].stage
    case Start => true
    case Ready => t.ready == c.clients
    case Warming(done, awaiting) => !awaiting && done <= c.warmup
    case Warmed => t.warmed == c.clients
    case Barrier(sent) => b == 0 && !sent
    case AtBarrier => t.barrier == c.clients
    case Measuring(done, awaiting) => !awaiting && done <= c.measured
    case Completed => t.completed == c.clients
    case Counting(observed) => observed >= b
    case _ => false
  }

  function ActTurn(c: Config, t: Test, b: nat): Turn
    requires ValidConfig(c) && b < |t.bots| == c.clients && CanAct(c, t, b)
  {
    match t.bots[b].stage
    case Start => Turn(Entering, Some(R.Join(b)))
    case Ready => Turn(Warming(0, false), None)
    case Warming(done, _) =>
      if done < c.warmup then Turn(Warming(done, true), Some(R.Move(b, MoveTo(b, done + 1)))) else Turn(Warmed, None)
    case Warmed => Turn(Barrier(false), None)
    case Barrier(_) => Turn(Barrier(true), Some(R.Move(b, BARRIER)))
    case AtBarrier => Turn(Measuring(0, false), None)
    case Measuring(done, _) =>
      if done < c.measured
      then Turn(Measuring(done, true), Some(R.Move(b, MoveTo(b, c.warmup + done + 1))))
      else Turn(Completed, None)
    case Completed => Turn(Counting(0), None)
    case Counting(_) => Turn(Gone, Some(R.Leave(b, R.LeftRoom)))
  }

  /** The stages that are awaiting an event. */
  predicate IsReading(b: nat, s: Stage)
  {
    match s
    case Entering => true
    case Warming(_, awaiting) => awaiting
    case Barrier(sent) => b != 0 || sent
    case Measuring(_, awaiting) => awaiting
    case Counting(observed) => observed < b
    case _ => false
  }

  predicate IsMoveTo(e: R.Event, x: int, y: int)
  {
    e.Moved? && e.position.x == x && e.position.y == y
  }

  function ReadTurn(c: Config, b: nat, s: Stage, e: R.Event): Stage
  {
    match s
    case Entering => if e.Joined? then Ready else s
    case Warming(done, true) => if IsMoveTo(e, b + 1, Coordinate(done + 1)) then Warming(done + 1, false) else s
    case Barrier(_) => if IsMoveTo(e, 0, 0) then AtBarrier else s
    case Measuring(done, true) => if IsMoveTo(e, b + 1, Coordinate(c.warmup + done + 1)) then Measuring(done + 1, false) else s
    case Counting(observed) => if e.Left? then Counting(observed + 1) else s
    case _ => s
  }

  function Passed(from: Stage, to: Stage, rank: nat): nat
  {
    if Rank(from) < rank <= Rank(to) then 1 else 0
  }

  function Become(t: Test, b: nat, bot: Bot, command: Option<R.Command>): Test
    requires b < |t.bots|
  {
    var from := t.bots[b].stage;
    t.(bots := t.bots[b := bot],
       pending := t.pending + if command.Some? then [command.value] else [],
       ready := t.ready + Passed(from, bot.stage, 2),
       warmed := t.warmed + Passed(from, bot.stage, 4),
       barrier := t.barrier + Passed(from, bot.stage, 6),
       completed := t.completed + Passed(from, bot.stage, 8))
  }

  /** Process names the command on its way that reaches the Room next. */
  datatype Step = Act(b: nat) | Read(b: nat) | Process(i: nat)

  function ToFront(pending: seq<R.Command>, i: nat): seq<R.Command>
    requires i < |pending|
  {
    [pending[i]] + (pending[..i] + pending[i + 1..])
  }

  function ProcessFirst(t: Test): Test
    requires t.pending != []
  {
    var (players, result) := R.Apply(t.players, t.pending[0]);
    t.(pending := t.pending[1..], players := players,
       log := t.log + if result.Success? then [R.Entry(result.value, players.Keys)] else [])
  }

  predicate Enabled(c: Config, t: Test, step: Step)
  {
    match step
    case Act(b) => b < |t.bots| == c.clients && CanAct(c, t, b)
    case Read(b) =>
      b < |t.bots| == c.clients && c.clients <= 0x7FFF_FFFF && IsReading(b, t.bots[b].stage) &&
      t.bots[b].cursor < |R.Visible(t.log, b)|
    case Process(i) => i < |t.pending|
  }

  function Next(c: Config, t: Test, step: Step): Test
    requires ValidConfig(c) && Enabled(c, t, step)
  {
    match step
    case Act(b) =>
      var turn := ActTurn(c, t, b);
      Become(t, b, t.bots[b].(stage := turn.stage), turn.command)
    case Read(b) =>
      var bot := t.bots[b];
      Become(t, b, Bot(ReadTurn(c, b, bot.stage, R.Visible(t.log, b)[bot.cursor]), bot.cursor + 1), None)
    case Process(i) => ProcessFirst(t.(pending := ToFront(t.pending, i)))
  }
}
