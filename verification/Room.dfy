/** The Room: the single owner of the player table, its commands and its events. */
module Room {
  import opened Bytes
  import opened Common

  type SessionId = UInt64

  datatype Position = Position(x: Int32, y: Int32)

  const ORIGIN := Position(0, 0)

  datatype Reason = LeftRoom | ClientClosed | ProtocolError | IoError | OutboundOverflow | ServerShutdown

  datatype Command =
    | Join(id: SessionId)
    | Move(id: SessionId, destination: Position)
    | Leave(id: SessionId, reason: Reason)

  datatype Event =
    | Joined(id: SessionId, position: Position)
    | Moved(id: SessionId, position: Position)
    | Left(id: SessionId, reason: Reason)

  datatype CommandError = DuplicateSession | SessionNotFound

  type Players = map<SessionId, Position>

  /** The Room's transition: the next table and the event or the rejection. */
  function Apply(players: Players, command: Command): (r: (Players, Result<Event, CommandError>))
    ensures r.1.Success? <==> Accepts(players.Keys, command)
    ensures r.0.Keys == if r.1.Success? then MembersAfter(players.Keys, r.1.value) else players.Keys
    ensures r.1.Failure? ==> r.0 == players
  {
    match command
    case Join(id) =>
      if id in players then (players, Failure(DuplicateSession))
      else (players[id := ORIGIN], Success(Joined(id, ORIGIN)))
    case Move(id, destination) =>
      if id !in players then (players, Failure(SessionNotFound))
      else (players[id := destination], Success(Moved(id, destination)))
    case Leave(id, reason) =>
      if id !in players then (players, Failure(SessionNotFound))
      else (players - {id}, Success(Left(id, reason)))
  }

  /** A Join is refused as a duplicate, the other commands for a session that is not there. */
  lemma RefusalsAreExact(players: Players, command: Command)
    ensures Apply(players, command).1 == Failure(DuplicateSession) <==> command.Join? && command.id in players
    ensures Apply(players, command).1 == Failure(SessionNotFound) <==> !command.Join? && command.id !in players
  {
  }

  /** Who is in the Room decides whether a command is rejected. */
  predicate Accepts(members: set<SessionId>, command: Command)
  {
    if command.Join? then command.id !in members else command.id in members
  }

  function MembersAfter(members: set<SessionId>, event: Event): set<SessionId>
  {
    match event
    case Joined(id, _) => members + {id}
    case Moved(_, _) => members
    case Left(id, _) => members - {id}
  }

  /** One published event and who is in the Room once it has happened. */
  datatype Entry = Entry(event: Event, after: set<SessionId>)

  datatype History = History(players: Players, log: seq<Entry>, rejected: nat)

  function Advance(h: History, command: Command): History
  {
    var (players, result) := Apply(h.players, command);
    if result.Success? then History(players, h.log + [Entry(result.value, players.Keys)], h.rejected)
    else h.(rejected := h.rejected + 1)
  }

  /** The pure fold: what a sequence of commands does to an empty Room. */
  function Replay(commands: seq<Command>): (h: History)
    ensures h.rejected + |h.log| == |commands|
  {
    if commands == [] then History(map[], [], 0)
    else Advance(Replay(commands[..|commands| - 1]), commands[|commands| - 1])
  }

  lemma ReplayStep(commands: seq<Command>, command: Command)
    ensures Replay(commands + [command]) == Advance(Replay(commands), command)
  {
  }

  /** The event an accepted command gives rise to. */
  function EventFor(command: Command): Event
  {
    match command
    case Join(id) => Joined(id, ORIGIN)
    case Move(id, destination) => Moved(id, destination)
    case Leave(id, reason) => Left(id, reason)
  }

  function Events(log: seq<Entry>): (events: seq<Event>)
    ensures |events| == |log|
  {
    if log == [] then [] else Events(log[..|log| - 1]) + [log[|log| - 1].event]
  }

  function EventsFor(commands: seq<Command>): (events: seq<Event>)
    ensures |events| == |commands|
  {
    if commands == [] then [] else EventsFor(commands[..|commands| - 1]) + [EventFor(commands[|commands| - 1])]
  }

  /** Commands none of which is rejected appear in the log one for one. */
  lemma {:induction false} UnrejectedLogMirrors(commands: seq<Command>)
    requires Replay(commands).rejected == 0
    ensures Events(Replay(commands).log) == EventsFor(commands)
  {
    if commands != [] {
      var init := commands[..|commands| - 1];
      UnrejectedLogMirrors(init);
      var log := Replay(commands).log;
      assert log[..|log| - 1] == Replay(init).log;
    }
  }

  /** Where the log leaves a session: its last Joined or Moved, unless a Left followed. */
  function LastPosition(log: seq<Entry>, id: SessionId): Option<Position>
  {
    if log == [] then None
    else
      var event := log[|log| - 1].event;
      if event.id != id then LastPosition(log[..|log| - 1], id)
      else if event.Left? then None
      else Some(event.position)
  }

  /** The player table is nothing but the log read back: who is in it, and where. */
  lemma {:induction false} TableIsLastPositions(commands: seq<Command>, id: SessionId)
    ensures var h := Replay(commands);
            LastPosition(h.log, id) == if id in h.players then Some(h.players[id]) else None
  {
    if commands != [] {
      var init := commands[..|commands| - 1];
      TableIsLastPositions(init, id);
      hide Advance, Apply, LastPosition;
      AdvanceKeepsTable(Replay(init), commands[|commands| - 1], id);
    }
  }

  lemma AdvanceKeepsTable(h: History, command: Command, id: SessionId)
    requires LastPosition(h.log, id) == if id in h.players then Some(h.players[id]) else None
    ensures var h' := Advance(h, command);
            LastPosition(h'.log, id) == if id in h'.players then Some(h'.players[id]) else None
  {
    var (players, result) := Apply(h.players, command);
    if result.Success? {
      LastPositionSnoc(h.log, Entry(result.value, players.Keys), id);
      hide LastPosition;
    }
  }

  lemma LastPositionSnoc(log: seq<Entry>, entry: Entry, id: SessionId)
    ensures LastPosition(log + [entry], id) ==
            if entry.event.id != id then LastPosition(log, id)
            else if entry.event.Left? then None
            else Some(entry.event.position)
  {
    assert (log + [entry])[..|log|] == log;
  }

  /** Each entry's membership is the previous one's changed by its own event only. */
  ghost predicate Consistent(log: seq<Entry>)
  {
    forall i :: 0 <= i < |log| ==> ConsistentAt(log, i)
  }

  ghost predicate ConsistentAt(log: seq<Entry>, i: nat)
    requires i < |log|
  {
    log[i].after == MembersAfter(MembersBefore(log, i), log[i].event)
  }

  function MembersBefore(log: seq<Entry>, i: nat): set<SessionId>
    requires i <= |log|
  {
    if i == 0 then {} else log[i - 1].after
  }

  lemma {:induction false} ReplayIsConsistent(commands: seq<Command>)
    ensures var h := Replay(commands);
            Consistent(h.log) && h.players.Keys == MembersBefore(h.log, |h.log|)
  {
    if commands != [] {
      var init := commands[..|commands| - 1];
      ReplayIsConsistent(init);
      var h, h' := Replay(init), Replay(commands);
      if h' != h.(rejected := h'.rejected) {
        ConsistentStep(h.log, h'.log[|h.log|]);
      }
    }
  }

  lemma ConsistentStep(log: seq<Entry>, entry: Entry)
    requires Consistent(log) && entry.after == MembersAfter(MembersBefore(log, |log|), entry.event)
    ensures Consistent(log + [entry])
  {
    var longer := log + [entry];
    forall i | 0 <= i < |longer|
      ensures ConsistentAt(longer, i)
    {
      assert i < |log| ==> ConsistentAt(log, i);
      assert MembersBefore(longer, i) == MembersBefore(log, i);
    }
  }

  /** The events a session is meant to see: those after which it is a player. */
  function Visible(log: seq<Entry>, id: SessionId): seq<Event>
  {
    if log == [] then []
    else
      var last := log[|log| - 1];
      Visible(log[..|log| - 1], id) + if id in last.after then [last.event] else []
  }

  lemma VisibleStep(log: seq<Entry>, entry: Entry, id: SessionId)
    ensures Visible(log + [entry], id) == Visible(log, id) + if id in entry.after then [entry.event] else []
  {
  }

  /** One deliver call for every player after each event. */
  function Deliveries(log: seq<Entry>): nat
  {
    if log == [] then 0 else Deliveries(log[..|log| - 1]) + |log[|log| - 1].after|
  }

  predicate OwnJoin(event: Event, id: SessionId)
  {
    event.Joined? && event.id == id
  }

  predicate OwnLeave(event: Event, id: SessionId)
  {
    event.Left? && event.id == id
  }

  /** The session's Joined is at j and no Left of it follows up to i. */
  ghost predicate StayedSince(log: seq<Entry>, j: nat, i: nat, id: SessionId)
  {
    j <= i < |log| && OwnJoin(log[j].event, id) && forall k :: j < k <= i ==> !OwnLeave(log[k].event, id)
  }

  /** An entry is visible to a session exactly from its Joined on, until its Left. */
  lemma {:induction false} VisibleBetweenJoinAndLeave(log: seq<Entry>, i: nat, id: SessionId)
    requires Consistent(log) && i < |log|
    ensures id in log[i].after <==> exists j :: StayedSince(log, j, i, id)
    decreases i
  {
    var event := log[i].event;
    assert ConsistentAt(log, i);
    if OwnJoin(event, id) {
      assert StayedSince(log, i, i, id);
    } else {
      if i > 0 {
        VisibleBetweenJoinAndLeave(log, i - 1, id);
      }
      if id in log[i].after {
        var j :| StayedSince(log, j, i - 1, id);
        assert StayedSince(log, j, i, id);
      }
      forall j | StayedSince(log, j, i, id)
        ensures id in log[i].after
      {
        assert j != i && StayedSince(log, j, i - 1, id);
      }
    }
  }

  /** The first event a session sees is its own Joined. */
  lemma {:induction false} FirstVisibleIsOwnJoin(log: seq<Entry>, id: SessionId)
    requires Consistent(log) && Visible(log, id) != []
    ensures Visible(log, id)[0].Joined? && Visible(log, id)[0].id == id
  {
    var init := log[..|log| - 1];
    ConsistentPrefix(log, |log| - 1);
    if Visible(init, id) != [] {
      FirstVisibleIsOwnJoin(init, id);
    } else {
      NothingVisibleMeansAbsent(init, id);
      assert ConsistentAt(log, |log| - 1);
      assert MembersBefore(log, |log| - 1) == MembersBefore(init, |init|);
    }
  }

  lemma ConsistentPrefix(log: seq<Entry>, n: nat)
    requires Consistent(log) && n <= |log|
    ensures Consistent(log[..n])
  {
    var part := log[..n];
    forall i | 0 <= i < |part|
      ensures ConsistentAt(part, i)
    {
      assert ConsistentAt(log, i);
      assert part[i] == log[i] && MembersBefore(part, i) == MembersBefore(log, i);
    }
  }

  lemma NothingVisibleMeansAbsent(log: seq<Entry>, id: SessionId)
    requires Visible(log, id) == []
    ensures id !in MembersBefore(log, |log|)
  {
  }

  // The running of several accepted commands, on membership alone.

  predicate AllAccepted(members: set<SessionId>, commands: seq<Command>)
    decreases |commands|
  {
    commands == [] ||
    (Accepts(members, commands[0]) && AllAccepted(After(members, commands[0]), commands[1..]))
  }

  function After(members: set<SessionId>, command: Command): set<SessionId>
  {
    match command
    case Join(id) => members + {id}
    case Move(_, _) => members
    case Leave(id, _) => members - {id}
  }

  function AfterAll(members: set<SessionId>, commands: seq<Command>): set<SessionId>
    decreases |commands|
  {
    if commands == [] then members else AfterAll(After(members, commands[0]), commands[1..])
  }

  lemma {:induction false} AcceptedAppend(members: set<SessionId>, commands: seq<Command>, command: Command)
    ensures AfterAll(members, commands + [command]) == After(AfterAll(members, commands), command)
    ensures AllAccepted(members, commands + [command])
       <==> AllAccepted(members, commands) && Accepts(AfterAll(members, commands), command)
    decreases |commands|
  {
    var all := commands + [command];
    if commands == [] {
      assert all[1..] == [];
    } else {
      assert all[1..] == commands[1..] + [command];
      AcceptedAppend(After(members, commands[0]), commands[1..], command);
    }
  }

  /** The session is in none of the tables that the outstanding commands lead to, nor in the last of them. */
  predicate StaysOut(members: set<SessionId>, commands: seq<Command>, id: SessionId)
    decreases |commands|
  {
    if commands == [] then id !in members
    else
      var next := After(members, commands[0]);
      id !in next && StaysOut(next, commands[1..], id)
  }

  lemma {:induction false} StaysOutAppend(members: set<SessionId>, commands: seq<Command>, command: Command,
                                          id: SessionId)
    requires StaysOut(members, commands, id) && command != Join(id)
    ensures StaysOut(members, commands + [command], id)
    decreases |commands|
  {
    var all := commands + [command];
    if commands == [] {
      assert all[1..] == [];
    } else {
      assert all[1..] == commands[1..] + [command];
      StaysOutAppend(After(members, commands[0]), commands[1..], command, id);
    }
  }

  /** A session that is no player and has no Join on its way stays out. */
  lemma {:induction false} AbsentStaysOut(members: set<SessionId>, commands: seq<Command>, id: SessionId)
    requires id !in members && Join(id) !in commands
    ensures StaysOut(members, commands, id)
    decreases |commands|
  {
    if commands != [] {
      assert commands[0] in commands;
      AbsentStaysOut(After(members, commands[0]), commands[1..], id);
    }
  }

  datatype PlayerSnapshot = PlayerSnapshot(id: SessionId, position: Position)

  ghost predicate Lists(list: seq<PlayerSnapshot>, id: SessionId)
  {
    exists i :: 0 <= i < |list| && list[i].id == id
  }

  ghost predicate Ascending(list: seq<PlayerSnapshot>)
  {
    forall i, j :: 0 <= i < j < |list| ==> list[i].id < list[j].id
  }

  /** The stable snapshot: every player once, by ascending id. */
  ghost predicate IsSnapshot(players: Players, list: seq<PlayerSnapshot>)
  {
    && Ascending(list)
    && (forall i :: 0 <= i < |list| ==> list[i].id in players && players[list[i].id] == list[i].position)
    && (forall id :: id in players ==> Lists(list, id))
  }

  /** The snapshot of those that are not left, all of them below those that are. */
  ghost predicate Partial(players: Players, list: seq<PlayerSnapshot>, left: set<SessionId>)
  {
    && Ascending(list) && Below(list, left)
    && (forall i :: 0 <= i < |list| ==> list[i].id in players && players[list[i].id] == list[i].position)
    && (forall id :: id in players && id !in left ==> Lists(list, id))
  }

  ghost predicate Below(list: seq<PlayerSnapshot>, left: set<SessionId>)
  {
    forall i, id :: 0 <= i < |list| && id in left ==> list[i].id < id
  }

  lemma TakeSmallest(players: Players, list: seq<PlayerSnapshot>, left: set<SessionId>, id: SessionId)
    requires Partial(players, list, left) && id in left && id in players && forall d :: d in left ==> id <= d
    ensures Partial(players, list + [PlayerSnapshot(id, players[id])], left - {id})
  {
    hide Lists;
    var player := PlayerSnapshot(id, players[id]);
    AscendingSnoc(list, left, player);
    forall d | d in players && d !in left - {id}
      ensures Lists(list + [player], d)
    {
      ListsSnoc(list, player, d);
    }
    hide Ascending, Below;
  }

  lemma AscendingSnoc(list: seq<PlayerSnapshot>, left: set<SessionId>, player: PlayerSnapshot)
    requires Ascending(list) && Below(list, left) && player.id in left && forall d :: d in left ==> player.id <= d
    ensures Ascending(list + [player]) && Below(list + [player], left - {player.id})
  {
    var longer := list + [player];
    assert forall i :: 0 <= i < |list| ==> longer[i] == list[i] && list[i].id < player.id;
  }

  lemma ListsSnoc(list: seq<PlayerSnapshot>, player: PlayerSnapshot, d: SessionId)
    ensures Lists(list, d) || d == player.id ==> Lists(list + [player], d)
  {
    var longer := list + [player];
    assert longer[|list|] == player;
    if Lists(list, d) {
      var i :| 0 <= i < |list| && list[i].id == d;
      assert longer[i].id == d;
    }
  }

  class Room {
    var players: Players

    constructor ()
      ensures players == map[]
    {
      players := map[];
    }

    method ApplyCommand(command: Command) returns (r: Result<Event, CommandError>)
      modifies this
      ensures (players, r) == Apply(old(players), command)
    {
      match command
      case Join(id) => r := ApplyJoin(id);
      case Move(id, destination) => r := ApplyMove(id, destination);
      case Leave(id, reason) => r := ApplyLeave(id, reason);
    }

    method ApplyJoin(id: SessionId) returns (r: Result<Event, CommandError>)
      modifies this
      ensures (players, r) == Apply(old(players), Join(id))
    {
      var inserted := id !in players;
      if inserted {
        players := players[id := ORIGIN];
      }
      if !inserted {
        return Failure(DuplicateSession);
      }
      r := Success(Joined(id, ORIGIN));
    }

    method ApplyMove(id: SessionId, destination: Position) returns (r: Result<Event, CommandError>)
      modifies this
      ensures (players, r) == Apply(old(players), Move(id, destination))
    {
      if id !in players {
        return Failure(SessionNotFound);
      }
      players := players[id := destination];
      r := Success(Moved(id, destination));
    }

    method ApplyLeave(id: SessionId, reason: Reason) returns (r: Result<Event, CommandError>)
      modifies this
      ensures (players, r) == Apply(old(players), Leave(id, reason))
    {
      var erased := id in players;
      players := players - {id};
      if !erased {
        assert players == old(players);
        return Failure(SessionNotFound);
      }
      r := Success(Left(id, reason));
    }

    /** Fills the list and orders it by id: here by taking the smallest id that is left. */
    method Snapshot() returns (list: seq<PlayerSnapshot>)
      ensures IsSnapshot(players, list)
    {
      list := [];
      var left := players.Keys;
      while left != {}
        invariant left <= players.Keys && Partial(players, list, left)
        decreases left
      {
        var id := Smallest(left);
        TakeSmallest(players, list, left, id);
        hide Partial;
        list := list + [PlayerSnapshot(id, players[id])];
        left := left - {id};
      }
    }

    static method Smallest(ids: set<SessionId>) returns (least: SessionId)
      requires ids != {}
      ensures least in ids && forall id :: id in ids ==> least <= id
    {
      least :| least in ids;
      var left := ids - {least};
      while left != {}
        invariant left <= ids && least in ids
        invariant forall id :: id in ids && id !in left ==> least <= id
        decreases left
      {
        var id :| id in left;
        left := left - {id};
        if id < least {
          least := id;
        }
      }
    }
  }
}
