/** Which sessions are connected and which of them are Room members: the broadcast index. */
module SessionRegistry {
  import opened Common
  import opened Room

  /** The registry between two lock releases; gauge is the registered-sessions metric. */
  datatype Registry = Registry(sessions: set<SessionId>, members: set<SessionId>, gauge: int)

  const EMPTY := Registry({}, {}, 0)

  ghost predicate Valid(r: Registry)
  {
    r.members <= r.sessions && r.gauge == |r.sessions|
  }

  function Register(r: Registry, id: SessionId): (r': Registry)
    ensures Valid(r) ==> Valid(r')
  {
    if id in r.sessions then r else r.(sessions := r.sessions + {id}, gauge := r.gauge + 1)
  }

  function Unregister(r: Registry, id: SessionId): (r': Registry)
    ensures Valid(r) ==> Valid(r')
  {
    Registry(r.sessions - {id}, r.members - {id}, if id in r.sessions then r.gauge - 1 else r.gauge)
  }

  /** The sessions that publish finds expired, given who still has a live endpoint. */
  function Expired(r: Registry, event: Event, alive: set<SessionId>): set<SessionId>
  {
    MembersAfter(r.members, event) * r.sessions - alive
  }

  /** publish's locked section: the recipients are the members it leaves behind. */
  function Collect(r: Registry, event: Event, alive: set<SessionId>): (r': Registry)
    ensures r'.members == MembersAfter(r.members, event) * r.sessions * alive
    ensures r'.sessions == r.sessions - Expired(r, event, alive)
    ensures Valid(r) ==> Valid(r')
  {
    var expired := Expired(r, event, alive);
    assert |r.sessions - expired| == |r.sessions| - |expired|;
    Registry(r.sessions - expired, MembersAfter(r.members, event) * r.sessions * alive, r.gauge - |expired|)
  }

  /** The sweep of publish after it has visited some of the members. */
  function Swept(r: Registry, visited: set<SessionId>, alive: set<SessionId>): Registry
  {
    Registry(r.sessions - (visited * r.sessions - alive),
             r.members - (visited - r.sessions * alive),
             r.gauge - |visited * r.sessions - alive|)
  }

  /** Its treatment of one member: unregistered ones leave, expired ones leave and are unregistered. */
  function Visit(r: Registry, member: SessionId, alive: set<SessionId>): Registry
  {
    if member !in r.sessions then r.(members := r.members - {member})
    else if member !in alive then Registry(r.sessions - {member}, r.members - {member}, r.gauge - 1)
    else r
  }

  function Kept(r: Registry, visited: set<SessionId>, alive: set<SessionId>): set<SessionId>
  {
    visited * r.sessions * alive
  }

  lemma SweepOne(r: Registry, visited: set<SessionId>, member: SessionId, alive: set<SessionId>)
    requires member !in visited
    ensures Visit(Swept(r, visited, alive), member, alive) == Swept(r, visited + {member}, alive)
    ensures member in Swept(r, visited, alive).sessions <==> member in r.sessions
  {
    var expired := visited * r.sessions - alive;
    var expired' := (visited + {member}) * r.sessions - alive;
    if member in r.sessions && member !in alive {
      assert expired' == expired + {member};
    } else {
      assert expired' == expired;
    }
  }

  lemma KeepOne(r: Registry, visited: set<SessionId>, member: SessionId, alive: set<SessionId>)
    requires member !in visited
    ensures multiset(Kept(r, visited + {member}, alive)) ==
            if member in r.sessions && member in alive then multiset(Kept(r, visited, alive)) + multiset{member}
            else multiset(Kept(r, visited, alive))
  {
  }

  lemma SweepEnds(r: Registry, alive: set<SessionId>)
    ensures Swept(r, {}, alive) == r && Kept(r, {}, alive) == {}
    ensures Swept(r, r.members, alive).members == Kept(r, r.members, alive)
  {
  }

  lemma SweepAll(r: Registry, event: Event, alive: set<SessionId>)
    ensures var entered := r.(members := MembersAfter(r.members, event));
            Swept(entered, entered.members, alive) == Collect(r, event, alive)
  {
  }

  class SessionRegistry {
    var sessions: set<SessionId>
    var members: set<SessionId>
    var gauge: int

    ghost function View(): Registry
      reads this
    {
      Registry(sessions, members, gauge)
    }

    constructor ()
      ensures View() == EMPTY
    {
      sessions, members, gauge := {}, {}, 0;
    }

    method RegisterSession(id: SessionId) returns (inserted: bool)
      modifies this
      ensures View() == Register(old(View()), id) && inserted == (id !in old(sessions))
    {
      inserted := id !in sessions;
      if inserted {
        sessions := sessions + {id};
        gauge := gauge + 1;
      }
    }

    method UnregisterSession(id: SessionId)
      modifies this
      ensures View() == Unregister(old(View()), id)
    {
      if id in sessions {
        gauge := gauge - 1;
      }
      sessions := sessions - {id};
      members := members - {id};
    }

    /**
     The erase-while-iterating sweep of publish. The set is visited in an unspecified order; members that
     are no longer registered are dropped, those whose endpoint expired are dropped and unregistered.
     */
    method CollectRecipients(event: Event, alive: set<SessionId>) returns (recipients: seq<SessionId>)
      modifies this
      ensures View() == Collect(old(View()), event, alive)
      ensures multiset(recipients) == multiset(members)
    {
      match event {
        case Joined(id, _) => members := members + {id};
        case Left(id, _) => members := members - {id};
        case Moved(_, _) =>
      }
      SweepAll(old(View()), event, alive);
      recipients := Sweep(alive);
    }

    method VisitMember(member: SessionId, alive: set<SessionId>) returns (keep: bool)
      modifies this
      ensures View() == Visit(old(View()), member, alive)
      ensures keep <==> member in old(sessions) && member in alive
    {
      if member !in sessions {
        members := members - {member};
        return false;
      }
      if member !in alive {
        sessions := sessions - {member};
        gauge := gauge - 1;
        members := members - {member};
        return false;
      }
      keep := true;
    }

    method Sweep(alive: set<SessionId>) returns (recipients: seq<SessionId>)
      modifies this
      ensures View() == Swept(old(View()), old(members), alive)
      ensures multiset(recipients) == multiset(members)
    {
      hide Swept, Visit, Kept;
      ghost var start := View();
      SweepEnds(start, alive);
      recipients := [];
      var unvisited := members;
      ghost var visited: set<SessionId> := {};
      while unvisited != {}
        invariant visited + unvisited == start.members && visited !! unvisited
        invariant View() == Swept(start, visited, alive)
        invariant multiset(recipients) == multiset(Kept(start, visited, alive))
        decreases unvisited
      {
        var member :| member in unvisited;
        SweepOne(start, visited, member, alive);
        KeepOne(start, visited, member, alive);
        var keep := VisitMember(member, alive);
        if keep {
          recipients := recipients + [member];
        }
        unvisited := unvisited - {member};
        visited := visited + {member};
      }
      assert visited == start.members;
    }
  }
}
