/** The management of joined players and its log of join and leave updates. */
module Players {
  import opened Runs

  type UserID = string
  type Team = string
  type ActiveMap = map<UserID, Team>

  datatype Update = Update(user: UserID, team: Team, hasJoined: bool)

  datatype Player = Player(team: Team, user: UserID)

  /** What a reader of the updates makes of them: None when a join or a leave does not fit. */
  function Replay(log: seq<Update>): Option<ActiveMap> {
    if log == [] then Some(map[])
    else
      var u := log[|log| - 1];
      match Replay(log[..|log| - 1])
      case None => None
      case Some(active) =>
        if u.hasJoined then
          if u.user in active then None else Some(active[u.user := u.team])
        else
          if u.user in active && active[u.user] == u.team then Some(active - {u.user}) else None
  }

  class PlayerManagement {
    /** Whether an update channel was passed; updates are what has been sent to it. */
    const hasUpdates: bool
    var active: ActiveMap
    var updates: seq<Update>

    /** The log rebuilds the active players, however many have joined and left. */
    ghost predicate Valid()
      reads this
    {
      if hasUpdates then Replay(updates) == Some(active) else updates == []
    }

    constructor (hasUpdates: bool)
      ensures Valid() && this.hasUpdates == hasUpdates && active == map[] && updates == []
    {
      this.hasUpdates, active, updates := hasUpdates, map[], [];
    }

    method AddPlayer(id: UserID, team: Team) returns (ok: bool)
      requires Valid()
      modifies this
      ensures Valid() && ok == (id !in old(active))
      ensures active == if ok then old(active)[id := team] else old(active)
      ensures updates == old(updates) + if ok && hasUpdates then [Update(id, team, true)] else []
    {
      if id in active {
        return false;
      }
      active := active[id := team];
      Publish(Update(id, team, true));
      return true;
    }

    method RemovePlayer(id: UserID) returns (ok: bool)
      requires Valid()
      modifies this
      ensures Valid() && ok == (id in old(active))
      ensures active == old(active) - {id}
      ensures updates == old(updates) + if ok && hasUpdates then [Update(id, old(active)[id], false)] else []
    {
      if id !in active {
        return false;
      }
      var team := active[id];
      active := active - {id};
      Publish(Update(id, team, false));
      return true;
    }

    method Publish(u: Update)
      modifies this`updates
      ensures updates == old(updates) + if hasUpdates then [u] else []
      ensures hasUpdates ==> updates[..|updates| - 1] == old(updates)
    {
      if hasUpdates {
        updates := updates + [u];
      }
    }

    /** Every player of the team once, in any order. */
    method PlayersInTeam(team: Team) returns (players: seq<Player>)
      ensures multiset(players) == multiset(InTeam(active, team))
    {
      players := [];
      var rest := active.Keys;
      while rest != {}
        invariant rest <= active.Keys
        invariant multiset(players) == multiset(InTeam(Without(active, rest), team))
      {
        var user :| user in rest;
        OneMoreInTeam(active, rest, user, team);
        if active[user] == team {
          players := players + [Player(team, user)];
        }
        rest := rest - {user};
      }
      assert Without(active, {}) == active;
    }

    /** Every active player once, in any order. */
    method ActivePlayers() returns (players: seq<Player>)
      ensures multiset(players) == multiset(All(active))
    {
      players := [];
      var rest := active.Keys;
      while rest != {}
        invariant rest <= active.Keys
        invariant multiset(players) == multiset(All(Without(active, rest)))
      {
        var user :| user in rest;
        OneMore(active, rest, user);
        players := players + [Player(active[user], user)];
        rest := rest - {user};
      }
      assert Without(active, {}) == active;
    }
  }

  function Without(active: ActiveMap, users: set<UserID>): ActiveMap {
    active - users
  }

  function All(active: ActiveMap): set<Player> {
    set user <- active :: Player(active[user], user)
  }

  function InTeam(active: ActiveMap, team: Team): set<Player> {
    set user <- active | active[user] == team :: Player(team, user)
  }

  lemma OneMoreInTeam(active: ActiveMap, rest: set<UserID>, user: UserID, team: Team)
    requires rest <= active.Keys && user in rest
    ensures Player(team, user) !in InTeam(Without(active, rest), team)
    ensures InTeam(Without(active, rest - {user}), team) ==
      InTeam(Without(active, rest), team) + if active[user] == team then {Player(team, user)} else {}
  {
  }

  lemma OneMore(active: ActiveMap, rest: set<UserID>, user: UserID)
    requires rest <= active.Keys && user in rest
    ensures Player(active[user], user) !in All(Without(active, rest))
    ensures All(Without(active, rest - {user})) == All(Without(active, rest)) + {Player(active[user], user)}
  {
    var before, after := Without(active, rest), Without(active, rest - {user});
    forall p ensures p in All(after) <==> p in All(before) + {Player(active[user], user)} {
      assert p in All(after) <==> p.user in after && p.team == after[p.user];
      assert p in All(before) <==> p.user in before && p.team == before[p.user];
    }
  }

  /** The lists of all teams, one after the other. */
  function Union(active: ActiveMap, teams: set<Team>): set<Player> {
    set team <- teams, p <- InTeam(active, team) :: p
  }

  /** The team lists partition the active players: together they are all of them, and no player is in
      two of them. */
  lemma TeamsPartition(active: ActiveMap)
    ensures All(active) == Union(active, active.Values)
    ensures forall a, b :: a != b ==> InTeam(active, a) !! InTeam(active, b)
    ensures |All(active)| == |active|
  {
    forall p | p in All(active) ensures p in Union(active, active.Values) {
      assert p in InTeam(active, p.team);
    }
    AllCount(active);
  }

  lemma {:induction false} AllCount(active: ActiveMap)
    ensures |All(active)| == |active|
    decreases |active|
  {
    if active.Keys == {} {
      assert All(active) == {};
    } else {
      var user :| user in active;
      var less := active - {user};
      AllCount(less);
      OneMore(active, {user}, user);
      assert {user} - {user} == {} && Without(active, {}) == active;
      assert active.Keys == less.Keys + {user};
    }
  }

  /** The updates of one user, in order. */
  function Of(log: seq<Update>, user: UserID): seq<Update> {
    if log == [] then []
    else
      var u := log[|log| - 1];
      Of(log[..|log| - 1], user) + if u.user == user then [u] else []
  }

  /** Joins and leaves alternate from a join, and each leave names the team of its join. */
  predicate Alternates(updates: seq<Update>) {
    && (forall k :: 0 <= k < |updates| ==> updates[k].hasJoined == (k % 2 == 0))
    && (forall k :: 0 < k < |updates| && k % 2 == 1 ==> updates[k].team == updates[k - 1].team)
  }

  predicate IsIn(updates: seq<Update>) {
    |updates| % 2 == 1
  }

  /** A log can be replayed exactly when the updates of every user alternate; then the active players
      are those whose last update is a join, in the team that it names. */
  lemma ReplaysExactlyAlternating(log: seq<Update>)
    ensures Replay(log).Some? <==> AllAlternate(log)
    ensures Replay(log).Some? ==> forall user :: Matches(Replay(log).value, Of(log, user), user)
  {
    if Replay(log).Some? {
      forall user ensures Alternates(Of(log, user)) {
        ReplayedAlternates(log, user);
      }
      forall user ensures Matches(Replay(log).value, Of(log, user), user) {
        ReplayedAlternates(log, user);
      }
    }
    if AllAlternate(log) {
      AlternatingReplays(log);
    }
  }

  ghost predicate AllAlternate(log: seq<Update>) {
    forall user :: Alternates(Of(log, user))
  }

  predicate Matches(active: ActiveMap, updates: seq<Update>, user: UserID) {
    && (user in active <==> IsIn(updates))
    && (user in active ==> active[user] == updates[|updates| - 1].team)
  }

  lemma {:induction false} ReplayedAlternates(log: seq<Update>, user: UserID)
    requires Replay(log).Some?
    ensures Alternates(Of(log, user)) && Matches(Replay(log).value, Of(log, user), user)
  {
    if log != [] {
      ReplayedAlternates(log[..|log| - 1], user);
    }
  }

  lemma {:induction false} AlternatingReplays(log: seq<Update>)
    requires AllAlternate(log)
    ensures Replay(log).Some?
  {
    if log != [] {
      var before, u := log[..|log| - 1], log[|log| - 1];
      forall user ensures Alternates(Of(before, user)) {
        PrefixAlternates(Of(before, user), Of(log, user));
      }
      AlternatingReplays(before);
      ReplayedAlternates(before, u.user);
      var earlier := Of(before, u.user);
      assert Of(log, u.user) == earlier + [u];
      assert Alternates(earlier + [u]);
      assert (earlier + [u])[|earlier|] == u;
      if !u.hasJoined {
        assert (earlier + [u])[|earlier| - 1] == earlier[|earlier| - 1];
      }
    }
  }

  lemma PrefixAlternates(a: seq<Update>, b: seq<Update>)
    requires a <= b && Alternates(b)
    ensures Alternates(a)
  {
    assert forall k :: 0 <= k < |a| ==> a[k] == b[k];
  }
}
