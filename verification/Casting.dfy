/** Casting: collecting requests, asking the jury until its assignments are acceptable, and hiring
    all winners or none. */
module Casting {
  import opened Runs
  import opened Contracts
  import opened Acting
  import opened CastingRules
  import opened HiredState

  /** Besides those that had a pending watcher at first, only actors that earlier rounds tried to hire are exposed, and
      none if their watchers have run. */
  predicate ExposedBy(requests: seq<ActorRequest>, rounds: seq<Round>, n: nat, pending: set<NetActor>,
      exposed: set<NetActor>) {
    && n <= |rounds|
    && pending <= exposed <= pending + AttemptedBefore(requests, rounds, n)
    && (n < |rounds| && rounds[n].isSettled ==> exposed == pending)
  }

  /** What the casting begins with: the actors as they are, those hired, those with a pending watcher,
      and those online. */
  datatype Start = Start(
    was: map<NetActor, ActorState>,
    before: set<NetActor>,
    pending: set<NetActor>,
    online: set<NetActor>)

  ghost predicate Begins(actors: set<NetActor>, first: Start)
    reads actors
  {
    && first.was == Snapshot(actors) && AllTold(actors, first.was) && first.before + first.online <= actors
    && Rests(actors, first.before, first.pending, first.online)
  }

  /** The actors that the first n rounds may have touched. */
  function Touched(requests: seq<ActorRequest>, rounds: seq<Round>, n: nat, first: Start): set<NetActor>
    requires n <= |rounds|
  {
    first.pending + (AttemptedBefore(requests, rounds, n) - first.before)
  }

  /** The rounds that have begun when the loop is left. */
  function Begun(rounds: seq<Round>, n: nat): nat
    requires n <= |rounds|
  {
    if n < |rounds| then n + 1 else n
  }

  class Casting {
    var state: CastingState
    var requests: seq<ActorRequest>
    var winners: Winners

    constructor ()
      ensures state == Ready && requests == [] && winners == map[]
    {
      state, requests, winners := Ready, [], map[];
    }

    /** A request is refused once casting has begun, and for a key that is already requested, a
        maximum of 0, or a minimum above the maximum; otherwise it is appended. */
    method AddRequest(request: ActorRequest) returns (ok: bool)
      requires ValidRequests(requests)
      modifies this`requests
      ensures ok == (state == Ready && ValidRequests(old(requests) + [request]))
      ensures requests == if ok then old(requests) + [request] else old(requests)
    {
      if state != Ready {
        return false;
      }
      ghost var attempted := requests + [request];
      for i := 0 to |requests|
        invariant forall j :: 0 <= j < i ==> requests[j].key != request.key
      {
        if requests[i].key == request.key {
          assert attempted[i] == requests[i] && attempted[|requests|] == request;
          return false;
        }
      }
      assert request in attempted;
      if request.max.Some? && request.max.value < 1 {
        return false;
      }
      if request.min.Some? && request.max.Some? && request.min.value > request.max.value {
        return false;
      }
      assert forall r <- attempted :: r in requests || r == request;
      requests := requests + [request];
      return true;
    }

    method SetWinners(directory: map<ActorID, NetActor>, assignments: seq<RoleAssignment>) returns (ok: bool)
      modifies this`winners
      ensures ok <==> Known(assignments, directory)
      ensures ok ==> winners == Collected(requests, assignments, directory)
    {
      winners := EmptyLists(requests);
      for n := 0 to |assignments|
        invariant Known(assignments[..n], directory)
        invariant winners == Collected(requests, assignments[..n], directory)
      {
        var a := assignments[n];
        if a.actorID !in directory {
          assert a in assignments;
          return false;
        }
        assert assignments[..n + 1][..n] == assignments[..n];
        winners := winners[a.key := (if a.key in winners then winners[a.key] else []) + [directory[a.actorID]]];
      }
      assert assignments[..|assignments|] == assignments;
      return true;
    }

    method AssureWinnersSatisfyRequests() returns (ok: bool)
      requires forall r <- requests :: r.key in winners
      ensures ok <==> forall r <- requests :: CountPasses(|winners[r.key]|, r)
    {
      for i := 0 to |requests|
        invariant forall r <- requests[..i] :: CountPasses(|winners[r.key]|, r)
      {
        var count := (|winners[requests[i].key]| % UINT32_MODULUS) as uint32;
        if requests[i].min.Some? && count < requests[i].min.value {
          return false;
        }
        if requests[i].max.Some? && count > requests[i].max.value {
          return false;
        }
      }
      return true;
    }

    /** All or nothing, in whatever order the map is visited and whatever connections are lost on
        the way: either every listed actor is hired, each by exactly one listing, all were online and
        none hired before, and is told so once; or the actors hired before are hired, and there is a
        reason. Nobody else is touched. All of this but for the exposed actors; after a rollback the
        fired ones are exposed. */
    method HireWinners(actors: set<NetActor>, lost: set<NetActor>, ghost s: Scene) returns (ok: bool)
      requires Stands(actors, s, {}) && lost == s.lost && ActorsOf(winners) <= actors
      modifies actors
      ensures ok ==>
        && DistinctBut(winners, s.exposed)
        && ActorsOf(winners) - s.exposed !! s.before && ActorsOf(winners) <= s.online
        && Stands(actors, s, ActorsOf(winners))
      ensures !ok ==>
        && Unhirable(winners, s.before, s.online - s.lost)
        && Stands(actors, s.(exposed := s.exposed + (ActorsOf(winners) - s.before)), {})
    {
      var hired: seq<NetActor> := [];
      var keys := winners.Keys;
      ghost var part: Winners := map[];
      assert ActorsOf(part) == {};
      while keys != {}
        invariant keys <= winners.Keys
        invariant part == map key | key in winners.Keys - keys :: winners[key]
        invariant HiringSoFar(actors, hired, part, s)
      {
        var key :| key in keys;
        ok, hired := HireListed(key, hired, actors, lost, part, s);
        if !ok {
          return;
        }
        part := part[key := winners[key]];
        keys := keys - {key};
      }
      assert part == winners;
      return true;
    }

    /** The list of one key. */
    method HireListed(key: RequestKey, already: seq<NetActor>, actors: set<NetActor>, lost: set<NetActor>,
        ghost done: Winners, ghost s: Scene)
      returns (ok: bool, hired: seq<NetActor>)
      requires key in winners && done.Keys <= winners.Keys - {key} && forall k <- done :: done[k] == winners[k]
      requires HiringSoFar(actors, already, done, s) && lost == s.lost
      modifies actors
      ensures ok ==> HiringSoFar(actors, hired, done[key := winners[key]], s)
      ensures !ok ==>
        && Unhirable(winners, s.before, s.online - s.lost)
        && Stands(actors, s.(exposed := s.exposed + (ActorsOf(winners) - s.before)), {})
    {
      hired := already;
      PartGrows(done, key, s.exposed);
      assert winners[key][..0] == [] && winners[key][..|winners[key]|] == winners[key];
      for i := 0 to |winners[key]|
        invariant HiringSoFar(actors, hired, UpTo(done, key, i), s)
      {
        ok, hired := HireOrFire(key, i, hired, actors, lost, done, s);
        if !ok {
          return;
        }
      }
      ok := true;
    }

    /** The lists done, and the list of this key up to i. */
    ghost function UpTo(done: Winners, key: RequestKey, i: nat): Winners
      requires key in winners && i <= |winners[key]|
      reads this`winners
    {
      done[key := winners[key][..i]]
    }

    /** One listing: the actor is hired, or everybody hired so far is fired. */
    method HireOrFire(key: RequestKey, i: nat, already: seq<NetActor>, actors: set<NetActor>, lost: set<NetActor>,
        ghost done: Winners, ghost s: Scene)
      returns (ok: bool, hired: seq<NetActor>)
      requires key in winners && i < |winners[key]|
      requires done.Keys <= winners.Keys - {key} && forall k <- done :: done[k] == winners[k]
      requires HiringSoFar(actors, already, UpTo(done, key, i), s) && lost == s.lost
      modifies actors
      ensures ok ==> HiringSoFar(actors, hired, UpTo(done, key, i + 1), s)
      ensures !ok ==>
        && Unhirable(winners, s.before, s.online - s.lost)
        && Stands(actors, s.(exposed := s.exposed + (ActorsOf(winners) - s.before)), {})
    {
      var actor := winners[key][i];
      ghost var part := UpTo(done, key, i);
      assert actor in ActorsOf(winners);
      hired := already;
      ok := HireNext(actor, actors, lost, s, ActorsOf(part));
      if ok {
        hired := hired + [actor];
        HiredOneMore(key, i, already, actors, done, s);
      } else {
        WhyRefused(winners, part, key, i, s.before, s.online - s.lost);
        RollBack(hired, actors, s, ActorsOf(part));
        StandsMore(actors, s.(exposed := s.exposed + (ActorsOf(part) - s.before)),
                   s.exposed + (ActorsOf(winners) - s.before));
      }
    }

    lemma HiredOneMore(key: RequestKey, i: nat, hired: seq<NetActor>, actors: set<NetActor>, done: Winners, s: Scene)
      requires key in winners && i < |winners[key]|
      requires var part, actor := UpTo(done, key, i), winners[key][i];
        && DistinctBut(part, s.exposed)
        && (set a <- hired) == ActorsOf(part)
        && ActorsOf(part) <= ActorsOf(winners) <= actors
        && ActorsOf(part) - s.exposed !! s.before && ActorsOf(part) <= s.online
        && Stands(actors, s, ActorsOf(part) + {actor})
        && (forall a <- hired + [actor] :: a.subscriptions.Some?)
        && (actor in s.before + ActorsOf(part) ==> actor in s.exposed) && actor in s.online
      ensures HiringSoFar(actors, hired + [winners[key][i]], UpTo(done, key, i + 1), s)
    {
      var part, actor := UpTo(done, key, i), winners[key][i];
      assert actor in ActorsOf(winners);
      DistinctExtends(part, key, actor, s.exposed);
      assert winners[key][..i + 1] == winners[key][..i] + [actor];
      assert UpTo(done, key, i + 1) == part[key := part[key] + [actor]];
    }

    /** The actors hired so far are those of the lists visited so far. */
    ghost predicate HiringSoFar(actors: set<NetActor>, hired: seq<NetActor>, part: Winners, s: Scene)
      reads this`winners, actors
    {
      && DistinctBut(part, s.exposed)
      && (set a <- hired) == ActorsOf(part)
      && ActorsOf(part) <= ActorsOf(winners) <= actors
      && ActorsOf(part) - s.exposed !! s.before && ActorsOf(part) <= s.online
      && Stands(actors, s, ActorsOf(part))
      && forall a <- hired :: a.subscriptions.Some?
    }

    /** One reply of the jury: collect, count, hire. It is refused only on one of the grounds. */
    method TryAssignments(round: Round, actors: set<NetActor>, ghost s: Scene) returns (ok: bool)
      requires Stands(actors, s, {}) && s.lost == round.lost
      requires round.requestSent && round.reply.Assignments? && round.directory.Values <= actors
      modifies this`winners, actors
      ensures ok ==>
        && Cast(round)
        && DistinctBut(winners, s.exposed)
        && ActorsOf(winners) <= Attempted(requests, round) * s.online * actors
        && ActorsOf(winners) - s.exposed !! s.before
        && Stands(actors, s, ActorsOf(winners))
      ensures !ok ==>
        && Refusable(requests, round, s.before, s.online - s.lost)
        && Stands(actors, s.(exposed := s.exposed + (Attempted(requests, round) - s.before)), {})
    {
      var assignments := round.reply.assignments;
      ok := SetWinners(round.directory, assignments);
      if ok {
        CollectedLists(requests, assignments, round.directory);
        AttemptedIfCountsPass(requests, round);
        ok := AssureWinnersSatisfyRequests();
        WinnersAreAssigned(winners, round);
        if ok {
          CountsFit(requests, winners, round.directory, assignments);
          ok := HireWinners(actors, round.lost, s);
          if !ok {
            StandsMore(actors, s.(exposed := s.exposed + (ActorsOf(winners) - s.before)),
                       s.exposed + (Attempted(requests, round) - s.before));
          }
          return;
        }
      }
      StandsMore(actors, s, s.exposed + (Attempted(requests, round) - s.before));
    }

    /** Asks the jury until an assignment can be accepted and everybody assigned can be hired.
        When the rounds are used up, the context is cancelled while the jury is awaited. The loop is
        left at round n.

        Nobody else hires or fires, but pending watchers may call fire at any time. `exposed` are the
        actors that had one at the beginning or when the last round began; the latter were assigned in an
        earlier round that got as far as hiring. For all others: nil means that they are hired exactly as
        assigned, and an error that they are hired as before. Exactly the connections are lost that the
        rounds take, and every actor is told of its hirings and firings in turn, and of nothing else. */
    method PerformAndHire(actors: set<NetActor>, rounds: seq<Round>, ghost first: Start)
      returns (err: Option<PerformError>, ghost n: nat, ghost exposed: set<NetActor>)
      requires AllValid(actors) && KnownActors(rounds) <= actors
      requires first == Start(Snapshot(actors), HiredIn(actors), Pending(actors), Online(actors))
      modifies this`state, this`winners, actors
      ensures old(state) != Ready ==> err == Some(NotAllowed) && state == old(state) && winners == old(winners)
      ensures old(state) != Ready ==> Snapshot(actors) == first.was
      ensures old(state) == Ready ==> state == if err.None? then Done else Performing
      ensures old(state) == Ready ==> Performed(actors, rounds, first, n, err, exposed)
    {
      n, exposed := 0, first.pending;
      if state != Ready {
        return Some(NotAllowed), n, exposed;
      }
      RestsFirst(actors);
      forall a | a in actors ensures ToldInTurn(a.State(), a.State()) {
        ToldNothing(a.State(), a.State());
      }
      n, err, exposed := Perform(actors, rounds, first);
    }

    /** What is done once the state allows it. */
    method Perform(actors: set<NetActor>, rounds: seq<Round>, ghost first: Start)
      returns (ghost n: nat, err: Option<PerformError>, ghost exposed: set<NetActor>)
      requires KnownActors(rounds) <= actors && Begins(actors, first)
      modifies this`state, this`winners, actors
      ensures state == if err.None? then Done else Performing
      ensures Performed(actors, rounds, first, n, err, exposed)
    {
      state := Performing;
      n, err, exposed := PerformRounds(actors, rounds, first);
      if err.None? {
        Finish(actors, rounds, first, n, exposed);
      }
    }

    method Finish(ghost actors: set<NetActor>, ghost rounds: seq<Round>, ghost first: Start, ghost n: nat,
        ghost exposed: set<NetActor>)
      requires Performed(actors, rounds, first, n, None, exposed)
      modifies this`state
      ensures state == Done && Performed(actors, rounds, first, n, None, exposed)
    {
      state := Done;
    }

    /** The loop has been left at round n with this result. */
    ghost predicate Performed(actors: set<NetActor>, rounds: seq<Round>, first: Start, n: nat,
        err: Option<PerformError>, exposed: set<NetActor>)
      reads this`requests, this`winners, actors
    {
      && AllValid(actors)
      && EndsAt(rounds, n, err, first.before, first.online) && ExposedBy(requests, rounds, n, first.pending, exposed)
      && Online(actors) == OnlineAfter(rounds, Begun(rounds, n), first.online)
      && OnlyTouched(actors, first.was, Touched(requests, rounds, Begun(rounds, n), first))
      && AllTold(actors, first.was)
      && (err.None? ==> HiresWinners(actors, first.before, exposed, Online(actors)))
      && (err.None? ==> OnceHired(ActorsOf(winners) - Touched(requests, rounds, n, first), first.was))
      && (err.None? && exposed == {} ==> HiresWinnersExactly(actors, first.before))
      && (err.Some? ==> first.before - first.pending <= HiredIn(actors) <= first.before)
    }

    /** The loop. */
    method PerformRounds(actors: set<NetActor>, rounds: seq<Round>, ghost first: Start)
      returns (ghost n: nat, err: Option<PerformError>, ghost exposed: set<NetActor>)
      requires KnownActors(rounds) <= actors && Begins(actors, first)
      modifies this`winners, actors
      ensures Performed(actors, rounds, first, n, err, exposed)
    {
      exposed := first.pending;
      for i := 0 to |rounds|
        invariant RoundBegins(actors, rounds, i, first, exposed)
      {
        var leave;
        n := i;
        leave, err, exposed := NextRound(actors, rounds, i, first, exposed);
        if leave {
          return;
        }
      }
      n, err := |rounds|, Some(ContextAborted);
      RoundsUsedUp(actors, rounds, first, exposed);
    }

    lemma RoundsUsedUp(actors: set<NetActor>, rounds: seq<Round>, first: Start, exposed: set<NetActor>)
      requires RoundBegins(actors, rounds, |rounds|, first, exposed) && first.before + first.online <= actors
      ensures Performed(actors, rounds, first, |rounds|, Some(ContextAborted), exposed)
    {
      HiredOutside(actors, first.before, first.pending, exposed, OnlineAfter(rounds, |rounds|, first.online));
      OnlineShrinks(rounds, |rounds|, first.online);
      RestsOnline(actors, first.before, exposed, OnlineAfter(rounds, |rounds|, first.online));
    }

    ghost predicate RoundBegins(actors: set<NetActor>, rounds: seq<Round>, n: nat, first: Start, exposed: set<NetActor>)
      reads this`requests, actors
    {
      && Refused(requests, rounds, n, first.before, first.online)
      && first.pending <= exposed <= Touched(requests, rounds, n, first)
      && OnlyTouched(actors, first.was, Touched(requests, rounds, n, first))
      && AllTold(actors, first.was)
      && Rests(actors, first.before, exposed, OnlineAfter(rounds, n, first.online))
    }

    /** One turn of the loop, from the actors that are really exposed to those that are afterwards. */
    method NextRound(actors: set<NetActor>, rounds: seq<Round>, n: nat, ghost first: Start,
        ghost wereExposed: set<NetActor>)
      returns (leave: bool, err: Option<PerformError>, ghost exposed: set<NetActor>)
      requires n < |rounds| && KnownActors(rounds) <= actors && first.before + first.online <= actors
      requires RoundBegins(actors, rounds, n, first, wereExposed)
      modifies this`winners, actors
      ensures leave ==> Performed(actors, rounds, first, n, err, exposed)
      ensures !leave ==> RoundBegins(actors, rounds, n + 1, first, exposed)
    {
      ghost var online := OnlineAfter(rounds, n, first.online);
      if rounds[n].isSettled {
        Settle(actors, first.before, first.pending, wereExposed, online);
        exposed := first.pending;
      } else {
        forall a | a in actors ensures ToldInTurn(a.State(), a.State()) {
          ToldNothing(a.State(), a.State());
        }
        exposed := RestsTight(actors, first.before, first.pending, wereExposed, online);
      }
      ghost var now := Snapshot(actors);
      forall a | a in actors ensures a in first.was && a in now && ToldInTurn(first.was[a], now[a]) {
        ToldFurther(first.was[a], old(a.State()), a.State());
      }
      assert forall a <- actors - Touched(requests, rounds, n, first) :: Same(first.was[a], now[a]);
      ghost var s := Scene(now, first.before, exposed, online, rounds[n].lost);
      leave, err := PerformRound(rounds, n, actors, s, first.online);
      ToldLater(actors, first.was, now);
      TrackRound(actors, rounds, n, first, now, exposed, leave && err.None?);
      RoundEnds(actors, rounds, n, leave, err, first, exposed);
      if !leave {
        exposed := exposed + (Attempted(requests, rounds[n]) - first.before);
      }
    }

    lemma TrackRound(actors: set<NetActor>, rounds: seq<Round>, n: nat, first: Start, now: map<NetActor, ActorState>,
        exposed: set<NetActor>, hires: bool)
      requires n < |rounds| && exposed <= Touched(requests, rounds, n, first)
      requires forall a <- actors - Touched(requests, rounds, n, first) ::
        a in first.was && a in now && Same(first.was[a], now[a])
      requires OnlyTouched(actors, now, exposed + (Attempted(requests, rounds[n]) - first.before))
      requires hires ==> ActorsOf(winners) <= actors && OnceHired(ActorsOf(winners) - exposed, now)
      ensures OnlyTouched(actors, first.was, Touched(requests, rounds, n + 1, first))
      ensures hires ==> OnceHired(ActorsOf(winners) - Touched(requests, rounds, n, first), first.was)
    {
      var touched := Touched(requests, rounds, n, first);
      var more := exposed + (Attempted(requests, rounds[n]) - first.before);
      TouchedLater(actors, first.was, touched, now, more);
      assert touched + more == Touched(requests, rounds, n + 1, first);
      if hires {
        HiredLater(actors, first.was, touched, now, ActorsOf(winners) - exposed);
        assert ActorsOf(winners) - exposed - touched == ActorsOf(winners) - touched;
      }
    }

    lemma RoundEnds(actors: set<NetActor>, rounds: seq<Round>, n: nat, leave: bool, err: Option<PerformError>,
        first: Start, exposed: set<NetActor>)
      requires n < |rounds| && first.before + first.online <= actors
      requires first.pending <= exposed <= Touched(requests, rounds, n, first)
      requires rounds[n].isSettled ==> exposed == first.pending
      requires leave ==> EndsAt(rounds, n, err, first.before, first.online)
      requires !leave ==> Refused(requests, rounds, n + 1, first.before, first.online)
      requires OnlyTouched(actors, first.was, Touched(requests, rounds, n + 1, first)) && AllTold(actors, first.was)
      requires leave && err.None? ==>
        && HiresWinners(actors, first.before, exposed, OnlineAfter(rounds, n + 1, first.online))
        && OnceHired(ActorsOf(winners) - Touched(requests, rounds, n, first), first.was)
      requires !(leave && err.None?) ==>
        var more := exposed + (Attempted(requests, rounds[n]) - first.before);
        Rests(actors, first.before, more, OnlineAfter(rounds, n + 1, first.online))
      ensures leave ==> Performed(actors, rounds, first, n, err, exposed)
      ensures !leave ==>
        RoundBegins(actors, rounds, n + 1, first, exposed + (Attempted(requests, rounds[n]) - first.before))
    {
      var after := OnlineAfter(rounds, n + 1, first.online);
      OnlineShrinks(rounds, n + 1, first.online);
      if leave && err.None? {
        RestsOnline(actors, first.before + ActorsOf(winners), exposed, after);
        if exposed == {} {
          NobodyExposed(actors, first.before, after);
        }
      } else {
        var more := exposed + (Attempted(requests, rounds[n]) - first.before);
        HiredOutside(actors, first.before, first.pending, more, after);
        RestsOnline(actors, first.before, more, after);
      }
    }

    /** One turn of the loop, which is left with a result or goes on after a refused reply. */
    method PerformRound(rounds: seq<Round>, n: nat, actors: set<NetActor>, ghost s: Scene, ghost online: set<NetActor>)
      returns (leave: bool, err: Option<PerformError>)
      requires n < |rounds| && KnownActors(rounds) <= actors
      requires s.was == Snapshot(actors) && s.online == OnlineAfter(rounds, n, online) && s.lost == rounds[n].lost
      requires Rests(actors, s.before, s.exposed, s.online)
      requires Refused(requests, rounds, n, s.before, online)
      modifies this`winners, actors
      ensures leave ==> EndsAt(rounds, n, err, s.before, online)
      ensures !leave ==> Refused(requests, rounds, n + 1, s.before, online)
      ensures leave && err.None? ==>
        && HiresWinners(actors, s.before, s.exposed, OnlineAfter(rounds, n + 1, online))
        && OnceHired(ActorsOf(winners) - s.exposed, s.was)
      ensures !(leave && err.None?) ==>
        var more := s.exposed + (Attempted(requests, rounds[n]) - s.before);
        Rests(actors, s.before, more, OnlineAfter(rounds, n + 1, online))
      ensures AllTold(actors, s.was)
      ensures OnlyTouched(actors, s.was, s.exposed + (Attempted(requests, rounds[n]) - s.before))
    {
      var round := rounds[n];
      RoundStands(actors, s);
      leave, err := Turn(round, actors, s);
      ghost var part := if leave && err.None? then ActorsOf(winners) else {};
      ghost var during := if leave && err.None? then s
                          else s.(exposed := s.exposed + (Attempted(requests, round) - s.before));
      LoseRest(actors, round.lost, during, part);
      ghost var after := during.(online := s.online - round.lost, lost := {});
      RoundRests(actors, after, part);
      assert s.before + {} == s.before;
      assert AllTold(actors, s.was) by {
        forall a | a in actors ensures ActorStands(a, after, part) {
        }
      }
      forall a | a in actors - during.exposed
        ensures a in s.was && if a in part then HiredOnce(s.was[a], a.State()) else Same(s.was[a], a.State())
      {
        assert ActorStands(a, after, part);
      }
    }

    /** The turn itself. */
    method Turn(round: Round, actors: set<NetActor>, ghost s: Scene) returns (leave: bool, err: Option<PerformError>)
      requires Stands(actors, s, {}) && s.lost == round.lost && round.directory.Values <= actors
      modifies this`winners, actors
      ensures LeavesWith(round, leave, err, s.before, s.online, s.online - s.lost)
      ensures leave && err.None? ==>
        && DistinctBut(winners, s.exposed)
        && ActorsOf(winners) <= Attempted(requests, round) * actors
        && ActorsOf(winners) - s.exposed !! s.before
        && Stands(actors, s, ActorsOf(winners))
      ensures !(leave && err.None?) ==>
        Stands(actors, s.(exposed := s.exposed + (Attempted(requests, round) - s.before)), {})
    {
      Meanwhile(actors, round.lost, s, {});
      if !round.requestSent || !round.reply.Assignments? {
        StandsMore(actors, s, s.exposed + (Attempted(requests, round) - s.before));
        return true, Some(if !round.requestSent then RequestFailed
                          else if round.reply.Closed? then CastingAborted
                          else ContextAborted);
      }
      var ok := TryAssignments(round, actors, s);
      if ok {
        return true, None;
      }
      if !round.noticeSent {
        return true, Some(NoticeFailed);
      }
      return false, None;
    }

    /** But for the exposed actors: the winners are pairwise distinct, none was hired before, and with
        them exactly those are hired that were. */
    ghost predicate HiresWinners(actors: set<NetActor>, before: set<NetActor>, exposed: set<NetActor>,
        online: set<NetActor>)
      reads this`winners, actors
    {
      && DistinctBut(winners, exposed)
      && ActorsOf(winners) <= actors
      && ActorsOf(winners) - exposed !! before
      && Rests(actors, before + ActorsOf(winners), exposed, online)
    }

    ghost predicate HiresWinnersExactly(actors: set<NetActor>, before: set<NetActor>)
      reads this`winners, actors
    {
      && Distinct(winners)
      && ActorsOf(winners) !! before
      && HiredIn(actors) == before + ActorsOf(winners)
    }

    lemma NobodyExposed(actors: set<NetActor>, before: set<NetActor>, online: set<NetActor>)
      requires HiresWinners(actors, before, {}, online) && before <= actors
      ensures HiresWinnersExactly(actors, before)
    {
      forall a | a in actors ensures a.contract.Some? <==> a in before + ActorsOf(winners) {
        assert ActorRests(a, before + ActorsOf(winners), {}, online);
      }
    }

    /** The winners are the assignments of this round, for the requested keys and any other keys
        that the jury used, and every request has an acceptable number of them. */
    ghost predicate Cast(round: Round)
      reads this`requests, this`winners
    {
      && round.reply.Assignments?
      && var assignments := round.reply.assignments;
      && Known(assignments, round.directory)
      && winners == Collected(requests, assignments, round.directory)
      && (forall r <- requests :: r.key in winners && CountPasses(|winners[r.key]|, r))
      && (|assignments| < UINT32_MODULUS ==> forall r <- requests :: InRange(|winners[r.key]|, r))
    }

    /** What a round does: it leaves with a result, or goes on. The winners were online when it began;
        a reply is refused only on a ground that is there with the connections that the round takes. */
    ghost predicate LeavesWith(round: Round, leave: bool, err: Option<PerformError>, before: set<NetActor>,
        online: set<NetActor>, left: set<NetActor>)
      reads this`requests, this`winners
    {
      if !round.requestSent then leave && err == Some(RequestFailed)
      else
        match round.reply
        case ContextDone => leave && err == Some(ContextAborted)
        case Closed => leave && err == Some(CastingAborted)
        case Assignments(_) =>
          if leave && err.None? then Cast(round) && ActorsOf(winners) <= online
          else
            && Refusable(requests, round, before, left)
            && leave == !round.noticeSent && (leave ==> err == Some(NoticeFailed))
    }

    /** The loop leaves at round n with this result. */
    ghost predicate EndsAt(rounds: seq<Round>, n: nat, err: Option<PerformError>, before: set<NetActor>,
        online: set<NetActor>)
      reads this`requests, this`winners
    {
      && Refused(requests, rounds, n, before, online)
      && if n == |rounds| then err == Some(ContextAborted)
         else
           var left := OnlineAfter(rounds, n + 1, online);
           LeavesWith(rounds[n], true, err, before, OnlineAfter(rounds, n, online), left)
    }

    /** A reply that was asked for and that there is no ground to refuse, even with the connections that
        its round takes, is accepted unless the loop was left before. */
    lemma AcceptableIsAccepted(rounds: seq<Round>, n: nat, err: Option<PerformError>, before: set<NetActor>,
        online: set<NetActor>, k: nat)
      requires EndsAt(rounds, n, err, before, online)
      requires k < |rounds| && rounds[k].requestSent && rounds[k].reply.Assignments?
      requires !Refusable(requests, rounds[k], before, OnlineAfter(rounds, k + 1, online))
      ensures n <= k && (n == k ==> err.None?)
    {
    }

    /** And only such a reply is accepted, judged by the connections when its round began, if nobody is
        exposed. */
    lemma AcceptedIsAcceptable(actors: set<NetActor>, rounds: seq<Round>, first: Start, n: nat)
      requires Performed(actors, rounds, first, n, None, {})
      ensures n < |rounds| && !Refusable(requests, rounds[n], first.before, OnlineAfter(rounds, n, first.online))
    {
    }

    /** The winners of a key are available exactly when the casting is done and the key was
        requested or assigned. */
    method GetWinners(key: RequestKey) returns (r: Option<seq<NetActor>>)
      ensures r == if state == Done && key in winners then Some(winners[key]) else None
    {
      if state != Done || key !in winners {
        return None;
      }
      return Some(winners[key]);
    }

    method GetWinner(key: RequestKey) returns (r: Option<NetActor>)
      ensures r.Some? <==> state == Done && key in winners && |winners[key]| == 1
      ensures r.Some? ==> winners[key] == [r.value]
    {
      var all := GetWinners(key);
      if all.None? || |all.value| != 1 {
        return None;
      }
      return Some(all.value[0]);
    }
  }
}
