/** The actors that a casting works on, and what happens to them meanwhile. */
module HiredState {
  import opened Runs
  import opened Contracts
  import opened Acting
  import opened SubscriptionIndex

  ghost function HiredIn(actors: set<NetActor>): set<NetActor>
    reads actors
  {
    set a | a in actors && a.contract.Some?
  }

  ghost function Online(actors: set<NetActor>): set<NetActor>
    reads actors
  {
    set a | a in actors && a.isConnected
  }

  /** The actors with a watcher of an earlier contract that may call fire at any time. */
  ghost function Pending(actors: set<NetActor>): set<NetActor>
    reads actors
  {
    set a | a in actors && DueWatchers(a.State()) != {}
  }

  ghost predicate AllValid(actors: set<NetActor>)
    reads actors
  {
    forall a <- actors :: a.Valid()
  }

  /** A valid contract has other watchers than its own exactly if the actor has a pending one. */
  lemma PendingMeansStale(a: NetActor)
    requires a.Valid() && a.contract.Some? && a.contract.value !in a.cancelled
    ensures a in Pending({a}) <==> a.watchers != {a.contract.value}
  {
    if w :| w in a.watchers && w != a.contract.value {
      assert w in DueWatchers(a.State());
    }
  }

  /** Nothing but the connection may differ. */
  predicate Same(s: ActorState, t: ActorState) {
    t == s.(isConnected := t.isConnected)
  }

  /** Told once that it is hired, with one new contract, and nothing else but the connection. */
  predicate HiredOnce(s: ActorState, t: ActorState) {
    && t.contract == Some(s.nextContract) && t.nextContract == s.nextContract + 1
    && t.log == s.log + [YouAreIn]
    && t.watchers == s.watchers + {s.nextContract} && t.cancelled == s.cancelled
  }

  /** Without a contract, told so once if it had one and is connected, and nothing else. */
  predicate FiredOnce(s: ActorState, t: ActorState) {
    && t.contract.None? && t.nextContract == s.nextContract && t.isConnected == s.isConnected
    && t.log == s.log + (if s.contract.Some? && s.isConnected then [Fired] else [])
    && t.cancelled == s.cancelled + (if s.contract.Some? then {s.contract.value} else {})
    && t.watchers == s.watchers
  }

  /** A notice that fits an actor who is hired or not, and what it makes of that. */
  function Notice(isHired: bool, m: Outgoing): Option<bool> {
    if m == (if isHired then Outgoing.Fired else YouAreIn) then Some(!isHired) else None
  }

  /** Told of each hiring and each firing in turn and of nothing else; and of all of them, while it is
      connected. */
  predicate ToldInTurn(s: ActorState, t: ActorState) {
    && s.log <= t.log
    && var told := t.log[|s.log|..];
    && var knows := Run(Notice, s.contract.Some?, told);
    && knows.Some?
    && (t.isConnected ==> s.isConnected && knows.value == t.contract.Some?)
    && (!s.isConnected ==> told == [])
  }

  lemma ToldFurther(s: ActorState, t: ActorState, u: ActorState)
    requires ToldInTurn(s, t) && ToldInTurn(t, u)
    ensures ToldInTurn(s, u)
  {
    var first, second := t.log[|s.log|..], u.log[|t.log|..];
    assert u.log[|s.log|..] == first + second;
    RunConcat(Notice, s.contract.Some?, first, second);
    assert !t.isConnected ==> first + second == first;
  }

  lemma ToldNothing(s: ActorState, t: ActorState)
    requires t.log == s.log && (t.isConnected ==> s.isConnected && t.contract.Some? == s.contract.Some?)
    ensures ToldInTurn(s, t)
  {
    assert t.log[|s.log|..] == [];
  }

  lemma ToldOnce(s: ActorState, t: ActorState, m: Outgoing)
    requires t.log == s.log + [m] && s.isConnected && Notice(s.contract.Some?, m) == Some(t.contract.Some?)
    ensures ToldInTurn(s, t)
  {
    assert t.log[|s.log|..] == [m];
    RunOne(Notice, s.contract.Some?, m);
  }

  lemma HireTells(s: ActorState)
    ensures ToldInTurn(s, Hire(s))
  {
    if CanHire(s) {
      ToldOnce(s, Hire(s), YouAreIn);
    } else {
      ToldNothing(s, s);
    }
  }

  lemma FireTells(s: ActorState, t: ActorState)
    requires FiredOnce(s, t)
    ensures ToldInTurn(s, t)
  {
    if s.contract.Some? && s.isConnected {
      ToldOnce(s, t, Outgoing.Fired);
    } else {
      ToldNothing(s, t);
    }
  }

  /** Whatever else happens to it, every actor is told in turn. */
  ghost predicate AllTold(actors: set<NetActor>, was: map<NetActor, ActorState>)
    reads actors
  {
    forall a <- actors :: a in was && ToldInTurn(was[a], a.State())
  }

  lemma ToldLater(actors: set<NetActor>, was: map<NetActor, ActorState>, now: map<NetActor, ActorState>)
    requires forall a <- actors :: a in was && a in now && ToldInTurn(was[a], now[a])
    requires AllTold(actors, now)
    ensures AllTold(actors, was)
  {
    forall a | a in actors ensures a in was && ToldInTurn(was[a], a.State()) {
      ToldFurther(was[a], now[a], a.State());
    }
  }

  /** What a round begins with, and what it brings: the actors as they were, those hired, those of whom
      nothing more is said than that nobody else is hired and that they are told in turn, those online,
      and those that lose their connection. */
  datatype Scene = Scene(
    was: map<NetActor, ActorState>,
    before: set<NetActor>,
    exposed: set<NetActor>,
    online: set<NetActor>,
    lost: set<NetActor>)

  ghost predicate ActorStands(a: NetActor, s: Scene, part: set<NetActor>)
    reads a
  {
    && a.Valid()
    && (a.isConnected ==> a in s.online) && (a in s.online && a !in s.lost ==> a.isConnected)
    && (a.contract.Some? ==> a in s.before + part)
    && a in s.was && ToldInTurn(s.was[a], a.State())
    && (a !in s.exposed ==>
          && DueWatchers(a.State()) == {}
          && (a in s.before + part ==> a.contract.Some?)
          && if a in part then HiredOnce(s.was[a], a.State()) else Same(s.was[a], a.State()))
  }

  /** But for the exposed actors: those hired before are hired, these have been hired since, nobody else
      has been touched, and no watcher is pending. */
  ghost predicate Stands(actors: set<NetActor>, s: Scene, part: set<NetActor>)
    reads actors
  {
    forall a <- actors :: ActorStands(a, s, part)
  }

  /** The same between rounds. */
  ghost predicate ActorRests(a: NetActor, hired: set<NetActor>, exposed: set<NetActor>, online: set<NetActor>)
    reads a
  {
    && a.Valid()
    && (a.isConnected <==> a in online)
    && (a.contract.Some? ==> a in hired)
    && (a !in exposed ==> DueWatchers(a.State()) == {} && (a in hired ==> a.contract.Some?))
  }

  ghost predicate Rests(actors: set<NetActor>, hired: set<NetActor>, exposed: set<NetActor>, online: set<NetActor>)
    reads actors
  {
    forall a <- actors :: ActorRests(a, hired, exposed, online)
  }

  ghost function Snapshot(actors: set<NetActor>): map<NetActor, ActorState>
    reads actors
  {
    map a <- actors :: a.State()
  }

  /** Nobody else was touched since. */
  ghost predicate OnlyTouched(actors: set<NetActor>, was: map<NetActor, ActorState>, touched: set<NetActor>)
    reads actors
  {
    forall a <- actors - touched :: a in was && Same(was[a], a.State())
  }

  ghost predicate OnceHired(hired: set<NetActor>, was: map<NetActor, ActorState>)
    reads hired
  {
    forall a <- hired :: a in was && HiredOnce(was[a], a.State())
  }

  lemma TouchedLater(actors: set<NetActor>, was: map<NetActor, ActorState>, touched: set<NetActor>,
      now: map<NetActor, ActorState>, more: set<NetActor>)
    requires forall a <- actors - touched :: a in was && a in now && Same(was[a], now[a])
    requires OnlyTouched(actors, now, more)
    ensures OnlyTouched(actors, was, touched + more)
  {
    forall a | a in actors - (touched + more) ensures a in was && Same(was[a], a.State()) {
      assert a in actors - touched && a in actors - more;
    }
  }

  lemma HiredLater(actors: set<NetActor>, was: map<NetActor, ActorState>, touched: set<NetActor>,
      now: map<NetActor, ActorState>, hired: set<NetActor>)
    requires forall a <- actors - touched :: a in was && a in now && Same(was[a], now[a])
    requires hired <= actors && OnceHired(hired, now)
    ensures OnceHired(hired - touched, was)
  {
    forall a | a in hired - touched ensures a in was && HiredOnce(was[a], a.State()) {
      assert a in actors - touched && a in hired;
    }
  }

  lemma RoundStands(actors: set<NetActor>, s: Scene)
    requires Rests(actors, s.before, s.exposed, s.online) && s.was == Snapshot(actors)
    ensures Stands(actors, s, {})
  {
    forall a | a in actors ensures ActorStands(a, s, {}) {
      assert ActorRests(a, s.before, s.exposed, s.online);
      ToldNothing(a.State(), a.State());
    }
  }

  lemma RoundRests(actors: set<NetActor>, s: Scene, part: set<NetActor>)
    requires Stands(actors, s, part) && s.lost == {}
    ensures Rests(actors, s.before + part, s.exposed, s.online)
  {
    forall a | a in actors ensures ActorRests(a, s.before + part, s.exposed, s.online) {
      assert ActorStands(a, s, part);
    }
  }

  /** With more actors exposed less is said. */
  lemma StandsMore(actors: set<NetActor>, s: Scene, more: set<NetActor>)
    requires Stands(actors, s, {}) && s.exposed <= more
    ensures Stands(actors, s.(exposed := more), {})
  {
    forall a | a in actors ensures ActorStands(a, s.(exposed := more), {}) {
      assert ActorStands(a, s, {});
    }
  }

  lemma RestsFirst(actors: set<NetActor>)
    requires AllValid(actors)
    ensures Rests(actors, HiredIn(actors), Pending(actors), Online(actors))
  {
    forall a | a in actors ensures ActorRests(a, HiredIn(actors), Pending(actors), Online(actors)) {
    }
  }

  /** Of the actors that were not hired, only those with a pending watcher are exposed. */
  lemma RestsTight(actors: set<NetActor>, before: set<NetActor>, pending: set<NetActor>, exposed: set<NetActor>,
      online: set<NetActor>)
    returns (tight: set<NetActor>)
    requires Rests(actors, before, exposed, online) && pending <= exposed && exposed - pending !! before
    ensures Rests(actors, before, tight, online) && pending <= tight <= exposed
    ensures tight == pending + Pending(actors)
  {
    tight := pending + Pending(actors);
    forall a | a in actors ensures ActorRests(a, before, tight, online) && (a in Pending(actors) ==> a in exposed) {
      assert ActorRests(a, before, exposed, online);
      assert a in before && a !in pending ==> a !in exposed - pending;
    }
  }

  lemma HiredOutside(actors: set<NetActor>, before: set<NetActor>, pending: set<NetActor>, exposed: set<NetActor>,
      online: set<NetActor>)
    requires Rests(actors, before, exposed, online) && before <= actors && exposed - pending !! before
    ensures before - pending <= HiredIn(actors) <= before && AllValid(actors)
  {
    forall a | a in actors
      ensures a.Valid() && (a.contract.Some? ==> a in before) && (a in before - pending ==> a.contract.Some?)
    {
      assert ActorRests(a, before, exposed, online);
      assert a in before && a !in pending ==> a !in exposed - pending;
    }
  }

  lemma RestsOnline(actors: set<NetActor>, hired: set<NetActor>, exposed: set<NetActor>, online: set<NetActor>)
    requires Rests(actors, hired, exposed, online) && online <= actors
    ensures Online(actors) == online && AllValid(actors)
  {
    forall a | a in actors ensures a.Valid() && (a.isConnected <==> a in online) {
      assert ActorRests(a, hired, exposed, online);
    }
  }

  // ---------- what happens meanwhile ----------

  /** Without a pending watcher nothing but the connection changes. */
  ghost predicate OnlyWatchersRan(before: ActorState, after: ActorState) {
    && (DueWatchers(before) == {} ==> Same(before, after))
    && ToldInTurn(before, after)
    && (after.contract.Some? ==> after.contract == before.contract)
  }

  /** While the casting works, the actors that lose their connection in this round may do so, and any
      watchers that are pending may call fire. */
  method Meanwhile(actors: set<NetActor>, lost: set<NetActor>, ghost s: Scene, ghost part: set<NetActor>)
    requires Stands(actors, s, part) && lost == s.lost
    modifies actors
    ensures Stands(actors, s, part)
    ensures forall a <- actors :: old(a.subscriptions).Some? ==> a.subscriptions.Some?
  {
    var rest := actors;
    while rest != {}
      invariant rest <= actors
      invariant forall a <- rest :: ActorStands(a, s, part)
      invariant forall a <- actors - rest :: ActorStands(a, s, part)
      invariant forall a <- actors :: old(a.subscriptions).Some? ==> a.subscriptions.Some?
    {
      var a :| a in rest;
      LetHappen(a, a in lost, s, part);
      rest := rest - {a};
    }
  }

  /** Its watchers run, and it may lose its connection. */
  method LetHappen(a: NetActor, mayLose: bool, ghost s: Scene, ghost part: set<NetActor>)
    requires ActorStands(a, s, part) && mayLose == (a in s.lost)
    modifies a
    ensures ActorStands(a, s, part)
    ensures old(a.subscriptions).Some? ==> a.subscriptions.Some?
  {
    LetRun(a);
    ghost var now := a.State();
    var isLost: bool := *;
    if mayLose && isLost {
      a.isConnected := false;
    }
    ToldNothing(now, a.State());
    ToldFurther(old(a.State()), now, a.State());
    ToldFurther(s.was[a], old(a.State()), a.State());
  }

  method LetRun(a: NetActor)
    requires a.Valid()
    modifies a
    ensures a.Valid() && OnlyWatchersRan(old(a.State()), a.State()) && a.isConnected == old(a.isConnected)
    ensures old(a.subscriptions).Some? ==> a.subscriptions.Some?
  {
    var rest := a.watchers;
    ToldNothing(a.State(), a.State());
    while rest != {}
      invariant a.Valid() && OnlyWatchersRan(old(a.State()), a.State())
      invariant a.isConnected == old(a.isConnected)
      invariant old(a.subscriptions).Some? ==> a.subscriptions.Some?
    {
      var w :| w in rest;
      var runs: bool := *;
      if runs && w in a.watchers * a.cancelled {
        ghost var now := a.State();
        RunPending(a, w);
        ToldFurther(old(a.State()), now, a.State());
      }
      rest := rest - {w};
    }
  }

  method RunPending(a: NetActor, w: nat)
    requires a.Valid() && w in DueWatchers(a.State())
    modifies a
    ensures a.Valid() && OnlyWatchersRan(old(a.State()), a.State()) && a.isConnected == old(a.isConnected)
    ensures a.subscriptions.Some? && a.contract.None? && a.watchers == old(a.watchers) - {w}
  {
    var ok := a.RunWatcher(w);
    assert ok;
    var fired := Fire(old(a.State()));
    FireTells(old(a.State()), fired);
    ToldNothing(fired, a.State());
    ToldFurther(old(a.State()), fired, a.State());
  }

  /** By the end of the round they have lost it. */
  method LoseRest(actors: set<NetActor>, lost: set<NetActor>, ghost s: Scene, ghost part: set<NetActor>)
    requires Stands(actors, s, part) && lost == s.lost
    modifies actors
    ensures Stands(actors, s.(online := s.online - lost, lost := {}), part)
  {
    var rest := actors;
    while rest != {}
      invariant rest <= actors
      invariant forall a <- rest :: ActorStands(a, s, part)
      invariant forall a <- actors - rest :: ActorStands(a, s.(online := s.online - lost, lost := {}), part)
    {
      var a :| a in rest;
      if a in lost {
        Lose(a, s, part);
      }
      rest := rest - {a};
    }
  }

  method Lose(a: NetActor, ghost s: Scene, ghost part: set<NetActor>)
    requires ActorStands(a, s, part) && a in s.lost
    modifies a
    ensures ActorStands(a, s.(online := s.online - s.lost, lost := {}), part)
  {
    a.isConnected := false;
    ToldNothing(old(a.State()), a.State());
    ToldFurther(s.was[a], old(a.State()), a.State());
  }

  /** All pending watchers call fire. */
  method Settle(actors: set<NetActor>, ghost before: set<NetActor>, ghost pending: set<NetActor>,
      ghost exposed: set<NetActor>, ghost online: set<NetActor>)
    requires Rests(actors, before, exposed, online) && exposed - pending !! before
    modifies actors
    ensures Rests(actors, before, pending, online)
    ensures forall a <- actors - exposed :: a.State() == old(a.State())
    ensures forall a <- actors :: ToldInTurn(old(a.State()), a.State())
  {
    var rest := actors;
    while rest != {}
      invariant rest <= actors
      invariant forall a <- rest :: ActorRests(a, before, exposed, online) && a.State() == old(a.State())
      invariant forall a <- actors - rest :: ActorRests(a, before, pending, online)
      invariant forall a <- actors - rest :: ToldInTurn(old(a.State()), a.State())
      invariant forall a <- actors - exposed :: a.State() == old(a.State())
    {
      var a :| a in rest;
      assert a in before && a !in pending ==> a !in exposed - pending;
      SettleOne(a, before, pending, exposed, online);
      rest := rest - {a};
    }
  }

  method SettleOne(a: NetActor, ghost before: set<NetActor>, ghost pending: set<NetActor>,
      ghost exposed: set<NetActor>, ghost online: set<NetActor>)
    requires ActorRests(a, before, exposed, online) && (a in before && a in exposed ==> a in pending)
    modifies a
    ensures ActorRests(a, before, pending, online)
    ensures a !in exposed ==> a.State() == old(a.State())
    ensures ToldInTurn(old(a.State()), a.State())
  {
    RunWatchers(a);
  }

  method RunWatchers(a: NetActor)
    requires a.Valid()
    modifies a
    ensures a.Valid() && DueWatchers(a.State()) == {} && a.isConnected == old(a.isConnected)
    ensures OnlyWatchersRan(old(a.State()), a.State())
  {
    ToldNothing(a.State(), a.State());
    while a.watchers * a.cancelled != {}
      invariant a.Valid() && a.isConnected == old(a.isConnected)
      invariant OnlyWatchersRan(old(a.State()), a.State())
      decreases a.watchers
    {
      var w :| w in a.watchers * a.cancelled;
      ghost var now := a.State();
      RunPending(a, w);
      ToldFurther(old(a.State()), now, a.State());
    }
  }

  // ---------- hiring and firing ----------

  /** One Hire of the loop: refused only to an actor that was hired, or that was offline or has just lost
      its connection. */
  method HireNext(actor: NetActor, actors: set<NetActor>, lost: set<NetActor>, ghost s: Scene,
      ghost part: set<NetActor>)
    returns (ok: bool)
    requires Stands(actors, s, part) && lost == s.lost && actor in actors
    modifies actors
    ensures Stands(actors, s, if ok then part + {actor} else part)
    ensures ok ==> actor in s.online && (actor in s.before + part ==> actor in s.exposed) && actor.subscriptions.Some?
    ensures !ok ==> actor in s.before + part || actor !in s.online - s.lost
    ensures forall a <- actors :: old(a.subscriptions).Some? ==> a.subscriptions.Some?
  {
    Meanwhile(actors, lost, s, part);
    label Asked:
    ok := HireOne(actor, s, part);
    forall a | a in actors ensures ActorStands(a, s, if ok then part + {actor} else part) {
      if a != actor {
        assert old@Asked(ActorStands(a, s, part));
      }
    }
  }

  method HireOne(actor: NetActor, ghost s: Scene, ghost part: set<NetActor>) returns (ok: bool)
    requires ActorStands(actor, s, part)
    modifies actor
    ensures ActorStands(actor, s, if ok then part + {actor} else part)
    ensures ok ==> actor in s.online && (actor in s.before + part ==> actor in s.exposed) && actor.subscriptions.Some?
    ensures !ok ==> actor in s.before + part || actor !in s.online - s.lost
    ensures old(actor.subscriptions).Some? ==> actor.subscriptions.Some?
  {
    ok := actor.Hire();
    HireTells(old(actor.State()));
    ToldFurther(s.was[actor], old(actor.State()), actor.State());
  }

  /** Each actor is fired, told so if it is connected, and its subscriptions are cancelled; the watchers
      of the contracts are then pending. */
  method FireAllActors(fired: seq<NetActor>)
    requires forall a <- fired :: a.Valid() && a.subscriptions.Some?
    modifies fired
    ensures forall a <- fired :: a.Valid() && FiredOnce(old(a.State()), a.State())
    ensures forall a <- fired :: a.subscriptions == Some(AllCancelled(old(a.subscriptions).value))
  {
    for i := 0 to |fired|
      invariant forall a <- fired :: a.Valid()
      invariant forall a <- fired :: a in fired[..i] ==>
        FiredOnce(old(a.State()), a.State()) && a.subscriptions == Some(AllCancelled(old(a.subscriptions).value))
      invariant forall a <- fired :: a !in fired[..i] ==>
        a.State() == old(a.State()) && a.subscriptions == old(a.subscriptions)
    {
      AllCancelledTwice(old(fired[i].subscriptions.value));
      var ok := fired[i].Fire();
      assert ok;
      assert fired[..i + 1] == fired[..i] + [fired[i]];
    }
  }

  /** Everybody hired so far is fired, and exposed to the watcher of the contract that this ends. */
  method RollBack(hired: seq<NetActor>, ghost actors: set<NetActor>, ghost s: Scene, ghost part: set<NetActor>)
    requires (set a <- hired) == part <= actors && part - s.exposed !! s.before
    requires Stands(actors, s, part)
    requires forall a <- hired :: a.subscriptions.Some?
    modifies hired
    ensures Stands(actors, s.(exposed := s.exposed + (part - s.before)), {})
    ensures forall a <- hired :: FiredOnce(old(a.State()), a.State())
  {
    forall a | a in hired ensures a.Valid() {
      assert a in part;
      assert ActorStands(a, s, part);
    }
    FireAllActors(hired);
    assert forall a :: a in part <==> a in hired;
    forall a | a in actors ensures ActorStands(a, s.(exposed := s.exposed + (part - s.before)), {}) {
      assert old(ActorStands(a, s, part));
      if a in part {
        FireTells(old(a.State()), a.State());
        ToldFurther(s.was[a], old(a.State()), a.State());
        assert a !in s.exposed ==> a in part - s.exposed;
      }
    }
  }
}
