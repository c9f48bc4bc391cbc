/** What the ready awaiter does not promise: that everybody is still ready when nil is returned, and
    that an error is recorded only when something failed. When it is so nevertheless, exactly. */
module ReadyExceptions {
  import opened Runs
  import opened ReadyAwaiter

  // ---------- when nil means that everybody is ready ----------

  predicate AllTrue(ready: map<Actor, bool>) {
    forall a <- ready :: ready[a]
  }

  /** What an actor has said last. */
  function Told(actors: seq<Actor>, actions: seq<Action>, actor: Actor): Option<bool> {
    if actions == [] then None
    else
      var last := actions[|actions| - 1];
      if last.Receive? && last.handler < |actors| && actors[last.handler] == actor then Some(last.isReady)
      else Told(actors, actions[..|actions| - 1], actor)
  }

  predicate NobodyTold(actions: seq<Action>) {
    forall a <- actions :: !a.Receive?
  }

  /** In every interleaving an actor counts as ready exactly if its last word was to be ready. */
  lemma {:induction false} ReadyIsWhatWasTold(actors: seq<Actor>, actions: seq<Action>)
    requires actors != [] && Run(Step, Start(actors), actions).Some?
    ensures var s := Run(Step, Start(actors), actions).value;
      && s.actors == actors
      && (s.main == Registering ==> NobodyTold(actions))
      && forall a <- s.ready :: s.ready[a] == (Told(actors, actions, a) == Some(true))
  {
    if actions != [] {
      var before, a := actions[..|actions| - 1], actions[|actions| - 1];
      ReadyIsWhatWasTold(actors, before);
      RunsKeepInv(actors, actions);
      assert forall b :: b in actions <==> b in before || b == a;
      if a.Register? {
        forall b ensures Told(actors, before, b) == None {
          NobodyToldNothing(actors, before, b);
        }
      }
    }
  }

  lemma {:induction false} NobodyToldNothing(actors: seq<Actor>, actions: seq<Action>, actor: Actor)
    requires NobodyTold(actions)
    ensures Told(actors, actions, actor) == None
  {
    if actions != [] {
      NobodyToldNothing(actors, actions[..|actions| - 1], actor);
    }
  }

  /** The states on which everybody is found ready, from the moment at which they are collected. */
  predicate IsSnapshot(s: State, states: seq<ActorReady>) {
    (exists h <- s.handlers :: h.place == Updating(Update(true, states))) || HasDecided(s.shared.events, states)
  }

  predicate HasDecided(events: seq<Event>, states: seq<ActorReady>) {
    && |events| > 1
    && events[|events| - 2] == Sent(Update(true, states)) && events[|events| - 1] == Decided(AllReady)
  }

  lemma DecisionHadSnapshot(s: State, a: Action, states: seq<ActorReady>)
    requires Inv(s) && Step(s, a).Some? && HasDecided(Step(s, a).value.shared.events, states)
    ensures IsSnapshot(s, states)
  {
    if !IsMainAction(a) {
      assert s.handlers[a.handler] in s.handlers;
    }
  }

  /** What the actors have said since then is what is stored. */
  predicate StoredSince(s: State, actions: seq<Action>, n: nat) {
    && n < |actions| && s.main != Registering
    && forall a <- s.ready :: s.ready[a] == (Told(s.actors, actions[n..], a) != Some(false))
  }

  lemma StepStores(s: State, a: Action, actions: seq<Action>, n: nat)
    requires Inv(s) && Step(s, a).Some? && StoredSince(s, actions, n)
    ensures StoredSince(Step(s, a).value, actions + [a], n)
  {
    assert (actions + [a])[n..] == actions[n..] + [a];
    assert (actions[n..] + [a])[..|actions[n..]|] == actions[n..];
  }

  /** A snapshot comes from one BeginUpdate, or was there before. */
  lemma SnapshotBegins(s: State, a: Action, states: seq<ActorReady>)
    requires Inv(s) && Step(s, a).Some? && IsSnapshot(Step(s, a).value, states) && !IsSnapshot(s, states)
    ensures a.BeginUpdate? && a.states == states && EverybodyReady(states) && s.main != Registering
    ensures Lists(states, s.ready) && Step(s, a).value.ready == s.ready && AllTrue(s.ready)
  {
    var t := Step(s, a).value;
    if HasDecided(t.shared.events, states) {
      DecisionHadSnapshot(s, a, states);
    } else {
      var h :| h in t.handlers && h.place == Updating(Update(true, states));
      UpdateBegins(s, a, h);
    }
  }

  /** A handler comes to be sending an update by collecting the states. */
  lemma UpdateBegins(s: State, a: Action, h: Handler)
    requires Inv(s) && Step(s, a).Some? && h in Step(s, a).value.handlers && h !in s.handlers
    requires h.place.Updating? && h.place.update.isEverybodyReady
    ensures a.BeginUpdate? && a.states == h.place.update.states && EverybodyReady(a.states) && s.main != Registering
    ensures Lists(a.states, s.ready) && Step(s, a).value.ready == s.ready && AllTrue(s.ready)
  {
    assert !IsMainAction(a);
    assert h == Step(s, a).value.handlers[a.handler];
    assert s.handlers[a.handler] in s.handlers;
  }

  lemma {:induction false} SnapshotIsStored(actors: seq<Actor>, actions: seq<Action>, states: seq<ActorReady>)
    returns (n: nat)
    requires actors != []
    requires var r := Run(Step, Start(actors), actions); r.Some? && IsSnapshot(r.value, states)
    ensures n < |actions| && actions[n].BeginUpdate? && actions[n].states == states
    ensures StoredSince(Run(Step, Start(actors), actions).value, actions, n)
  {
    assert actions != [];
    n := |actions| - 1;
    var before, a := actions[..n], actions[n];
    assert actions == before + [a];
    RunsKeepInv(actors, before);
    var s := Run(Step, Start(actors), before).value;
    if IsSnapshot(s, states) {
      n := SnapshotIsStored(actors, before, states);
      StepStores(s, a, before, n);
    } else {
      SnapshotBegins(s, a, states);
      assert actions[n..] == [a];
    }
  }

  /** Every run that returns nil has collected its snapshot at some point; everybody is ready at the
      return if and only if since then nobody's last word was not to be ready. */
  lemma {:induction false} NilMeansReadyExactly(actors: seq<Actor>, actions: seq<Action>) returns (n: nat)
    requires actors != []
    requires var r := Run(Step, Start(actors), actions); r.Some? && r.value.main == Returned(Nil)
    ensures n < |actions| && actions[n].BeginUpdate?
    ensures IsSnapshot(Run(Step, Start(actors), actions).value, actions[n].states)
    ensures var ready := Run(Step, Start(actors), actions).value.ready;
      && ready.Keys == Requested(actors)
      && (AllTrue(ready) <==> forall a <- actors :: Told(actors, actions[n..], a) != Some(false))
      && ((forall a <- actions[n..] :: a.Receive? ==> a.isReady) ==> AllTrue(ready))
  {
    RunsKeepInv(actors, actions);
    var s := Run(Step, Start(actors), actions).value;
    var events := s.shared.events;
    var states := events[|events| - 2].update.states;
    assert HasDecided(events, states);
    n := SnapshotIsStored(actors, actions, states);
    assert s.actors[..|s.handlers|] == actors;
    if forall a <- actions[n..] :: a.Receive? ==> a.isReady {
      forall a | a in actors ensures Told(actors, actions[n..], a) != Some(false) {
        NobodyTakesBack(actors, actions[n..], a);
      }
    }
  }

  lemma {:induction false} NobodyTakesBack(actors: seq<Actor>, actions: seq<Action>, actor: Actor)
    requires forall a <- actions :: a.Receive? ==> a.isReady
    ensures Told(actors, actions, actor) != Some(false)
  {
    if actions != [] {
      NobodyTakesBack(actors, actions[..|actions| - 1], actor);
    }
  }

  /** The first action of a run. */
  lemma RunFirst(s: State, a: Action, more: seq<Action>)
    requires Step(s, a).Some?
    ensures Run(Step, s, [a] + more) == Run(Step, Step(s, a).value, more)
  {
    RunOne(Step, s, a);
    RunConcat(Step, s, [a], more);
  }

  /** Handler i is about to tell that everybody is ready, or has told it and waits for the reader. */
  predicate FindsEverybodyReady(s: State, i: nat) {
    && i < |s.handlers| && s.main == Waiting
    && (s.handlers[i].place == Deciding(true) || IsAllReadyUpdate(s.handlers[i]))
  }

  ghost predicate ReturnsNilWithout(s: State, more: seq<Action>, actor: Actor) {
    var r := Run(Step, s, more);
    r.Some? && r.value.main == Returned(Nil) && actor in r.value.ready && !r.value.ready[actor]
  }

  /** From every reachable state in which everybody has been found ready and the result is not yet
      out, some run returns nil with the actor of the deciding handler not ready. */
  lemma {:induction false} ReadinessTakenBack(actors: seq<Actor>, actions: seq<Action>, i: nat)
    returns (more: seq<Action>)
    requires actors != []
    requires var r := Run(Step, Start(actors), actions); r.Some? && FindsEverybodyReady(r.value, i)
    ensures i < |actors| && ReturnsNilWithout(Run(Step, Start(actors), actions).value, more, actors[i])
  {
    RunsKeepInv(actors, actions);
    var s := Run(Step, Start(actors), actions).value;
    assert s.handlers[i] in s.handlers;
    if s.handlers[i].place.Updating? {
      var t := Step(s, SendUpdate(i)).value;
      StepKeepsInv(s, SendUpdate(i));
      more := TakeBack(t, i);
      RunFirst(s, SendUpdate(i), more);
      more := [SendUpdate(i)] + more;
    } else {
      more := TakeBack(s, i);
    }
  }

  /** The decision is read, then the actor takes its readiness back. */
  function TakenBack(s: State, i: nat): State
    requires i < |s.handlers| && i < |s.actors|
  {
    s.(handlers := s.handlers[i := s.handlers[i].(place := Stored)],
       ready := s.ready[s.actors[i] := false],
       main := DoneReceived)
  }

  lemma ReadThenTakeBack(s: State, i: nat)
    requires s.main == Waiting && i < |s.handlers| && i < |s.actors| && s.handlers[i].place == Deciding(true)
    ensures Run(Step, s, [Rendezvous(i), Receive(i, false)]) == Some(TakenBack(s, i))
  {
    var h := s.handlers[i].(place := Listening);
    var read := s.(handlers := s.handlers[i := h], main := DoneReceived);
    assert Step(s, Rendezvous(i)) == Some(read);
    RunTwo(Step, s, Rendezvous(i), Receive(i, false));
    assert Step(read, Receive(i, false)).value.handlers == TakenBack(s, i).handlers;
  }

  lemma CancelAndReadError(s: State)
    requires s.main == DoneReceived && s.shared.originalErr.None?
    ensures Run(Step, s, [CancelRequests, ReadError]) == Some(s.(main := Returned(Nil), isCancelled := true))
  {
    RunTwo(Step, s, CancelRequests, ReadError);
  }

  lemma TakeBack(s: State, i: nat) returns (more: seq<Action>)
    requires Inv(s) && s.main == Waiting && i < |s.handlers| && s.handlers[i].place == Deciding(true)
    ensures i < |s.actors| && ReturnsNilWithout(s, more, s.actors[i])
  {
    assert HandlerInv(s.handlers[i], ViewOf(s)) by {
      assert s.handlers[i] in s.handlers;
    }
    ReadThenTakeBack(s, i);
    CancelAndReadError(TakenBack(s, i));
    RunConcat(Step, s, [Rendezvous(i), Receive(i, false)], [CancelRequests, ReadError]);
    more := [Rendezvous(i), Receive(i, false)] + [CancelRequests, ReadError];
  }

  // ---------- when an error is recorded although nothing failed ----------

  /** The outcome of a ReadyAccepted that was sent. */
  predicate IsSpurious(e: Error) {
    e.AfterAccepted? && e.wasSent
  }

  predicate HasSpuriousError(s: State) {
    s.shared.originalErr.Some? && IsSpurious(s.shared.originalErr.value)
  }

  predicate HasErrorAfterAccepted(s: State) {
    s.shared.originalErr.Some? && s.shared.originalErr.value.AfterAccepted?
  }

  /** A step out of a state that accepts updates or has recorded the outcome of a ReadyAccepted comes
      from one that accepts. */
  lemma AcceptedBefore(s: State, a: Action)
    requires Inv(s) && Step(s, a).Some?
    ensures var t := Step(s, a).value;
      && (t.shared.accepting ==> s.shared.accepting)
      && (t.shared.originalErr != s.shared.originalErr ==> s.shared.accepting)
      && (t.main == Returned(Aborted) && s.main != Returned(Aborted) ==> a.ContextDone? && t.shared == s.shared)
      && (s.main == Returned(Aborted) ==> t.main == Returned(Aborted))
  {
  }

  /** The outcome of a ReadyAccepted is recorded only if the await was aborted, and at a moment at
      which updates were still accepted. */
  lemma {:induction false} RecordedAfterAbort(actors: seq<Actor>, actions: seq<Action>) returns (n: nat)
    requires actors != []
    requires var r := Run(Step, Start(actors), actions);
      r.Some? && HasErrorAfterAccepted(r.value)
    ensures Run(Step, Start(actors), actions).value.main == Returned(Aborted)
    ensures n < |actions| && actions[n].ContextDone?
    ensures var r := Run(Step, Start(actors), actions[..n]); r.Some? && r.value.shared.accepting
  {
    RunsKeepInv(actors, actions);
    n := AbortedWhileAccepting(actors, actions);
  }

  lemma {:induction false} AbortedWhileAccepting(actors: seq<Actor>, actions: seq<Action>) returns (n: nat)
    requires actors != []
    requires var r := Run(Step, Start(actors), actions);
      && r.Some? && r.value.main == Returned(Aborted)
      && (r.value.shared.accepting || HasErrorAfterAccepted(r.value))
    ensures n < |actions| && actions[n].ContextDone?
    ensures var r := Run(Step, Start(actors), actions[..n]); r.Some? && r.value.shared.accepting
  {
    assert actions != [];
    n := |actions| - 1;
    var before, a := actions[..n], actions[n];
    RunsKeepInv(actors, before);
    var s := Run(Step, Start(actors), before).value;
    AcceptedBefore(s, a);
    if s.main == Returned(Aborted) {
      n := AbortedWhileAccepting(actors, before);
      assert before[..n] == actions[..n];
    }
  }

  predicate IsAllReadyUpdate(h: Handler) {
    h.place.Updating? && h.place.update.isEverybodyReady
  }

  /** After an abort, the handlers that may still come to record the outcome of a ReadyAccepted that
      is sent: a stored word must not make everybody ready. */
  predicate MayRecord(h: Handler, ready: map<Actor, bool>) {
    match h.place
    case Subscribed => true
    case Listening => true
    case Stored => !AllTrue(ready)
    case Updating(u) => !u.isEverybodyReady
    case Leaving(e) => IsSpurious(e)
    case _ => false
  }

  /** Updates are accepted, none is underway that ends this, and some handler is left. */
  predicate IsOpen(s: State) {
    && s.shared.accepting
    && (forall h <- s.handlers :: !IsAllReadyUpdate(h))
    && (exists h <- s.handlers :: MayRecord(h, s.ready))
  }

  /** A state that is aborted, not open, and without such an error stays so. */
  predicate IsClosed(s: State) {
    s.main == Returned(Aborted) && !IsOpen(s) && !HasSpuriousError(s)
  }

  lemma StepStaysClosed(s: State, a: Action)
    requires Inv(s) && IsClosed(s) && Step(s, a).Some?
    ensures IsClosed(Step(s, a).value)
  {
    var t := Step(s, a).value;
    AcceptedBefore(s, a);
    if s.shared.accepting {
      var h := s.handlers[a.handler];
      assert h in s.handlers;
      if k :| 0 <= k < |s.handlers| && IsAllReadyUpdate(s.handlers[k]) {
        assert s.handlers[k] in s.handlers;
        assert t.shared.accepting ==> t.handlers[k] == s.handlers[k] && t.handlers[k] in t.handlers;
      } else {
        NoneLeft(s, a);
      }
    }
  }

  /** Without a handler that may record, the next update finds everybody ready. */
  lemma NoneLeft(s: State, a: Action)
    requires Inv(s) && s.main == Returned(Aborted) && s.shared.accepting && Step(s, a).Some?
    requires forall h <- s.handlers :: !IsAllReadyUpdate(h) && !MayRecord(h, s.ready)
    ensures !IsOpen(Step(s, a).value) && !HasSpuriousError(Step(s, a).value)
  {
    var t := Step(s, a).value;
    var h, k := s.handlers[a.handler], t.handlers[a.handler];
    assert h in s.handlers && k in t.handlers;
    assert t.ready == s.ready;
    if a.BeginUpdate? {
      assert IsAllReadyUpdate(k);
    } else {
      assert !MayRecord(k, t.ready);
    }
  }

  lemma {:induction false} StaysClosed(s: State, more: seq<Action>)
    requires Inv(s) && IsClosed(s)
    ensures var r := Run(Step, s, more); r.Some? ==> IsClosed(r.value)
  {
    var inv := (t: State) => Inv(t) && IsClosed(t);
    forall t, a | inv(t) && Step(t, a).Some? ensures inv(Step(t, a).value) {
      StepKeepsInv(t, a);
      StepStaysClosed(t, a);
    }
    RunKeeps(Step, inv, s, more);
  }

  /** Some order of the entries. */
  lemma {:induction false} HasListing(ready: map<Actor, bool>) returns (states: seq<ActorReady>)
    ensures Lists(states, ready)
    decreases |ready|
  {
    if ready == map[] {
      states := [];
    } else {
      var a :| a in ready;
      var rest := ready - {a};
      assert rest.Keys == ready.Keys - {a} && rest[a := ready[a]] == ready;
      var fewer := HasListing(rest);
      ListsMore(fewer, rest, a, ready[a]);
      states := fewer + [ActorReady(a, ready[a])];
    }
  }

  ghost predicate Records(s: State, more: seq<Action>) {
    var r := Run(Step, s, more);
    r.Some? && HasSpuriousError(r.value)
  }

  /** After an abort, the next handler that tells its actor ReadyAccepted records an error. */
  lemma AbortRecordsError(s: State, i: nat)
    requires Inv(s) && s.main == Returned(Aborted) && s.shared.accepting && ModeFree(s.handlers)
    requires i < |s.handlers| && s.handlers[i].place == Listening
    ensures var r := Run(Step, s, [SendAccepted(i, true), BeginError(i)]);
      r.Some? && r.value.shared.originalErr == Some(AfterAccepted(i, true))
  {
    var e := AfterAccepted(i, true);
    var leaving := Handler(Leaving(e), s.handlers[i].sent + [ReadyAccepted]);
    var t := s.(handlers := s.handlers[i := leaving]);
    assert Step(s, SendAccepted(i, true)) == Some(t);
    FreeWith(s.handlers, i, leaving);
    assert Step(t, BeginError(i)).value.shared == Recorded(s.shared, e);
    RunTwo(Step, s, SendAccepted(i, true), BeginError(i));
  }

  lemma FreeWith(handlers: seq<Handler>, i: nat, h: Handler)
    requires ModeFree(handlers) && i < |handlers| && !Holds(h)
    ensures ModeFree(handlers[i := h])
  {
  }

  /** One more action, which leaves the handler listening. */
  lemma ThenListens(s: State, a: Action) returns (more: seq<Action>)
    requires Inv(s) && s.main == Returned(Aborted) && !IsMainAction(a) && Step(s, a).Some?
    requires var t := Step(s, a).value;
      t.shared.accepting && a.handler < |t.handlers| && t.handlers[a.handler].place == Listening && ModeFree(t.handlers)
    ensures Records(s, more)
  {
    StepKeepsInv(s, a);
    AcceptedBefore(s, a);
    AbortRecordsError(Step(s, a).value, a.handler);
    var rest := [SendAccepted(a.handler, true), BeginError(a.handler)];
    RunFirst(s, a, rest);
    more := [a] + rest;
  }

  /** The handler that sends an update holds the lock; nobody else does afterwards. */
  lemma UpdateThenListens(s: State, i: nat) returns (more: seq<Action>)
    requires Inv(s) && s.main == Returned(Aborted) && s.shared.accepting
    requires i < |s.handlers| && s.handlers[i].place.Updating? && !s.handlers[i].place.update.isEverybodyReady
    ensures Records(s, more)
  {
    var t := Step(s, SendUpdate(i)).value;
    forall h | h in t.handlers ensures !Holds(h) {
      var j :| 0 <= j < |t.handlers| && t.handlers[j] == h;
      assert j != i ==> t.handlers[j] == s.handlers[j];
    }
    more := ThenListens(s, SendUpdate(i));
  }

  lemma StoredRecords(s: State, i: nat) returns (more: seq<Action>)
    requires Inv(s) && s.main == Returned(Aborted) && s.shared.accepting && ModeFree(s.handlers)
    requires i < |s.handlers| && s.handlers[i].place == Stored && !AllTrue(s.ready)
    ensures Records(s, more)
  {
    var states := HasListing(s.ready);
    var a :| a in s.ready && !s.ready[a];
    assert ActorReady(a, false) in states;
    var begin := BeginUpdate(i, states);
    StepKeepsInv(s, begin);
    var rest := UpdateThenListens(Step(s, begin).value, i);
    RunFirst(s, begin, rest);
    more := [begin] + rest;
  }

  lemma OpenRecords(s: State) returns (more: seq<Action>)
    requires Inv(s) && s.main == Returned(Aborted) && IsOpen(s)
    ensures Records(s, more)
  {
    if k :| 0 <= k < |s.handlers| && Holds(s.handlers[k]) {
      assert s.handlers[k] in s.handlers;
      more := UpdateThenListens(s, k);
    } else {
      forall h | h in s.handlers ensures !Holds(h) {
        var j :| 0 <= j < |s.handlers| && s.handlers[j] == h;
      }
      var i :| 0 <= i < |s.handlers| && MayRecord(s.handlers[i], s.ready);
      match s.handlers[i].place
      case Subscribed =>
        var t := Step(s, SendRequest(i, true)).value;
        forall h | h in t.handlers ensures !Holds(h) {
        }
        more := ThenListens(s, SendRequest(i, true));
      case Listening =>
        AbortRecordsError(s, i);
        more := [SendAccepted(i, true), BeginError(i)];
      case Stored => more := StoredRecords(s, i);
      case Leaving(_) =>
        RunOne(Step, s, BeginError(i));
        more := [BeginError(i)];
    }
  }

  /** In every reachable state after an abort: that an error is recorded although nothing failed has
      happened, or can still happen, if and only if updates are still accepted, no update underway
      ends this, and some handler is left to do it. */
  lemma {:induction false} AbortRecordsErrorExactly(actors: seq<Actor>, actions: seq<Action>)
    requires actors != []
    requires var r := Run(Step, Start(actors), actions); r.Some? && r.value.main == Returned(Aborted)
    ensures var s := Run(Step, Start(actors), actions).value;
      (exists more :: Records(s, more)) <==> HasSpuriousError(s) || IsOpen(s)
  {
    RunsKeepInv(actors, actions);
    var s := Run(Step, Start(actors), actions).value;
    if HasSpuriousError(s) {
      assert Records(s, []);
    } else if IsOpen(s) {
      var more := OpenRecords(s);
    } else {
      forall more ensures !Records(s, more) {
        StaysClosed(s, more);
      }
    }
  }

  // ---------- both happen ----------

  function OneAsked(isReady: bool): State {
    State(["a"], map["a" := isReady], [Handler(Listening, [AreYouReady])], Waiting, false, Shared(true, None, []))
  }

  function OneRegistered(): State {
    State(["a"], map["a" := false], [Handler(Subscribed, [])], Waiting, false, Shared(true, None, []))
  }

  lemma RegisterOne()
    ensures Run(Step, Start(["a"]), [Register, EndRegistration]) == Some(OneRegistered())
  {
    var s := Start(["a"]);
    RunTwo(Step, s, Register, EndRegistration);
    assert Step(s, Register).value.handlers == OneRegistered().handlers;
  }

  lemma AskOne() returns (actions: seq<Action>)
    ensures Run(Step, Start(["a"]), actions) == Some(OneAsked(false))
  {
    var begin, ask := [Register, EndRegistration], [SendRequest(0, true)];
    RegisterOne();
    assert [] + [AreYouReady] == [AreYouReady];
    assert Step(OneRegistered(), SendRequest(0, true)).value.handlers == OneAsked(false).handlers;
    RunOne(Step, OneRegistered(), SendRequest(0, true));
    RunConcat(Step, Start(["a"]), begin, ask);
    actions := begin + ask;
  }

  /** A run that returns nil although the only actor is not ready. */
  lemma ReadinessTakenBackInRun() returns (actions: seq<Action>)
    ensures ReturnsNilWithout(Start(["a"]), actions, "a")
  {
    var ask := AskOne();
    var answer := AnswerOne();
    RunConcat(Step, Start(["a"]), ask, answer);
    var more := ReadinessTakenBack(["a"], ask + answer, 0);
    RunConcat(Step, Start(["a"]), ask + answer, more);
    actions := ask + answer + more;
  }

  lemma AnswerOne() returns (actions: seq<Action>)
    ensures var r := Run(Step, OneAsked(false), actions); r.Some? && FindsEverybodyReady(r.value, 0)
  {
    var s := OneAsked(false);
    var states := [ActorReady("a", true)];
    assert states[0] == ActorReady("a", true);
    var stored := OneAsked(true).(handlers := [Handler(Stored, [AreYouReady])]);
    var t := Step(s, Receive(0, true)).value;
    assert t.handlers == stored.handlers && t.ready == stored.ready;
    actions := [Receive(0, true), BeginUpdate(0, states)];
    RunTwo(Step, s, Receive(0, true), BeginUpdate(0, states));
    assert Step(stored, BeginUpdate(0, states)).Some?;
  }

  /** A run that ends with an error recorded for a message that was sent. */
  lemma AbortRecordsErrorInRun() returns (actions: seq<Action>)
    ensures Records(Start(["a"]), actions)
  {
    var ask := AskOne();
    RunConcat(Step, Start(["a"]), ask, [ContextDone]);
    RunOne(Step, OneAsked(false), ContextDone);
    var aborted := ask + [ContextDone];
    var s := Run(Step, Start(["a"]), aborted).value;
    RunsKeepInv(["a"], aborted);
    assert s.handlers[0] in s.handlers && MayRecord(s.handlers[0], s.ready);
    var more := OpenRecords(s);
    RunConcat(Step, Start(["a"]), aborted, more);
    actions := aborted + more;
  }
}
