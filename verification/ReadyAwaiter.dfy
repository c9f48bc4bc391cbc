/** Asking a list of actors whether they are ready: one handler goroutine per actor, three pieces of
    shared state, one decision. All interleavings of the sections under readyStatesMutex and
    modeMutex, the channel rendezvous, and the failures of sending. */
module ReadyAwaiter {
  import opened Runs

  type Actor = string

  datatype ActorReady = ActorReady(actor: Actor, isReady: bool)

  datatype Update = Update(isEverybodyReady: bool, states: seq<ActorReady>)

  /** Wrapping the outcome of sending ReadyAccepted gives an error even when it was sent. */
  datatype Error = RequestNotSent(handler: nat) | AfterAccepted(handler: nat, wasSent: bool)

  datatype Decision = AllReady | Failed(error: Error)

  datatype Event = Sent(update: Update) | Decided(decision: Decision)

  datatype Outgoing = AreYouReady | ReadyAccepted

  /** Where a handler is: `Updating` and `Deciding` hold modeMutex, the latter waits on done. */
  datatype Place =
    | Subscribed
    | Listening
    | Stored
    | Updating(update: Update)
    | Deciding(goesOn: bool)
    | Leaving(error: Error)
    | Gone

  datatype Handler = Handler(place: Place, sent: seq<Outgoing>)

  datatype Result = Nil | Aborted | Failure(error: Error)

  datatype Main = Registering | Waiting | DoneReceived | Reading | Returned(result: Result)

  /** `events` records the sent updates and the moments at which updates stop being accepted. */
  datatype Shared = Shared(accepting: bool, originalErr: Option<Error>, events: seq<Event>)

  datatype State = State(
    actors: seq<Actor>,
    ready: map<Actor, bool>,
    handlers: seq<Handler>,
    main: Main,
    isCancelled: bool,
    shared: Shared)

  /** Without actors nothing is started and nil is returned at once. */
  function Start(actors: seq<Actor>): State
    requires actors != []
  {
    State(actors, map[], [], Registering, false, Shared(true, None, []))
  }

  datatype Action =
    | Register
    | EndRegistration
    | SendRequest(handler: nat, isSent: bool)
    | Receive(handler: nat, isReady: bool)
    | Quit(handler: nat)
    | BeginUpdate(handler: nat, states: seq<ActorReady>)
    | SendUpdate(handler: nat)
    | SendAccepted(handler: nat, isSent: bool)
    | BeginError(handler: nat)
    | Rendezvous(handler: nat)
    | GiveUp(handler: nat)
    | ContextDone
    | CancelRequests
    | ReadError

  predicate Holds(h: Handler) {
    h.place.Updating? || h.place.Deciding?
  }

  predicate ModeFree(handlers: seq<Handler>) {
    forall h <- handlers :: !Holds(h)
  }

  /** The entries of the map, each once, in some order. */
  predicate Lists(states: seq<ActorReady>, ready: map<Actor, bool>) {
    && (forall e <- states :: e.actor in ready && ready[e.actor] == e.isReady)
    && (forall i, j :: 0 <= i < j < |states| ==> states[i].actor != states[j].actor)
    && (forall a <- ready :: ActorReady(a, ready[a]) in states)
  }

  predicate EverybodyReady(states: seq<ActorReady>) {
    forall e <- states :: e.isReady
  }

  /** The loop of handleReadyStateUpdate over the map. */
  method BuildUpdate(ready: map<Actor, bool>) returns (update: Update)
    ensures Lists(update.states, ready)
    ensures update.isEverybodyReady == EverybodyReady(update.states)
  {
    var isEverybodyReady, states := true, [];
    var rest := ready.Keys;
    ghost var seen: map<Actor, bool> := map[];
    while rest != {}
      invariant rest <= ready.Keys && seen.Keys == ready.Keys - rest
      invariant forall a <- seen :: seen[a] == ready[a]
      invariant Lists(states, seen)
      invariant isEverybodyReady == EverybodyReady(states)
    {
      var actor :| actor in rest;
      if !ready[actor] {
        isEverybodyReady := false;
      }
      ListsMore(states, seen, actor, ready[actor]);
      states := states + [ActorReady(actor, ready[actor])];
      seen := seen[actor := ready[actor]];
      rest := rest - {actor};
    }
    assert seen == ready;
    update := Update(isEverybodyReady, states);
  }

  lemma ListsMore(states: seq<ActorReady>, ready: map<Actor, bool>, actor: Actor, isReady: bool)
    requires Lists(states, ready) && actor !in ready
    ensures Lists(states + [ActorReady(actor, isReady)], ready[actor := isReady])
    ensures EverybodyReady(states + [ActorReady(actor, isReady)]) == (EverybodyReady(states) && isReady)
  {
    var more := states + [ActorReady(actor, isReady)];
    assert forall e :: e in more <==> e in states || e == ActorReady(actor, isReady);
    assert ActorReady(actor, isReady) in more;
    forall i | 0 <= i < |states| ensures states[i].actor != actor {
      assert states[i] in states;
    }
  }

  /** The update is sent; with everybody ready no further update is accepted. */
  function Announced(shared: Shared, update: Update): Shared {
    var told := shared.(events := shared.events + [Sent(update)]);
    if !update.isEverybodyReady then told
    else told.(accepting := false, events := told.events + [Decided(AllReady)])
  }

  /** The first error before a decision is the decision. */
  function Recorded(shared: Shared, e: Error): Shared {
    if !shared.accepting || shared.originalErr.Some? then shared
    else Shared(false, Some(e), shared.events + [Decided(Failed(e))])
  }

  /** The shared fields; each method is a section under modeMutex, up to the wait for the reader of
      done, whose need is returned. */
  class Awaiter {
    var readyStates: map<Actor, bool>
    var isAcceptingReadyStateUpdates: bool
    var originalErr: Option<Error>
    var events: seq<Event>

    function State(): Shared
      reads this
    {
      Shared(isAcceptingReadyStateUpdates, originalErr, events)
    }

    constructor (actors: seq<Actor>)
      ensures readyStates == map a <- actors :: false
      ensures State() == Shared(true, None, [])
    {
      readyStates := map a <- actors :: false;
      isAcceptingReadyStateUpdates, originalErr, events := true, None, [];
    }

    /** areYouReadyForActor keeps the last word of its actor. */
    method StoreReadyState(actor: Actor, isReady: bool)
      modifies this`readyStates
      ensures readyStates == old(readyStates)[actor := isReady]
    {
      readyStates := readyStates[actor := isReady];
    }

    /** A late update is dropped; otherwise one update that lists all states is sent, and it decides
        exactly when everybody is ready. */
    method HandleReadyStateUpdate() returns (decides: bool)
      modifies this`isAcceptingReadyStateUpdates, this`events
      ensures !old(isAcceptingReadyStateUpdates) ==> State() == old(State()) && !decides
      ensures old(isAcceptingReadyStateUpdates) ==> exists states ::
        && Lists(states, readyStates) && decides == EverybodyReady(states)
        && isAcceptingReadyStateUpdates == !decides
        && events == old(events) + [Sent(Update(decides, states))] + (if decides then [Decided(AllReady)] else [])
        && State() == Announced(old(State()), Update(decides, states))
    {
      if !isAcceptingReadyStateUpdates {
        return false;
      }
      var update := BuildUpdate(readyStates);
      events := events + [Sent(update)];
      if update.isEverybodyReady {
        isAcceptingReadyStateUpdates := false;
        events := events + [Decided(AllReady)];
      }
      assert events == old(events) + [Sent(update)] + (if update.isEverybodyReady then [Decided(AllReady)] else []);
      assert update == Update(EverybodyReady(update.states), update.states);
      return update.isEverybodyReady;
    }

    method HandleError(e: Error) returns (decides: bool)
      modifies this`isAcceptingReadyStateUpdates, this`originalErr, this`events
      ensures originalErr == if decides then Some(e) else old(originalErr)
      ensures isAcceptingReadyStateUpdates == (old(isAcceptingReadyStateUpdates) && !decides)
      ensures events == old(events) + if decides then [Decided(Failed(e))] else []
      ensures State() == Recorded(old(State()), e)
      ensures decides == (old(isAcceptingReadyStateUpdates) && old(originalErr).None?)
    {
      if !isAcceptingReadyStateUpdates || originalErr.Some? {
        return false;
      }
      originalErr := Some(e);
      isAcceptingReadyStateUpdates := false;
      events := events + [Decided(Failed(e))];
      return true;
    }
  }

  /** The end of registration and the waiting goroutine. */
  function MainStep(s: State, a: Action): Option<State> {
    match a
    case Register =>
      if s.main != Registering || |s.handlers| >= |s.actors| then None
      else
        Some(s.(ready := s.ready[s.actors[|s.handlers|] := false],
                handlers := s.handlers + [Handler(Subscribed, [])]))
    case EndRegistration =>
      if s.main != Registering || |s.handlers| < |s.actors| then None else Some(s.(main := Waiting))
    case ContextDone =>
      if s.main != Waiting then None else Some(s.(main := Returned(Aborted), isCancelled := true))
    case CancelRequests =>
      if s.main != DoneReceived then None else Some(s.(main := Reading, isCancelled := true))
    case ReadError =>
      if s.main != Reading then None
      else
        Some(s.(main := Returned(if s.shared.originalErr.Some? then Failure(s.shared.originalErr.value) else Nil)))
    case _ => None
  }

  /** What a handler does on its own; `lock` tells whether modeMutex is free. */
  function HandlerStep(h: Handler, shared: Shared, lock: bool, s: State, a: Action): Option<(Handler, Shared)> {
    match a
    case SendRequest(i, isSent) =>
      if h.place != Subscribed then None
      else if isSent then Some((Handler(Listening, h.sent + [AreYouReady]), shared))
      else Some((h.(place := Leaving(RequestNotSent(i))), shared))
    case Receive(_, _) =>
      if h.place != Listening || s.main == Registering then None else Some((h.(place := Stored), shared))
    case Quit(_) =>
      if h.place != Listening then None else Some((h.(place := Gone), shared))
    case BeginUpdate(_, states) =>
      if h.place != Stored || !lock then None
      else if !shared.accepting then Some((h.(place := Listening), shared))
      else if s.main == Registering || !Lists(states, s.ready) then None
      else Some((h.(place := Updating(Update(EverybodyReady(states), states))), shared))
    case SendUpdate(_) =>
      if !h.place.Updating? then None
      else
        Some((h.(place := if h.place.update.isEverybodyReady then Deciding(true) else Listening),
              Announced(shared, h.place.update)))
    case SendAccepted(i, isSent) =>
      if h.place != Listening || !s.isCancelled then None
      else
        Some((Handler(Leaving(AfterAccepted(i, isSent)), h.sent + if isSent then [ReadyAccepted] else []), shared))
    case BeginError(_) =>
      if !h.place.Leaving? || !lock then None
      else if !shared.accepting || shared.originalErr.Some? then Some((h.(place := Gone), shared))
      else
        Some((h.(place := Deciding(false)), Recorded(shared, h.place.error)))
    case Rendezvous(_) =>
      if !h.place.Deciding? || s.main != Waiting then None else Some((Released(h), shared))
    case GiveUp(_) =>
      if !h.place.Deciding? || !s.isCancelled then None else Some((Released(h), shared))
    case _ => None
  }

  function Released(h: Handler): Handler
    requires h.place.Deciding?
  {
    h.(place := if h.place.goesOn then Listening else Gone)
  }

  predicate IsMainAction(a: Action) {
    a.Register? || a.EndRegistration? || a.ContextDone? || a.CancelRequests? || a.ReadError?
  }

  function Step(s: State, a: Action): Option<State> {
    if IsMainAction(a) then MainStep(s, a)
    else if a.handler >= |s.handlers| then None
    else
      match HandlerStep(s.handlers[a.handler], s.shared, ModeFree(s.handlers), s, a)
      case None => None
      case Some((h, shared)) =>
        Some(s.(handlers := s.handlers[a.handler := h],
                shared := shared,
                ready := if a.Receive? && a.handler < |s.actors|
                         then s.ready[s.actors[a.handler] := a.isReady]
                         else s.ready,
                main := if a.Rendezvous? then DoneReceived else s.main))
  }

  // ---------- what every run keeps ----------

  function Listed(states: seq<ActorReady>): set<Actor> {
    set e <- states :: e.actor
  }

  function Requested(actors: seq<Actor>): set<Actor> {
    set a <- actors
  }

  predicate Accurate(u: Update, actors: seq<Actor>) {
    && u.isEverybodyReady == EverybodyReady(u.states)
    && (forall i, j :: 0 <= i < j < |u.states| ==> u.states[i].actor != u.states[j].actor)
    && Listed(u.states) == Requested(actors)
  }

  /** Only the last event can be the decision, and an update with everybody ready is followed by it. */
  predicate EventsInv(sh: Shared, actors: seq<Actor>) {
    var n := |sh.events|;
    && (forall k :: 0 <= k < n - 1 ==> !sh.events[k].Decided?)
    && (sh.accepting <==> n == 0 || sh.events[n - 1].Sent?)
    && (forall k :: 0 <= k < n && sh.events[k].Sent? ==>
          && Accurate(sh.events[k].update, actors)
          && (sh.events[k].update.isEverybodyReady ==> k == n - 2 && sh.events[n - 1] == Decided(AllReady)))
    && (n > 0 && sh.events[n - 1] == Decided(AllReady) ==>
          n > 1 && sh.events[n - 2].Sent? && sh.events[n - 2].update.isEverybodyReady)
    && sh.originalErr == (if n > 0 && sh.events[n - 1].Decided? && sh.events[n - 1].decision.Failed?
                          then Some(sh.events[n - 1].decision.error) else None)
  }

  /** What a handler's invariant says about the rest of the state. */
  datatype View = View(actors: seq<Actor>, isRegistered: bool, isCancelled: bool, accepting: bool, failed: bool)

  function ViewOf(s: State): View {
    View(s.actors, s.main != Registering, s.isCancelled, s.shared.accepting, s.shared.originalErr.Some?)
  }

  predicate HandlerInv(h: Handler, v: View) {
    && h.sent <= [AreYouReady, ReadyAccepted]
    && (h.sent == [AreYouReady, ReadyAccepted] ==>
          v.isCancelled && (h.place.Leaving? || h.place.Gone? || h.place == Deciding(false)))
    && match h.place
       case Subscribed => h.sent == []
       case Listening => h.sent == [AreYouReady]
       case Stored => h.sent == [AreYouReady] && v.isRegistered
       case Updating(u) => h.sent == [AreYouReady] && v.accepting && v.isRegistered && Accurate(u, v.actors)
       case Deciding(goesOn) => !v.accepting && (goesOn ==> !v.failed && h.sent == [AreYouReady])
       case Leaving(e) => e.AfterAccepted? ==> v.isCancelled
       case Gone => true
  }

  /** Another handler's section, or the main goroutine, only moves the view forward. */
  predicate Later(v: View, w: View, h: Handler) {
    && w.actors == v.actors
    && (v.isRegistered ==> w.isRegistered)
    && (v.isCancelled ==> w.isCancelled)
    && (w.accepting ==> v.accepting)
    && (!v.accepting ==> w.failed == v.failed)
    && (h.place.Updating? ==> w.accepting == v.accepting)
  }

  lemma LaterKeepsHandler(h: Handler, v: View, w: View)
    requires HandlerInv(h, v) && Later(v, w, h)
    ensures HandlerInv(h, w)
  {
  }

  predicate MainInv(s: State) {
    && |s.handlers| <= |s.actors|
    && (s.main != Registering ==> |s.handlers| == |s.actors|)
    && s.ready.Keys == Requested(s.actors[..|s.handlers|])
    && (s.isCancelled <==> s.main.Reading? || s.main.Returned?)
    && (s.main.DoneReceived? || s.main.Reading? ==> !s.shared.accepting)
    && (s.main.Returned? ==>
          match s.main.result
          case Nil => !s.shared.accepting && s.shared.originalErr.None?
          case Failure(e) => !s.shared.accepting && s.shared.originalErr == Some(e)
          case Aborted => true)
    && (s.main != Returned(Aborted) && s.shared.originalErr.Some? ==> s.shared.originalErr.value.RequestNotSent?)
  }

  predicate Exclusive(handlers: seq<Handler>) {
    forall i, j :: 0 <= i < j < |handlers| ==> !(Holds(handlers[i]) && Holds(handlers[j]))
  }

  predicate Inv(s: State) {
    && MainInv(s)
    && EventsInv(s.shared, s.actors)
    && Exclusive(s.handlers)
    && forall h <- s.handlers :: HandlerInv(h, ViewOf(s))
  }

  lemma ListsIsAccurate(states: seq<ActorReady>, s: State)
    requires MainInv(s) && s.main != Registering && Lists(states, s.ready)
    ensures Accurate(Update(EverybodyReady(states), states), s.actors)
  {
    assert s.actors[..|s.handlers|] == s.actors;
    forall a | a in Listed(states) ensures a in s.ready {
    }
    forall a | a in s.ready ensures a in Listed(states) {
      assert ActorReady(a, s.ready[a]) in states;
    }
  }

  lemma SentKeepsEvents(sh: Shared, u: Update, actors: seq<Actor>)
    requires EventsInv(sh, actors) && sh.accepting && Accurate(u, actors)
    ensures EventsInv(Announced(sh, u), actors)
  {
  }

  lemma ErrorKeepsEvents(sh: Shared, e: Error, actors: seq<Actor>)
    requires EventsInv(sh, actors) && sh.accepting
    ensures EventsInv(Recorded(sh, e), actors)
  {
  }

  /** One section of one handler. */
  lemma HandlerStepKeeps(h: Handler, s: State, a: Action)
    requires MainInv(s) && EventsInv(s.shared, s.actors) && HandlerInv(h, ViewOf(s)) && !IsMainAction(a)
    requires HandlerStep(h, s.shared, ModeFree(s.handlers), s, a).Some?
    ensures var (k, shared) := HandlerStep(h, s.shared, ModeFree(s.handlers), s, a).value;
      && EventsInv(shared, s.actors)
      && HandlerInv(k, ViewOf(s).(accepting := shared.accepting, failed := shared.originalErr.Some?))
      && (shared != s.shared ==> ModeFree(s.handlers) || h.place.Updating?)
      && (shared.accepting ==> s.shared.accepting)
      && (shared.accepting == s.shared.accepting ==> shared.originalErr == s.shared.originalErr)
      && (shared.originalErr != s.shared.originalErr ==>
            shared.originalErr.Some? && (shared.originalErr.value.AfterAccepted? ==> s.isCancelled))
      && (Holds(k) ==> ModeFree(s.handlers) || Holds(h))
  {
    match a
    case BeginUpdate(_, states) =>
      if s.shared.accepting {
        ListsIsAccurate(states, s);
      }
    case SendUpdate(_) => SentKeepsEvents(s.shared, h.place.update, s.actors);
    case BeginError(_) =>
      if s.shared.accepting {
        ErrorKeepsEvents(s.shared, h.place.error, s.actors);
      }
    case _ =>
  }

  lemma HandlerActionKeepsMain(s: State, a: Action)
    requires Inv(s) && !IsMainAction(a) && Step(s, a).Some?
    ensures MainInv(Step(s, a).value)
  {
    var h := s.handlers[a.handler];
    assert h in s.handlers;
    HandlerStepKeeps(h, s, a);
    assert s.actors[a.handler] in s.actors[..|s.handlers|];
    assert a.Rendezvous? ==> h.place.Deciding?;
  }

  lemma HandlerActionKeepsInv(s: State, a: Action)
    requires Inv(s) && !IsMainAction(a) && Step(s, a).Some?
    ensures Inv(Step(s, a).value)
  {
    var n := Step(s, a).value;
    var i := a.handler;
    assert s.handlers[i] in s.handlers;
    HandlerActionKeepsMain(s, a);
    HandlerStepKeeps(s.handlers[i], s, a);
    forall j | 0 <= j < |s.handlers| && j != i
      ensures HandlerInv(n.handlers[j], ViewOf(n)) && (Holds(n.handlers[i]) ==> !Holds(n.handlers[j]))
    {
      assert s.handlers[j] in s.handlers;
      LaterKeepsHandler(s.handlers[j], ViewOf(s), ViewOf(n));
    }
  }

  lemma StepKeepsInv(s: State, a: Action)
    requires Inv(s) && Step(s, a).Some?
    ensures Inv(Step(s, a).value)
  {
    if IsMainAction(a) {
      var n := Step(s, a).value;
      if a.Register? {
        assert s.actors[..|s.handlers| + 1] == s.actors[..|s.handlers|] + [s.actors[|s.handlers|]];
      }
      forall h | h in n.handlers ensures HandlerInv(h, ViewOf(n)) {
        if h in s.handlers {
          LaterKeepsHandler(h, ViewOf(s), ViewOf(n));
        }
      }
    } else {
      HandlerActionKeepsInv(s, a);
    }
  }

  lemma {:induction false} RunsKeepInv(actors: seq<Actor>, actions: seq<Action>)
    requires actors != []
    ensures var r := Run(Step, Start(actors), actions); r.Some? ==> Inv(r.value) && r.value.actors == actors
  {
    var inv := (s: State) => Inv(s) && s.actors == actors;
    forall t, a | inv(t) && Step(t, a).Some? ensures inv(Step(t, a).value) { StepKeepsInv(t, a); }
    RunKeeps(Step, inv, Start(actors), actions);
  }

  // ---------- the results, for every run ----------

  /** At most one decision is taken, nothing is sent after it, and an update that reports everybody
      ready occurs at most once, as the last update, followed by its decision. */
  lemma {:induction false} OneDecision(actors: seq<Actor>, actions: seq<Action>)
    requires actors != []
    ensures var r := Run(Step, Start(actors), actions);
      r.Some? ==>
        var events := r.value.shared.events;
        && (forall k :: 0 <= k < |events| - 1 ==> !events[k].Decided?)
        && (forall k :: 0 <= k < |events| && events[k].Sent? && events[k].update.isEverybodyReady ==>
              events[k..] == [events[k]] + [Decided(AllReady)])
        && (forall k :: 0 <= k < |events| && events[k] == Decided(AllReady) ==>
              k > 0 && events[k - 1].Sent? && events[k - 1].update.isEverybodyReady)
  {
    RunsKeepInv(actors, actions);
  }

  /** The update that an action sends. */
  function Sends(s: State, a: Action): seq<Update> {
    if a.SendUpdate? && a.handler < |s.handlers| && s.handlers[a.handler].place.Updating?
    then [s.handlers[a.handler].place.update]
    else []
  }

  function SentIn(s: State, actions: seq<Action>): seq<Update> {
    if actions == [] then []
    else
      var before := actions[..|actions| - 1];
      var r := Run(Step, s, before);
      SentIn(s, before) + if r.Some? then Sends(r.value, actions[|actions| - 1]) else []
  }

  function SentOf(events: seq<Event>): seq<Update> {
    if events == [] then []
    else
      var last := events[|events| - 1];
      SentOf(events[..|events| - 1]) + if last.Sent? then [last.update] else []
  }

  lemma StepSends(s: State, a: Action)
    requires Step(s, a).Some?
    ensures SentOf(Step(s, a).value.shared.events) == SentOf(s.shared.events) + Sends(s, a)
  {
    var t := Step(s, a).value;
    var events := s.shared.events;
    if t.shared.events != events {
      var told := t.shared.events[..|events| + 1];
      assert told[..|events|] == events;
      assert t.shared.events == told || t.shared.events[..|events| + 1] == told;
    }
  }

  /** In every interleaving exactly the updates that the handlers have collected are sent, in order. */
  lemma {:induction false} UpdatesAreSent(s: State, actions: seq<Action>)
    requires Run(Step, s, actions).Some?
    ensures SentOf(Run(Step, s, actions).value.shared.events) == SentOf(s.shared.events) + SentIn(s, actions)
  {
    if actions != [] {
      var before := actions[..|actions| - 1];
      UpdatesAreSent(s, before);
      StepSends(Run(Step, s, before).value, actions[|actions| - 1]);
    }
  }

  /** Every update lists each requested actor once and no other, and reports everybody ready exactly
      when each listed actor is. */
  lemma {:induction false} UpdatesListRequestedActors(actors: seq<Actor>, actions: seq<Action>)
    requires actors != []
    ensures var r := Run(Step, Start(actors), actions);
      r.Some? ==> forall k :: 0 <= k < |r.value.shared.events| && r.value.shared.events[k].Sent? ==>
        Accurate(r.value.shared.events[k].update, actors)
  {
    RunsKeepInv(actors, actions);
  }

  lemma AccurateListsAll(u: Update, actors: seq<Actor>, a: Actor)
    requires Accurate(u, actors) && u.isEverybodyReady && a in actors
    ensures ActorReady(a, true) in u.states
  {
    assert a in Requested(actors);
    assert a in Listed(u.states);
    var e :| e in u.states && e.actor == a;
    assert e.isReady;
  }

  /** Nil is returned only on a decision whose snapshot had every requested actor ready, and then no
      error is recorded, now or later. A returned error is a request that could not be sent. */
  lemma {:induction false} ResultsAreDecided(actors: seq<Actor>, actions: seq<Action>)
    requires actors != []
    ensures var r := Run(Step, Start(actors), actions);
      r.Some? && r.value.main.Returned? ==>
        var events := r.value.shared.events;
        match r.value.main.result
        case Nil =>
          && r.value.shared.originalErr.None?
          && |events| > 1 && events[|events| - 1] == Decided(AllReady) && events[|events| - 2].Sent?
          && (forall a <- actors :: ActorReady(a, true) in events[|events| - 2].update.states)
        case Failure(e) =>
          && e.RequestNotSent?
          && events != [] && events[|events| - 1] == Decided(Failed(e))
        case Aborted => true
  {
    RunsKeepInv(actors, actions);
    var r := Run(Step, Start(actors), actions);
    if r.Some? && r.value.main == Returned(Nil) {
      var events := r.value.shared.events;
      var states := events[|events| - 2].update.states;
      forall a | a in actors ensures ActorReady(a, true) in states {
        AccurateListsAll(events[|events| - 2].update, actors, a);
      }
    }
  }

  /** Each handler sends a prefix of [AreYouReady, ReadyAccepted], and ReadyAccepted only after a
      decision or the abort. */
  lemma {:induction false} HandlersSendPrefixes(actors: seq<Actor>, actions: seq<Action>)
    requires actors != []
    ensures var r := Run(Step, Start(actors), actions);
      r.Some? ==> forall h <- r.value.handlers ::
        && h.sent <= [AreYouReady, ReadyAccepted]
        && (ReadyAccepted in h.sent ==> !r.value.shared.accepting || r.value.main == Returned(Aborted))
  {
    RunsKeepInv(actors, actions);
    var r := Run(Step, Start(actors), actions);
    if r.Some? {
      forall h | h in r.value.handlers && ReadyAccepted in h.sent
        ensures !r.value.shared.accepting || r.value.main == Returned(Aborted)
      {
        assert HandlerInv(h, ViewOf(r.value));
      }
    }
  }
}
