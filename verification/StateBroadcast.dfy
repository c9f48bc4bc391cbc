/** The fixture state broadcaster: notifications are coalesced, a publication reads the fixtures one
    by one and is sent when somebody receives it. All interleavings of changes, notifications, the
    publishing loop and its reader, from before the loop runs until cancellation. */
module StateBroadcast {
  import opened Runs

  type FixtureID = nat

  /** The number of changes made to each fixture; a reading is what a publication shows of them. */
  type Versions = map<FixtureID, nat>

  datatype Loop =
    | Receiving
    | Buffering
    | Snapshotting(reading: Versions)
    | Publishing(snapshot: Versions)

  /** `waiting` notifiers have set isPublishing and wait for the loop to receive. `noticed` is what
      the fixtures were when somebody last notified a running broadcaster. */
  datatype State = State(
    current: Versions,
    isRunning: bool,
    isPublishing: bool,
    waiting: nat,
    loop: Loop,
    noticed: Versions,
    published: Option<Versions>,
    notifications: nat,
    publications: nat)

  /** Until the first notification nothing is owed to anybody. */
  function Init(fixtures: set<FixtureID>): State {
    var untouched := map f | f in fixtures :: 0;
    State(untouched, false, false, 0, Receiving, untouched, None, 0, 0)
  }

  datatype Action =
    | StartLoop
    | Change(fixture: FixtureID)
    | Notify
    | ReceiveRequest
    | TimerFires
    | ReadFixture(fixture: FixtureID)
    | OfferSnapshot
    | TakeSnapshot

  /** What HandleFixtureStateUpdated makes of isPublishing, and whether it goes on to wait for the
      loop: not before the loop runs, and not while a request is there already. */
  function Notified(isRunning: bool, isPublishing: bool): (bool, bool) {
    (isPublishing || isRunning, isRunning && !isPublishing)
  }

  /** The fields under isPublishingMutex. */
  class FixtureStateBroadcaster {
    var isRunning: bool
    var isPublishing: bool

    constructor ()
      ensures !isRunning && !isPublishing
    {
      isRunning, isPublishing := false, false;
    }

    method Start()
      modifies this`isRunning
      ensures isRunning
    {
      isRunning := true;
    }

    method HandleFixtureStateUpdated() returns (requests: bool)
      modifies this`isPublishing
      ensures requests == (isRunning && !old(isPublishing)) && isPublishing == (isRunning || old(isPublishing))
      ensures (isPublishing, requests) == Notified(isRunning, old(isPublishing))
    {
      if !isRunning {
        return false;
      }
      if isPublishing {
        return false;
      }
      isPublishing := true;
      return true;
    }

    /** The reset at the beginning of publish: later notifications request another publication. */
    method ResetPublishing()
      modifies this`isPublishing
      ensures !isPublishing && Notified(true, isPublishing).1
    {
      isPublishing := false;
    }
  }

  function Step(s: State, a: Action): Option<State> {
    match a
    case StartLoop =>
      if s.isRunning then None else Some(s.(isRunning := true))
    case Change(f) =>
      if f !in s.current then None else Some(s.(current := s.current[f := s.current[f] + 1]))
    case Notify =>
      // the critical section of HandleFixtureStateUpdated
      var (isPublishing, requests) := Notified(s.isRunning, s.isPublishing);
      var told := if s.isRunning then s.(notifications := s.notifications + 1, noticed := s.current) else s;
      Some(told.(isPublishing := isPublishing, waiting := s.waiting + if requests then 1 else 0))
    case ReceiveRequest =>
      if !s.isRunning || s.loop != Receiving || s.waiting == 0 then None
      else Some(s.(waiting := s.waiting - 1, loop := Buffering))
    case TimerFires =>
      // publish resets isPublishing before the fixtures are read
      if s.loop != Buffering then None else Some(s.(isPublishing := false, loop := Snapshotting(map[])))
    case ReadFixture(f) =>
      if !s.loop.Snapshotting? || f !in s.current || f in s.loop.reading then None
      else Some(s.(loop := Snapshotting(s.loop.reading[f := s.current[f]])))
    case OfferSnapshot =>
      if !s.loop.Snapshotting? || s.loop.reading.Keys != s.current.Keys then None
      else Some(s.(loop := Publishing(s.loop.reading)))
    case TakeSnapshot =>
      if !s.loop.Publishing? then None
      else
        Some(s.(loop := Receiving, published := Some(s.loop.snapshot), publications := s.publications + 1))
  }

  // ---------- what every run keeps ----------

  /** On the fixtures it shows, a reading is not behind `noticed` and not ahead of `current`. */
  predicate Between(noticed: Versions, reading: Versions, current: Versions) {
    forall f <- reading :: f in noticed && f in current && noticed[f] <= reading[f] <= current[f]
  }

  /** The request tokens: waiting notifiers and the loop between receive and reset. */
  function Tokens(s: State): nat {
    s.waiting + if s.loop.Buffering? then 1 else 0
  }

  /** Every notification accepted so far leads to one publication. */
  function Underway(s: State): nat {
    Tokens(s) + if s.loop.Snapshotting? || s.loop.Publishing? then 1 else 0
  }

  /** isPublishing and the notifications account for the requests and the publications. */
  predicate TokenInv(s: State) {
    && (s.isPublishing <==> Tokens(s) == 1) && Tokens(s) <= 1
    && (!s.isRunning ==> s.loop == Receiving && Tokens(s) == 0)
    && s.publications + Underway(s) <= s.notifications
    && (s.published.None? ==> s.publications == 0)
  }

  /** What has been notified lies between the beginning and what is. */
  predicate NoticeInv(s: State) {
    s.noticed.Keys == s.current.Keys && Between(s.noticed, s.noticed, s.current)
  }

  /** The publication underway shows nothing that has not been; unless another is requested, it
      reflects every notified change as far as it has been read. */
  predicate LoopInv(s: State) {
    match s.loop
    case Receiving => true
    case Buffering => true
    case Snapshotting(reading) => ShowsNotice(s, reading)
    case Publishing(snapshot) => snapshot.Keys == s.current.Keys && ShowsNotice(s, snapshot)
  }

  predicate ShowsNotice(s: State, reading: Versions) {
    AtMost(reading, s.current) && (!s.isPublishing ==> Between(s.noticed, reading, s.current))
  }

  /** The same of the last publication, while nothing is underway. */
  predicate PublishedInv(s: State) {
    match s.published
    case None => s.loop.Receiving? && !s.isPublishing ==> s.notifications == 0
    case Some(last) =>
      && last.Keys == s.current.Keys && AtMost(last, s.current)
      && (s.loop.Receiving? && !s.isPublishing ==> Between(s.noticed, last, s.current))
  }

  predicate Inv(s: State) {
    TokenInv(s) && NoticeInv(s) && LoopInv(s) && PublishedInv(s)
  }

  predicate AtMost(reading: Versions, current: Versions) {
    forall f <- reading :: f in current && reading[f] <= current[f]
  }

  lemma StepKeepsTokens(s: State, a: Action)
    requires TokenInv(s) && Step(s, a).Some?
    ensures TokenInv(Step(s, a).value)
  {
  }

  lemma StepKeepsNotice(s: State, a: Action)
    requires NoticeInv(s) && Step(s, a).Some?
    ensures NoticeInv(Step(s, a).value)
  {
  }

  lemma StepKeepsLoop(s: State, a: Action)
    requires TokenInv(s) && NoticeInv(s) && LoopInv(s) && Step(s, a).Some?
    ensures LoopInv(Step(s, a).value)
  {
  }

  lemma StepKeepsPublished(s: State, a: Action)
    requires TokenInv(s) && NoticeInv(s) && LoopInv(s) && PublishedInv(s) && Step(s, a).Some?
    ensures PublishedInv(Step(s, a).value)
  {
  }

  lemma StepKeepsInv(s: State, a: Action)
    requires Inv(s) && Step(s, a).Some?
    ensures Inv(Step(s, a).value)
  {
    StepKeepsTokens(s, a);
    StepKeepsNotice(s, a);
    StepKeepsLoop(s, a);
    StepKeepsPublished(s, a);
  }

  lemma {:induction false} RunsKeepInv(fixtures: set<FixtureID>, actions: seq<Action>)
    ensures var r := Run(Step, Init(fixtures), actions); r.Some? ==> Inv(r.value)
  {
    forall t, a | Inv(t) && Step(t, a).Some? { StepKeepsInv(t, a); }
    RunKeeps(Step, Inv, Init(fixtures), actions);
  }

  /** isPublishing is set exactly while one request token exists, and there is never a second. */
  lemma {:induction false} OneRequestToken(fixtures: set<FixtureID>, actions: seq<Action>)
    ensures var r := Run(Step, Init(fixtures), actions);
      r.Some? ==> Tokens(r.value) == if r.value.isPublishing then 1 else 0
  {
    RunsKeepInv(fixtures, actions);
  }

  predicate Quiet(s: State) {
    s.loop == Receiving && s.waiting == 0
  }

  /** No update is lost: whenever the loop is idle and no notifier waits, the last publication shows
      every fixture at least as it was at the last notification; when no change is unnotified it
      shows exactly the current state. */
  lemma {:induction false} NoLostUpdates(fixtures: set<FixtureID>, actions: seq<Action>)
    ensures var r := Run(Step, Init(fixtures), actions);
      r.Some? && Quiet(r.value) && r.value.notifications > 0 ==>
        var s := r.value;
        && s.published.Some?
        && s.published.value.Keys == s.current.Keys
        && Between(s.noticed, s.published.value, s.current)
        && (s.noticed == s.current ==> s.published.value == s.current)
  {
    RunsKeepInv(fixtures, actions);
  }

  predicate Remembers(s: State, seen: Versions) {
    && Inv(s) && s.isRunning && s.notifications > 0
    && s.noticed.Keys == seen.Keys
    && forall f <- seen :: seen[f] <= s.noticed[f]
  }

  lemma StepRemembers(s: State, a: Action, seen: Versions)
    requires Remembers(s, seen) && Step(s, a).Some?
    ensures Remembers(Step(s, a).value, seen)
  {
    StepKeepsInv(s, a);
  }

  lemma NotifyRemembers(s: State)
    requires Inv(s) && s.isRunning
    ensures Remembers(Step(s, Notify).value, s.current)
  {
    StepKeepsInv(s, Notify);
  }

  lemma {:induction false} RunsRemember(s: State, more: seq<Action>, seen: Versions)
    requires Remembers(s, seen)
    ensures var r := Run(Step, s, more); r.Some? ==> Remembers(r.value, seen)
  {
    var inv := (t: State) => Remembers(t, seen);
    forall t, a | inv(t) && Step(t, a).Some? ensures inv(Step(t, a).value) { StepRemembers(t, a, seen); }
    RunKeeps(Step, inv, s, more);
  }

  /** Whatever a fixture was when a notification came in, every later idle moment finds a last
      publication that shows it at least as recent. */
  lemma {:induction false} EveryNotificationIsServed(fixtures: set<FixtureID>, actions: seq<Action>, more: seq<Action>)
    requires var s := Run(Step, Init(fixtures), actions); s.Some? && s.value.isRunning
    ensures var s := Run(Step, Init(fixtures), actions).value;
      var r := Run(Step, Step(s, Notify).value, more);
      r.Some? && Quiet(r.value) ==>
        && r.value.published.Some?
        && forall f <- s.current :: f in r.value.published.value && s.current[f] <= r.value.published.value[f]
  {
    RunsKeepInv(fixtures, actions);
    var s := Run(Step, Init(fixtures), actions).value;
    NotifyRemembers(s);
    RunsRemember(Step(s, Notify).value, more, s.current);
  }

  /** There are never more publications than notifications. */
  lemma {:induction false} PublicationsAreCoalesced(fixtures: set<FixtureID>, actions: seq<Action>)
    ensures var r := Run(Step, Init(fixtures), actions);
      r.Some? ==> r.value.publications <= r.value.notifications
  {
    RunsKeepInv(fixtures, actions);
  }

  // ---------- the loop can always catch up ----------

  /** What the loop and its reader do when nobody changes or notifies anything. */
  predicate ByLoop(actions: seq<Action>) {
    forall a <- actions ::
      a.ReceiveRequest? || a.TimerFires? || a.ReadFixture? || a.OfferSnapshot? || a.TakeSnapshot?
  }

  /** A publication of this snapshot has been taken, and the loop receives again. */
  function Taken(s: State, snapshot: Versions): State {
    s.(loop := Receiving, published := Some(snapshot), publications := s.publications + 1)
  }

  lemma StepFirst(s: State, a: Action, t: State, more: seq<Action>)
    requires Step(s, a) == Some(t)
    ensures Run(Step, s, [a] + more) == Run(Step, t, more)
  {
    RunOne(Step, s, a);
    RunConcat(Step, s, [a], more);
  }

  /** What is not read yet will be read as it is. */
  lemma {:induction false} FinishesReading(s: State, reading: Versions, rest: set<FixtureID>)
    returns (more: seq<Action>)
    requires s.loop == Snapshotting(reading) && reading.Keys + rest == s.current.Keys && reading.Keys !! rest
    ensures ByLoop(more) && Run(Step, s, more) == Some(Taken(s, s.current + reading))
    decreases rest
  {
    if rest == {} {
      ReadingIsComplete(s.current, reading);
      OffersReading(s, reading);
      return [OfferSnapshot, TakeSnapshot];
    }
    var f :| f in rest;
    var t, longer := ReadsNext(s, reading, f);
    var after := FinishesReading(t, longer, rest - {f});
    StepFirst(s, ReadFixture(f), t, after);
    more := [ReadFixture(f)] + after;
  }

  lemma ReadsNext(s: State, reading: Versions, f: FixtureID) returns (t: State, longer: Versions)
    requires s.loop == Snapshotting(reading) && f in s.current && f !in reading
    ensures longer.Keys == reading.Keys + {f} && s.current + longer == s.current + reading
    ensures t.loop == Snapshotting(longer) && t.current == s.current && Step(s, ReadFixture(f)) == Some(t)
    ensures forall snapshot :: Taken(t, snapshot) == Taken(s, snapshot)
  {
    longer := reading[f := s.current[f]];
    t := s.(loop := Snapshotting(longer));
  }

  lemma OffersReading(s: State, reading: Versions)
    requires s.loop == Snapshotting(reading) && reading.Keys == s.current.Keys
    ensures Run(Step, s, [OfferSnapshot, TakeSnapshot]) == Some(Taken(s, reading))
  {
    RunTwo(Step, s, OfferSnapshot, TakeSnapshot);
  }

  lemma ReadingIsComplete(current: Versions, reading: Versions)
    requires reading.Keys == current.Keys
    ensures current + reading == reading
  {
  }

  lemma NothingRead(current: Versions)
    ensures current + map[] == current
  {
  }

  lemma ServesRequest(s: State) returns (more: seq<Action>)
    requires s.isRunning && s.loop.Receiving? && s.waiting > 0
    ensures ByLoop(more)
    ensures Run(Step, s, more) == Some(Taken(s.(waiting := s.waiting - 1, isPublishing := false), s.current))
  {
    var t := s.(waiting := s.waiting - 1, loop := Buffering);
    var rest := ServesBuffered(t);
    StepFirst(s, ReceiveRequest, t, rest);
    more := [ReceiveRequest] + rest;
  }

  lemma ServesBuffered(s: State) returns (more: seq<Action>)
    requires s.loop.Buffering?
    ensures ByLoop(more) && Run(Step, s, more) == Some(Taken(s.(isPublishing := false), s.current))
  {
    var t := s.(isPublishing := false, loop := Snapshotting(map[]));
    var rest := FinishesReading(t, map[], s.current.Keys);
    NothingRead(s.current);
    StepFirst(s, TimerFires, t, rest);
    more := [TimerFires] + rest;
  }

  /** From every reachable state of a running broadcaster its loop can become idle on its own; if a
      request was there, it then has published everything as it is. */
  lemma {:induction false} CanCatchUp(fixtures: set<FixtureID>, actions: seq<Action>) returns (more: seq<Action>)
    requires var r := Run(Step, Init(fixtures), actions); r.Some? && r.value.isRunning
    ensures ByLoop(more)
    ensures var s := Run(Step, Init(fixtures), actions).value; var r := Run(Step, s, more);
      && r.Some? && Quiet(r.value) && r.value.current == s.current && r.value.noticed == s.noticed
      && (s.isPublishing ==> r.value.published == Some(s.current))
  {
    RunsKeepInv(fixtures, actions);
    var s := Run(Step, Init(fixtures), actions).value;
    match s.loop
    case Receiving =>
      more := [];
      if s.waiting > 0 {
        more := ServesRequest(s);
      }
    case Buffering =>
      more := ServesBuffered(s);
    case Snapshotting(reading) =>
      more := FinishesReading(s, reading, s.current.Keys - reading.Keys);
      more := ServesNext(s, more, s.current + reading);
    case Publishing(snapshot) =>
      RunOne(Step, s, TakeSnapshot);
      more := ServesNext(s, [TakeSnapshot], snapshot);
  }

  /** After the publication underway a waiting request is served. */
  lemma ServesNext(s: State, first: seq<Action>, snapshot: Versions) returns (more: seq<Action>)
    requires TokenInv(s) && s.isRunning && !s.loop.Buffering?
    requires ByLoop(first) && Run(Step, s, first) == Some(Taken(s, snapshot))
    ensures ByLoop(more)
    ensures var r := Run(Step, s, more);
      && r.Some? && Quiet(r.value) && r.value.current == s.current && r.value.noticed == s.noticed
      && (s.isPublishing ==> r.value.published == Some(s.current))
  {
    if s.waiting == 0 {
      return first;
    }
    more := ServesRequest(Taken(s, snapshot));
    RunConcat(Step, s, first, more);
    more := first + more;
  }
}
