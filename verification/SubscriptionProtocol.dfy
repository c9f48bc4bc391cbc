/** All interleavings of subscribing, handling messages one at a time, two-phase unsubscribing by
    any number of goroutines, and CancelAllSubscriptions. The write lock keeps sections that change
    the indexes out while a message is being handled; cancelling a lifetime needs the read lock only. */
module SubscriptionProtocol {
  import opened Runs
  import opened SubscriptionIndex

  datatype Message = Message(messageType: MessageType, content: string)

  /** Content number `message` was received through the subscription with this token. */
  datatype Delivery = Delivery(token: Token, message: nat)

  /** A goroutine in Unsubscribe. */
  datatype Caller = Caller(call: nat, token: Token)

  datatype Progress = Started | ShutDown | Finished(result: RemoveResult)

  /** The subscriptions that the handled message has not reached yet. */
  datatype Handling = Handling(message: nat, pending: seq<Subscription>, forwards: nat)

  /** Under the write lock: the indexes, every subscription ever issued, and the goroutines. */
  datatype Registry = Registry(index: Index, issued: map<Token, Subscription>, callers: map<Caller, Progress>)

  /** The messages, the returned counts of those completely handled, and all deliveries. */
  datatype Traffic = Traffic(
    handling: Option<Handling>,
    handled: seq<Message>,
    counts: seq<nat>,
    deliveries: seq<Delivery>)

  /** The number of messages completely handled when a subscription was made, shut down, removed. */
  datatype Times = Times(born: map<Token, nat>, shut: map<Token, nat>, removed: map<Token, nat>)

  datatype State = State(reg: Registry, traffic: Traffic, times: Times)

  const INIT := State(Registry(EMPTY_INDEX, map[], map[]), Traffic(None, [], [], []), Times(map[], map[], map[]))

  datatype Action =
    | SubscribeTo(messageType: MessageType)
    | BeginHandle(message: Message)
    | Forward(isTaken: bool)
    | EndHandle
    | Unsubscribe(call: nat, token: Token)
    | Cancel(caller: Caller)
    | RemoveFromIndex(caller: Caller)
    | CancelAll(call: nat)

  predicate IsFresh(r: Registry, call: nat) {
    forall c <- r.callers :: c.call != call
  }

  /** What an action does to the registry; `isLocked` while a message is being handled. */
  function RegistryStep(r: Registry, isLocked: bool, a: Action): Option<Registry> {
    match a
    case SubscribeTo(mt) =>
      if isLocked then None
      else
        var sub := NextSubscription(r.index, mt);
        Some(r.(index := Subscribe(r.index, mt), issued := r.issued[sub.token := sub]))
    case Unsubscribe(call, token) =>
      if token !in r.issued || !IsFresh(r, call) then None
      else Some(r.(callers := r.callers[Caller(call, token) := Started]))
    case Cancel(c) =>
      if c !in r.callers || r.callers[c] != Started then None
      else Some(r.(index := Shutdown(r.index, c.token), callers := r.callers[c := ShutDown]))
    case RemoveFromIndex(c) =>
      if isLocked || c !in r.callers || r.callers[c] != ShutDown || c.token !in r.issued then None
      else
        var (index, result) := Remove(r.index, r.issued[c.token]);
        Some(r.(index := index, callers := r.callers[c := Finished(result)]))
    case CancelAll(call) =>
      if isLocked || !IsFresh(r, call) then None
      else Some(r.(callers := r.callers + map t | t in r.index.byToken :: Caller(call, t) := Started))
    case _ => Some(r)
  }

  /** A subscriber takes the message, or it is dropped because the lifetime is over; while both are
      possible, either may happen. */
  function TrafficStep(x: Index, t: Traffic, a: Action): Option<Traffic> {
    match a
    case BeginHandle(m) =>
      if t.handling.Some? then None
      else Some(t.(handling := Some(Handling(|t.handled|, Listed(x, m.messageType), 0)), handled := t.handled + [m]))
    case Forward(isTaken) =>
      if t.handling.None? || t.handling.value.pending == [] then None
      else
        var Handling(message, pending, forwards) := t.handling.value;
        if isTaken then
          Some(t.(handling := Some(Handling(message, pending[1..], forwards + 1)),
                  deliveries := t.deliveries + [Delivery(pending[0].token, message)]))
        else if pending[0].token in x.done then Some(t.(handling := Some(Handling(message, pending[1..], forwards))))
        else None
    case EndHandle =>
      if t.handling.None? || t.handling.value.pending != [] then None
      else Some(t.(handling := None, counts := t.counts + [t.handling.value.forwards]))
    case _ => Some(t)
  }

  function NextTimes(times: Times, before: Registry, after: Registry, now: nat): Times {
    Times(
      map t | t in after.issued.Keys + times.born.Keys :: if t in times.born then times.born[t] else now,
      map t | t in after.index.done + times.shut.Keys :: if t in times.shut then times.shut[t] else now,
      map t | t in (before.index.byToken.Keys - after.index.byToken.Keys) + times.removed.Keys ::
        if t in times.removed then times.removed[t] else now)
  }

  function Step(s: State, a: Action): Option<State> {
    match (RegistryStep(s.reg, s.traffic.handling.Some?, a), TrafficStep(s.reg.index, s.traffic, a))
    case (Some(reg), Some(traffic)) => Some(State(reg, traffic, NextTimes(s.times, s.reg, reg, |s.traffic.counts|)))
    case _ => None
  }

  // ---------- the indexes ----------

  ghost predicate RegistryInv(r: Registry) {
    && Agree(r.index)
    && (forall t :: t in r.issued <==> 1 <= t <= r.index.counter)
    && (forall t <- r.issued :: r.issued[t].token == t)
    && (forall t <- r.index.byToken :: t in r.issued && r.issued[t] == r.index.byToken[t])
    && r.index.done <= r.issued.Keys
    && (forall c <- r.callers ::
          && c.token in r.issued
          && (r.callers[c] != Started ==> c.token in r.index.done)
          && (r.callers[c].Finished? ==> r.callers[c].result == Removed || r.callers[c].result == UnknownToken))
  }

  lemma RegistryStepKeepsInv(r: Registry, isLocked: bool, a: Action)
    requires RegistryInv(r) && RegistryStep(r, isLocked, a).Some?
    ensures RegistryInv(RegistryStep(r, isLocked, a).value)
  {
    match a
    case SubscribeTo(mt) => SubscribeKeepsAgreement(r.index, mt);
    case Cancel(c) => ShutdownKeepsAgreement(r.index, c.token);
    case RemoveFromIndex(c) => RemoveKeepsAgreement(r.index, r.issued[c.token]);
    case _ =>
  }

  /** This caller has removed the subscription. */
  predicate IsRemover(r: Registry, c: Caller, t: Token) {
    c in r.callers && c.token == t && r.callers[c] == Finished(Removed)
  }

  ghost predicate RemovedOnce(r: Registry, t: Token) {
    && (exists c :: IsRemover(r, c, t))
    && (forall c, d :: IsRemover(r, c, t) && IsRemover(r, d, t) ==> c == d)
  }

  /** Nobody finishes while the subscription is live, and exactly one caller has removed one that is
      not. */
  ghost predicate CallersInv(r: Registry) {
    && (forall c <- r.callers :: r.callers[c].Finished? ==> c.token !in r.index.byToken)
    && (forall t <- r.issued :: t !in r.index.byToken ==> RemovedOnce(r, t))
  }

  lemma StepKeepsRemoved(r: Registry, isLocked: bool, a: Action, t: Token)
    requires RegistryInv(r) && CallersInv(r) && RegistryStep(r, isLocked, a).Some?
    requires t in r.issued && t !in r.index.byToken
    ensures RemovedOnce(RegistryStep(r, isLocked, a).value, t)
  {
    var n := RegistryStep(r, isLocked, a).value;
    var c :| IsRemover(r, c, t);
    assert IsRemover(n, c, t);
    forall d, e | IsRemover(n, d, t) && IsRemover(n, e, t) ensures d == e {
      assert IsRemover(r, d, t) && IsRemover(r, e, t);
    }
  }

  lemma RemoveIsOnce(r: Registry, c: Caller)
    requires RegistryInv(r) && CallersInv(r) && RegistryStep(r, false, RemoveFromIndex(c)).Some?
    requires c.token in r.index.byToken
    ensures RemovedOnce(RegistryStep(r, false, RemoveFromIndex(c)).value, c.token)
  {
    var n := RegistryStep(r, false, RemoveFromIndex(c)).value;
    RemoveKeepsAgreement(r.index, r.issued[c.token]);
    assert IsRemover(n, c, c.token);
    forall d | IsRemover(n, d, c.token) ensures d == c {
      assert d == c || IsRemover(r, d, c.token);
    }
  }

  lemma StepKeepsCallers(r: Registry, isLocked: bool, a: Action)
    requires RegistryInv(r) && CallersInv(r) && RegistryStep(r, isLocked, a).Some?
    ensures CallersInv(RegistryStep(r, isLocked, a).value)
  {
    var n := RegistryStep(r, isLocked, a).value;
    if a.RemoveFromIndex? {
      RemoveKeepsAgreement(r.index, r.issued[a.caller.token]);
    }
    forall t | t in n.issued && t !in n.index.byToken ensures RemovedOnce(n, t) {
      RegistryStepOnToken(r, isLocked, a, t);
      if t in r.index.byToken {
        RemoveIsOnce(r, a.caller);
      } else {
        StepKeepsRemoved(r, isLocked, a, t);
      }
    }
    forall c | c in n.callers && n.callers[c].Finished? ensures c.token !in n.index.byToken {
      RegistryStepOnToken(r, isLocked, a, c.token);
    }
  }

  /** This caller has shut down the subscription. */
  predicate HasShutDown(r: Registry, c: Caller, t: Token) {
    c in r.callers && c.token == t && r.callers[c] != Started
  }

  /** Exactly the subscriptions from which somebody unsubscribes are shut down. */
  ghost predicate ShutInv(r: Registry) {
    forall t :: t in r.index.done <==> exists c :: HasShutDown(r, c, t)
  }

  lemma StepKeepsShut(r: Registry, isLocked: bool, a: Action)
    requires ShutInv(r) && RegistryStep(r, isLocked, a).Some?
    ensures ShutInv(RegistryStep(r, isLocked, a).value)
  {
    var n := RegistryStep(r, isLocked, a).value;
    forall t ensures t in n.index.done <==> exists c :: HasShutDown(n, c, t) {
      if c :| HasShutDown(r, c, t) {
        assert HasShutDown(n, c, t);
      } else {
        forall c | HasShutDown(n, c, t) ensures a == Cancel(c) {
          assert !HasShutDown(r, c, t);
        }
        assert a.Cancel? ==> HasShutDown(n, a.caller, a.caller.token);
      }
    }
  }

  /** In every interleaving exactly those subscriptions are shut down from which somebody has begun to
      unsubscribe and is past the first section. */
  lemma {:induction false} OnlyUnsubscribedAreShutDown(actions: seq<Action>, t: Token)
    ensures var r := Run(Step, INIT, actions);
      r.Some? ==> (t in r.value.reg.index.done <==> exists c :: HasShutDown(r.value.reg, c, t))
  {
    var inv := (s: State) => ShutInv(s.reg);
    forall s, a | inv(s) && Step(s, a).Some? ensures inv(Step(s, a).value) {
      StepKeepsShut(s.reg, s.traffic.handling.Some?, a);
    }
    RunKeeps(Step, inv, INIT, actions);
  }

  /** No action takes back a subscription or a shutdown, and only a caller past its shutdown removes;
      while a message is being handled the lists stand still. */
  lemma {:induction false} RegistryStepOnToken(r: Registry, isLocked: bool, a: Action, t: Token)
    requires RegistryInv(r) && RegistryStep(r, isLocked, a).Some?
    ensures var n := RegistryStep(r, isLocked, a).value;
      && (t in r.issued ==> t in n.issued && n.issued[t] == r.issued[t])
      && r.index.done <= n.index.done
      && (t in n.issued && t !in r.issued ==> t in n.index.byToken)
      && (t in n.index.byToken ==> t in n.issued && (t in r.issued ==> t in r.index.byToken))
      && (t in r.index.byToken && t !in n.index.byToken ==> t in r.index.done)
      && (isLocked ==> n.index.byType == r.index.byType && n.index.byToken == r.index.byToken)
  {
    match a
    case RemoveFromIndex(c) => RemoveKeepsAgreement(r.index, r.issued[c.token]);
    case _ =>
  }

  // ---------- the deliveries ----------

  predicate TokenTimes(s: State, t: Token) {
    && (t in s.times.born <==> t in s.reg.issued)
    && (t in s.times.shut <==> t in s.reg.index.done)
    && (t in s.times.removed <==> t in s.reg.issued && t !in s.reg.index.byToken)
    && (t in s.times.born ==> s.times.born[t] <= |s.traffic.counts|)
    && (t in s.times.shut ==> t in s.times.born && s.times.born[t] <= s.times.shut[t] <= |s.traffic.counts|)
    && (t in s.times.removed ==> t in s.times.shut && s.times.shut[t] <= s.times.removed[t] <= |s.traffic.counts|)
  }

  ghost predicate TimesInv(s: State) {
    forall t :: TokenTimes(s, t)
  }

  /** The message being handled is the last one. */
  predicate Numbered(t: Traffic) {
    match t.handling
    case None => |t.handled| == |t.counts|
    case Some(h) => h.message == |t.counts| && |t.handled| == |t.counts| + 1
  }

  /** What is pending is the rest of the list for the message being handled. */
  predicate PendingInv(x: Index, t: Traffic) {
    t.handling.Some? && t.handling.value.message < |t.handled| ==>
      var h := t.handling.value;
      IsSuffix(h.pending, Listed(x, t.handled[h.message].messageType))
  }

  predicate IsSuffix(rest: seq<Subscription>, all: seq<Subscription>) {
    |rest| <= |all| && rest == all[|all| - |rest|..]
  }

  predicate HandlingInv(x: Index, t: Traffic) {
    Numbered(t) && PendingInv(x, t)
  }

  /** A message of the right type, handled after the subscription was made and before it was
      removed. */
  predicate Rightful(s: State, d: Delivery) {
    && d.token in s.reg.issued && d.token in s.times.born
    && s.times.born[d.token] <= d.message < |s.traffic.handled|
    && s.traffic.handled[d.message].messageType == s.reg.issued[d.token].messageType
    && (d.token in s.times.removed ==> d.message < s.times.removed[d.token])
  }

  /** A message of the right type, completely handled after the subscription was made and before it
      was shut down. */
  predicate Owed(s: State, d: Delivery) {
    && d.token in s.reg.issued && d.token in s.times.born
    && s.times.born[d.token] <= d.message < |s.traffic.counts| <= |s.traffic.handled|
    && s.traffic.handled[d.message].messageType == s.reg.issued[d.token].messageType
    && (d.token in s.times.shut ==> d.message < s.times.shut[d.token])
  }

  predicate InOrder(deliveries: seq<Delivery>) {
    forall p, q :: 0 <= p < q < |deliveries| && deliveries[p].token == deliveries[q].token ==>
      deliveries[p].message < deliveries[q].message
  }

  ghost predicate DeliveryInv(s: State) {
    && (forall d <- s.traffic.deliveries :: Rightful(s, d))
    && (forall d :: Owed(s, d) ==> d in s.traffic.deliveries)
    && InOrder(s.traffic.deliveries)
  }

  /** The message being handled has reached exactly the part of its list that is not pending,
      except for subscriptions that were shut down. */
  ghost predicate ReachedInv(x: Index, t: Traffic) {
    t.handling.Some? ==>
      var h := t.handling.value;
      && h.message < |t.handled|
      && DistinctTokens(h.pending)
      && (forall sub <- h.pending :: Delivery(sub.token, h.message) !in t.deliveries)
      && (forall sub <- Listed(x, t.handled[h.message].messageType) ::
            sub in h.pending || Delivery(sub.token, h.message) in t.deliveries || sub.token in x.done)
  }

  lemma StepKeepsTimes(s: State, a: Action)
    requires RegistryInv(s.reg) && TimesInv(s) && Step(s, a).Some?
    ensures TimesInv(Step(s, a).value)
  {
    var n := Step(s, a).value;
    RegistryStepKeepsInv(s.reg, s.traffic.handling.Some?, a);
    forall t ensures TokenTimes(n, t) {
      assert TokenTimes(s, t);
      RegistryStepOnToken(s.reg, s.traffic.handling.Some?, a, t);
    }
  }

  lemma SuffixGetsShorter(rest: seq<Subscription>, all: seq<Subscription>)
    requires IsSuffix(rest, all) && rest != []
    ensures IsSuffix(rest[1..], all) && rest[0] in all
  {
    assert rest[0] == all[|all| - |rest|];
  }

  lemma TrafficStepKeepsHandling(x: Index, t: Traffic, a: Action)
    requires HandlingInv(x, t) && TrafficStep(x, t, a).Some?
    ensures HandlingInv(x, TrafficStep(x, t, a).value)
  {
    if a.Forward? {
      SuffixGetsShorter(t.handling.value.pending, Listed(x, t.handled[t.handling.value.message].messageType));
    }
  }

  lemma StepKeepsHandling(s: State, a: Action)
    requires RegistryInv(s.reg) && HandlingInv(s.reg.index, s.traffic) && Step(s, a).Some?
    ensures HandlingInv(Step(s, a).value.reg.index, Step(s, a).value.traffic)
  {
    RegistryStepOnToken(s.reg, s.traffic.handling.Some?, a, 0);
    TrafficStepKeepsHandling(s.reg.index, s.traffic, a);
  }

  /** The deliveries that a message already made are older than it. */
  lemma FreshMessageUndelivered(s: State, token: Token)
    requires DeliveryInv(s)
    ensures Delivery(token, |s.traffic.handled|) !in s.traffic.deliveries
  {
    assert !Rightful(s, Delivery(token, |s.traffic.handled|));
  }

  lemma BeginReachesNobody(s: State, m: Message)
    requires RegistryInv(s.reg) && DeliveryInv(s) && TrafficStep(s.reg.index, s.traffic, BeginHandle(m)).Some?
    ensures ReachedInv(s.reg.index, TrafficStep(s.reg.index, s.traffic, BeginHandle(m)).value)
  {
    var all := Listed(s.reg.index, m.messageType);
    assert ListAgrees(all, m.messageType, s.reg.index.byToken);
    forall sub | sub in all ensures Delivery(sub.token, |s.traffic.handled|) !in s.traffic.deliveries {
      FreshMessageUndelivered(s, sub.token);
    }
  }

  lemma ForwardReachesNext(x: Index, t: Traffic, isTaken: bool)
    requires ReachedInv(x, t) && TrafficStep(x, t, Forward(isTaken)).Some?
    ensures ReachedInv(x, TrafficStep(x, t, Forward(isTaken)).value)
  {
    var pending := t.handling.value.pending;
    assert pending == [pending[0]] + pending[1..];
  }

  lemma StepKeepsReached(s: State, a: Action)
    requires RegistryInv(s.reg) && DeliveryInv(s)
    requires ReachedInv(s.reg.index, s.traffic) && Step(s, a).Some?
    ensures ReachedInv(Step(s, a).value.reg.index, Step(s, a).value.traffic)
  {
    RegistryStepOnToken(s.reg, s.traffic.handling.Some?, a, 0);
    match a
    case BeginHandle(m) => BeginReachesNobody(s, m);
    case Forward(isTaken) => ForwardReachesNext(s.reg.index, s.traffic, isTaken);
    case _ =>
  }

  /** The subscription reached next is live, so the message is rightful for it. */
  lemma ForwardIsRightful(s: State)
    requires RegistryInv(s.reg) && TimesInv(s) && HandlingInv(s.reg.index, s.traffic)
    requires s.traffic.handling.Some? && s.traffic.handling.value.pending != []
    ensures Rightful(s, Delivery(s.traffic.handling.value.pending[0].token, s.traffic.handling.value.message))
  {
    var h := s.traffic.handling.value;
    var mt := s.traffic.handled[h.message].messageType;
    var all := Listed(s.reg.index, mt);
    var sub := h.pending[0];
    assert ListAgrees(all, mt, s.reg.index.byToken);
    SuffixGetsShorter(h.pending, all);
    assert TokenTimes(s, sub.token);
  }

  /** It has received no newer message, nor this one. */
  lemma ForwardKeepsOrder(s: State)
    requires DeliveryInv(s) && HandlingInv(s.reg.index, s.traffic) && ReachedInv(s.reg.index, s.traffic)
    requires s.traffic.handling.Some? && s.traffic.handling.value.pending != []
    ensures var h := s.traffic.handling.value;
      InOrder(s.traffic.deliveries + [Delivery(h.pending[0].token, h.message)])
  {
    var h := s.traffic.handling.value;
    var deliveries := s.traffic.deliveries;
    forall p | 0 <= p < |deliveries| && deliveries[p].token == h.pending[0].token
      ensures deliveries[p].message < h.message
    {
      var d := deliveries[p];
      assert d in deliveries && Rightful(s, d);
      assert h.pending[0] in h.pending;
    }
  }

  /** When a message has reached its whole list, nothing is owed of it any more. */
  lemma EndOwesNothing(s: State, d: Delivery)
    requires RegistryInv(s.reg) && TimesInv(s) && ReachedInv(s.reg.index, s.traffic)
    requires HandlingInv(s.reg.index, s.traffic) && s.traffic.handling.Some? && s.traffic.handling.value.pending == []
    requires Rightful(s, d) && d.message == |s.traffic.counts| && d.token !in s.times.shut
    ensures d in s.traffic.deliveries
  {
    assert TokenTimes(s, d.token);
    assert TokenAgrees(s.reg.index, d.token);
    assert s.reg.issued[d.token] in Listed(s.reg.index, s.traffic.handled[d.message].messageType);
  }

  /** What a step makes rightful or owed. */
  lemma StepOnDelivery(s: State, a: Action, d: Delivery)
    requires RegistryInv(s.reg) && TimesInv(s) && HandlingInv(s.reg.index, s.traffic) && Step(s, a).Some?
    ensures var n := Step(s, a).value;
      && (Rightful(s, d) ==> Rightful(n, d))
      && (Owed(n, d) && !Owed(s, d) ==>
            a == EndHandle && Rightful(s, d) && d.message == |s.traffic.counts| && d.token !in s.times.shut)
  {
    RegistryStepOnToken(s.reg, s.traffic.handling.Some?, a, d.token);
    assert TokenTimes(s, d.token);
  }

  lemma StepKeepsDeliveries(s: State, a: Action)
    requires RegistryInv(s.reg) && TimesInv(s) && HandlingInv(s.reg.index, s.traffic) && DeliveryInv(s)
    requires ReachedInv(s.reg.index, s.traffic) && Step(s, a).Some?
    ensures DeliveryInv(Step(s, a).value)
  {
    var n := Step(s, a).value;
    if a == Forward(true) {
      ForwardIsRightful(s);
      ForwardKeepsOrder(s);
    }
    forall d | d in n.traffic.deliveries ensures Rightful(n, d) {
      StepOnDelivery(s, a, d);
    }
    forall d | Owed(n, d) ensures d in n.traffic.deliveries {
      StepOnDelivery(s, a, d);
      if !Owed(s, d) {
        EndOwesNothing(s, d);
      }
    }
  }

  // ---------- the counts ----------

  /** How many subscribers received message m. */
  function Receivers(deliveries: seq<Delivery>, m: nat): nat {
    if deliveries == [] then 0
    else
      Receivers(deliveries[..|deliveries| - 1], m) +
      if deliveries[|deliveries| - 1].message == m then 1 else 0
  }

  function Sum(counts: seq<nat>): nat {
    if counts == [] then 0 else Sum(counts[..|counts| - 1]) + counts[|counts| - 1]
  }

  /** What has been counted of message m so far. */
  function Counted(t: Traffic, m: nat): nat {
    if m < |t.counts| then t.counts[m]
    else if t.handling.Some? && m == |t.counts| then t.handling.value.forwards
    else 0
  }

  ghost predicate CountInv(t: Traffic) {
    && (forall m :: Receivers(t.deliveries, m) == Counted(t, m))
    && Sum(t.counts) + Counted(t, |t.counts|) == |t.deliveries|
  }

  lemma ReceiversOfMore(deliveries: seq<Delivery>, d: Delivery, m: nat)
    ensures Receivers(deliveries + [d], m) == Receivers(deliveries, m) + if d.message == m then 1 else 0
  {
    assert (deliveries + [d])[..|deliveries|] == deliveries;
  }

  lemma ForwardCounts(x: Index, t: Traffic)
    requires Numbered(t) && CountInv(t) && TrafficStep(x, t, Forward(true)).Some?
    ensures CountInv(TrafficStep(x, t, Forward(true)).value)
  {
    var n := TrafficStep(x, t, Forward(true)).value;
    var d := Delivery(t.handling.value.pending[0].token, t.handling.value.message);
    forall m ensures Receivers(n.deliveries, m) == Counted(n, m) {
      ReceiversOfMore(t.deliveries, d, m);
      assert Receivers(t.deliveries, m) == Counted(t, m);
    }
  }

  lemma EndCounts(x: Index, t: Traffic)
    requires CountInv(t) && TrafficStep(x, t, EndHandle).Some?
    ensures CountInv(TrafficStep(x, t, EndHandle).value)
  {
    var n := TrafficStep(x, t, EndHandle).value;
    assert n.counts[..|n.counts| - 1] == t.counts;
    forall m ensures Receivers(n.deliveries, m) == Counted(n, m) {
      assert Receivers(t.deliveries, m) == Counted(t, m);
    }
  }

  lemma SameDeliveriesSameCounts(t: Traffic, n: Traffic)
    requires CountInv(t)
    requires n.deliveries == t.deliveries && n.counts == t.counts && Counted(n, |n.counts|) == Counted(t, |t.counts|)
    ensures CountInv(n)
  {
    forall m ensures Receivers(n.deliveries, m) == Counted(n, m) {
      assert Receivers(t.deliveries, m) == Counted(t, m);
    }
  }

  lemma StepKeepsCounts(x: Index, t: Traffic, a: Action)
    requires Numbered(t) && CountInv(t) && TrafficStep(x, t, a).Some?
    ensures CountInv(TrafficStep(x, t, a).value)
  {
    match a
    case Forward(isTaken) =>
      if isTaken {
        ForwardCounts(x, t);
      } else {
        SameDeliveriesSameCounts(t, TrafficStep(x, t, a).value);
      }
    case EndHandle => EndCounts(x, t);
    case BeginHandle(m) => SameDeliveriesSameCounts(t, TrafficStep(x, t, a).value);
    case _ =>
  }

  // ---------- every run ----------

  ghost predicate Inv(s: State) {
    && RegistryInv(s.reg) && TimesInv(s) && HandlingInv(s.reg.index, s.traffic)
    && DeliveryInv(s) && ReachedInv(s.reg.index, s.traffic) && CountInv(s.traffic)
  }

  lemma {:induction false} StepKeepsInv(s: State, a: Action)
    requires Inv(s) && Step(s, a).Some?
    ensures Inv(Step(s, a).value)
  {
    RegistryStepKeepsInv(s.reg, s.traffic.handling.Some?, a);
    StepKeepsTimes(s, a);
    StepKeepsHandling(s, a);
    StepKeepsDeliveries(s, a);
    StepKeepsReached(s, a);
    StepKeepsCounts(s.reg.index, s.traffic, a);
  }

  lemma {:induction false} RunsKeepInv(actions: seq<Action>)
    ensures Run(Step, INIT, actions).Some? ==> Inv(Run(Step, INIT, actions).value)
  {
    forall t, a | Inv(t) && Step(t, a).Some? { StepKeepsInv(t, a); }
    RunKeeps(Step, Inv, INIT, actions);
  }

  /** In every interleaving the indexes agree, tokens are not reused, and no Unsubscribe reaches the
      branches for a token without a list entry. */
  lemma {:induction false} IndexesAlwaysAgree(actions: seq<Action>)
    ensures var r := Run(Step, INIT, actions);
      r.Some? ==>
        && Agree(r.value.reg.index)
        && (forall t <- r.value.reg.issued :: r.value.reg.issued[t].token == t <= r.value.reg.index.counter)
        && (forall c <- r.value.reg.callers :: r.value.reg.callers[c].Finished? ==>
              r.value.reg.callers[c].result in {Removed, UnknownToken})
  {
    RunsKeepInv(actions);
  }

  /** The messages received through one subscription. */
  function Received(deliveries: seq<Delivery>, t: Token): seq<nat> {
    if deliveries == [] then []
    else
      var last := deliveries[|deliveries| - 1];
      Received(deliveries[..|deliveries| - 1], t) + if last.token == t then [last.message] else []
  }

  predicate Increasing(ms: seq<nat>) {
    forall i, j :: 0 <= i < j < |ms| ==> ms[i] < ms[j]
  }

  lemma {:induction false} ReceivedInOrder(deliveries: seq<Delivery>, t: Token)
    requires InOrder(deliveries)
    ensures Increasing(Received(deliveries, t))
    ensures forall m :: m in Received(deliveries, t) <==> Delivery(t, m) in deliveries
  {
    if deliveries != [] {
      var last := deliveries[|deliveries| - 1];
      var before := deliveries[..|deliveries| - 1];
      ReceivedInOrder(before, t);
      assert forall d :: d in deliveries <==> d in before || d == last;
      if last.token == t {
        forall i | 0 <= i < |Received(before, t)| ensures Received(before, t)[i] < last.message {
          assert Received(before, t)[i] in Received(before, t);
          assert Delivery(t, Received(before, t)[i]) in before;
        }
      }
    }
  }

  /** In every interleaving each subscription receives, in order and without duplicates, messages of
      its type handled between its subscription and its removal, and among them all that were
      completely handled before its shutdown; the returned counts are the numbers of receivers. */
  lemma {:induction false} DeliveryHistory(actions: seq<Action>)
    ensures var r := Run(Step, INIT, actions);
      r.Some? ==>
        var s := r.value;
        && (forall t <- s.reg.issued :: var received := Received(s.traffic.deliveries, t);
              && Increasing(received)
              && (forall m <- received :: Rightful(s, Delivery(t, m)))
              && (forall m :: Owed(s, Delivery(t, m)) ==> m in received))
        && (forall m :: 0 <= m < |s.traffic.counts| ==> s.traffic.counts[m] == Receivers(s.traffic.deliveries, m))
        && (s.traffic.handling.None? ==>
              |s.traffic.counts| == |s.traffic.handled| && Sum(s.traffic.counts) == |s.traffic.deliveries|)
  {
    RunsKeepInv(actions);
    var r := Run(Step, INIT, actions);
    if r.Some? {
      forall t | t in r.value.reg.issued
        ensures var received := Received(r.value.traffic.deliveries, t);
          && Increasing(received)
          && (forall m <- received :: Rightful(r.value, Delivery(t, m)))
          && (forall m :: Owed(r.value, Delivery(t, m)) ==> m in received)
      {
        ReceivedInOrder(r.value.traffic.deliveries, t);
      }
    }
  }

  // ---------- undisturbed ----------

  function DeliveriesTo(takers: seq<Subscription>, message: nat): seq<Delivery> {
    seq(|takers|, i requires 0 <= i < |takers| => Delivery(takers[i].token, message))
  }

  /** The state that the first n subscriptions of the list have made of s. */
  predicate Reached(s: State, h: Handling, n: nat, takers: seq<Subscription>, t: State) {
    && n <= |h.pending|
    && t.reg == s.reg
    && t.traffic == s.traffic.(handling := Some(Handling(h.message, h.pending[n..], |takers|)),
                               deliveries := s.traffic.deliveries + DeliveriesTo(takers, h.message))
  }

  lemma ReachNext(s: State, h: Handling, n: nat, takers: seq<Subscription>, t: State, isTaken: bool)
    requires n < |h.pending| && Reached(s, h, n, takers, t)
    requires isTaken || h.pending[n].token in s.reg.index.done
    ensures Step(t, Forward(isTaken)).Some?
    ensures Reached(s, h, n + 1, if isTaken then takers + [h.pending[n]] else takers, Step(t, Forward(isTaken)).value)
  {
    assert h.pending[n..][1..] == h.pending[n + 1..];
    var more := takers + [h.pending[n]];
    assert DeliveriesTo(more, h.message) == DeliveriesTo(takers, h.message) + [Delivery(h.pending[n].token, h.message)];
  }

  lemma {:induction false} ForwardPart(s: State, h: Handling, n: nat, takers: seq<Subscription>)
    returns (actions: seq<Action>)
    requires s.traffic.handling == Some(h) && h.forwards == 0
    requires n <= |h.pending| && IsPart(takers, h.pending[..n], s.reg.index.done)
    ensures var r := Run(Step, s, actions); r.Some? && Reached(s, h, n, takers, r.value)
    decreases n
  {
    if n == 0 {
      actions := [];
      ReachStart(s, h);
    } else {
      assert h.pending[..n][..n - 1] == h.pending[..n - 1];
      var last := h.pending[n - 1];
      var isTaken := !(last.token in s.reg.index.done && IsPart(takers, h.pending[..n - 1], s.reg.index.done));
      var fewer := if isTaken then takers[..|takers| - 1] else takers;
      assert takers == if isTaken then fewer + [last] else fewer;
      var before := ForwardPart(s, h, n - 1, fewer);
      var t := Run(Step, s, before).value;
      ReachNext(s, h, n - 1, fewer, t, isTaken);
      actions := before + [Forward(isTaken)];
      RunConcat(Step, s, before, [Forward(isTaken)]);
      RunOne(Step, t, Forward(isTaken));
      assert Run(Step, s, actions) == Step(t, Forward(isTaken));
    }
  }

  lemma ReachStart(s: State, h: Handling)
    requires s.traffic.handling == Some(h) && h.forwards == 0
    ensures Reached(s, h, 0, [], s)
  {
    assert h.pending[0..] == h.pending;
    assert s.traffic.deliveries + DeliveriesTo([], h.message) == s.traffic.deliveries;
  }

  /** What the method HandleMessage does is one of the runs of the protocol. */
  lemma {:induction false} UndisturbedHandling(s: State, m: Message, takers: seq<Subscription>)
    returns (forwards: seq<Action>)
    requires s.traffic.handling.None? && IsPart(takers, Listed(s.reg.index, m.messageType), s.reg.index.done)
    ensures var r := Run(Step, s, [BeginHandle(m)] + forwards + [EndHandle]);
      && r.Some? && r.value.reg == s.reg
      && r.value.traffic == Traffic(None, s.traffic.handled + [m], s.traffic.counts + [|takers|],
                                    s.traffic.deliveries + DeliveriesTo(takers, |s.traffic.handled|))
  {
    var all := Listed(s.reg.index, m.messageType);
    var begun := Step(s, BeginHandle(m)).value;
    assert all[..|all|] == all;
    forwards := ForwardPart(begun, begun.traffic.handling.value, |all|, takers);
    RunOne(Step, s, BeginHandle(m));
    RunConcat(Step, s, [BeginHandle(m)], forwards);
    var actions := [BeginHandle(m)] + forwards;
    assert (actions + [EndHandle])[..|actions|] == actions;
  }

  // ---------- CancelAllSubscriptions ----------

  /** Only the goroutines already started, and message handling, go on. */
  function QuietStep(s: State, a: Action): Option<State> {
    if a.SubscribeTo? || a.Unsubscribe? || a.CancelAll? then None else Step(s, a)
  }

  predicate AllFinished(r: Registry) {
    forall c <- r.callers :: r.callers[c].Finished?
  }

  /** Every live token has a goroutine of this call; the goroutines are those that were there before,
      and these. */
  ghost predicate Cancelling(before: Registry, call: nat, r: Registry) {
    && RegistryInv(r) && CallersInv(r)
    && r.index.byToken.Keys <= before.index.byToken.Keys <= r.issued.Keys
    && r.callers.Keys == before.callers.Keys + Goroutines(before, call)
    && r.index.counter == before.index.counter && before.index.done <= r.index.done
    && r.index.done <= before.index.done + before.index.byToken.Keys + Unsubscribed(before)
  }

  /** The subscriptions from which somebody unsubscribes, or has. */
  function Unsubscribed(r: Registry): set<Token> {
    set c <- r.callers :: c.token
  }

  function Goroutines(before: Registry, call: nat): set<Caller> {
    set t <- before.index.byToken :: Caller(call, t)
  }

  lemma QuietStepAddsNobody(r: Registry, isLocked: bool, a: Action)
    requires RegistryStep(r, isLocked, a).Some? && !(a.SubscribeTo? || a.Unsubscribe? || a.CancelAll?)
    ensures var n := RegistryStep(r, isLocked, a).value;
      && n.callers.Keys == r.callers.Keys && n.issued == r.issued
      && n.index.byToken.Keys <= r.index.byToken.Keys
      && n.index.counter == r.index.counter && r.index.done <= n.index.done <= r.index.done + Unsubscribed(r)
  {
  }

  lemma QuietStepKeepsCancelling(before: Registry, call: nat, r: Registry, isLocked: bool, a: Action)
    requires Cancelling(before, call, r) && RegistryStep(r, isLocked, a).Some?
    requires !(a.SubscribeTo? || a.Unsubscribe? || a.CancelAll?)
    ensures Cancelling(before, call, RegistryStep(r, isLocked, a).value)
  {
    QuietStepAddsNobody(r, isLocked, a);
    RegistryStepKeepsInv(r, isLocked, a);
    StepKeepsCallers(r, isLocked, a);
    assert Unsubscribed(r) <= Unsubscribed(before) + before.index.byToken.Keys;
  }

  lemma BeginCancelling(r: Registry, call: nat)
    requires RegistryInv(r) && CallersInv(r) && RegistryStep(r, false, CancelAll(call)).Some?
    ensures Cancelling(r, call, RegistryStep(r, false, CancelAll(call)).value)
  {
    RegistryStepKeepsInv(r, false, CancelAll(call));
    StepKeepsCallers(r, false, CancelAll(call));
  }

  lemma {:induction false} QuietRunsKeepCancelling(before: Registry, call: nat, s: State, more: seq<Action>)
    requires Cancelling(before, call, s.reg)
    ensures var r := Run(QuietStep, s, more); r.Some? ==> Cancelling(before, call, r.value.reg)
  {
    var inv := (t: State) => Cancelling(before, call, t.reg);
    forall t, a | inv(t) && QuietStep(t, a).Some? ensures inv(QuietStep(t, a).value) {
      QuietStepKeepsCancelling(before, call, t.reg, t.traffic.handling.Some?, a);
    }
    RunKeeps(QuietStep, inv, s, more);
  }

  /** Both indexes are empty; every subscription live in `before` is shut down and was removed by
      exactly one goroutine; the only error is that a token is not known any more. If no unsubscribe
      was underway, this call has removed them all and shut down nothing else. */
  ghost predicate CancelledAll(before: Registry, call: nat, end: Registry) {
    var live := before.index.byToken.Keys;
    && end.index.byToken == map[] && live <= end.index.done
    && (forall mt :: Listed(end.index, mt) == [])
    && (forall t <- live :: RemovedOnce(end, t))
    && (AllFinished(before) ==>
          && (forall t <- live :: IsRemover(end, Caller(call, t), t))
          && end.index.done == before.index.done + live == AllCancelled(before.index).done
          && end.index.counter == before.index.counter == AllCancelled(before.index).counter)
    && (forall c <- end.callers :: end.callers[c] == Finished(Removed) || end.callers[c] == Finished(UnknownToken))
  }

  lemma CancelledIsEmpty(before: Registry, call: nat, end: Registry)
    requires Cancelling(before, call, end) && AllFinished(end)
    requires RegistryInv(before) && CallersInv(before)
    ensures CancelledAll(before, call, end)
  {
    var live := before.index.byToken.Keys;
    forall t | t in live ensures t !in end.index.byToken && t in end.index.done && RemovedOnce(end, t) {
      assert Caller(call, t) in Goroutines(before, call);
      assert end.callers[Caller(call, t)].Finished?;
    }
    forall mt ensures Listed(end.index, mt) == [] {
      ListedAreLive(Listed(end.index, mt), mt, end.index.byToken);
    }
    if AllFinished(before) {
      forall t | t in live ensures IsRemover(end, Caller(call, t), t) {
        var c :| IsRemover(end, c, t);
        assert c !in before.callers;
      }
    }
  }

  lemma {:induction false} CancelAllFrom(s: State, call: nat, more: seq<Action>)
    requires RegistryInv(s.reg) && CallersInv(s.reg) && Step(s, CancelAll(call)).Some?
    ensures var r := Run(QuietStep, Step(s, CancelAll(call)).value, more);
      r.Some? && AllFinished(r.value.reg) ==> CancelledAll(s.reg, call, r.value.reg)
  {
    var begun := Step(s, CancelAll(call)).value;
    BeginCancelling(s.reg, call);
    QuietRunsKeepCancelling(s.reg, call, begun, more);
    var r := Run(QuietStep, begun, more);
    if r.Some? && AllFinished(r.value.reg) {
      CancelledIsEmpty(s.reg, call, r.value.reg);
    }
  }

  /** In every interleaving of its goroutines with each other, with unsubscribes that are underway and
      with message handling, but without new subscriptions, unsubscribes and cancellations,
      CancelAllSubscriptions ends with all subscriptions cancelled. */
  lemma {:induction false} CancelAllEmptiesIndexes(actions: seq<Action>, call: nat, more: seq<Action>)
    requires var s := Run(Step, INIT, actions); s.Some? && Step(s.value, CancelAll(call)).Some?
    ensures var s := Run(Step, INIT, actions).value;
      var r := Run(QuietStep, Step(s, CancelAll(call)).value, more);
      r.Some? && AllFinished(r.value.reg) ==> CancelledAll(s.reg, call, r.value.reg)
  {
    RunsKeepInv(actions);
    RunsKeepCallers(actions);
    CancelAllFrom(Run(Step, INIT, actions).value, call, more);
  }

  lemma {:induction false} RunsKeepCallers(actions: seq<Action>)
    ensures var r := Run(Step, INIT, actions); r.Some? ==> RegistryInv(r.value.reg) && CallersInv(r.value.reg)
  {
    var inv := (s: State) => RegistryInv(s.reg) && CallersInv(s.reg);
    forall s, a | inv(s) && Step(s, a).Some? ensures inv(Step(s, a).value) {
      RegistryStepKeepsInv(s.reg, s.traffic.handling.Some?, a);
      StepKeepsCallers(s.reg, s.traffic.handling.Some?, a);
    }
    RunKeeps(Step, inv, INIT, actions);
  }
}
