/** The two indexes of a subscription manager and the sections that change them under
    subscriptionsMutex. */
module SubscriptionIndex {

  type MessageType = string
  type Token = nat

  datatype Subscription = Subscription(messageType: MessageType, token: Token)

  /** `done` are the tokens whose lifetime has been cancelled. */
  datatype Index = Index(
    byType: map<MessageType, seq<Subscription>>,
    byToken: map<Token, Subscription>,
    counter: nat,
    done: set<Token>)

  const EMPTY_INDEX := Index(map[], map[], 0, {})

  datatype RemoveResult = Removed | UnknownToken | NoListForType | NotListed

  function Listed(x: Index, messageType: MessageType): seq<Subscription> {
    if messageType in x.byType then x.byType[messageType] else []
  }

  function NextSubscription(x: Index, messageType: MessageType): Subscription {
    Subscription(messageType, x.counter + 1)
  }

  function Subscribe(x: Index, messageType: MessageType): Index {
    var sub := NextSubscription(x, messageType);
    x.(byType := x.byType[messageType := Listed(x, messageType) + [sub]],
       byToken := x.byToken[sub.token := sub],
       counter := x.counter + 1)
  }

  function Shutdown(x: Index, token: Token): Index {
    x.(done := x.done + {token})
  }

  /** The position of the first subscription with this token, or the length of the list. */
  function Position(subs: seq<Subscription>, token: Token): (pos: nat)
    ensures pos <= |subs|
    ensures forall i :: 0 <= i < pos ==> subs[i].token != token
    ensures pos < |subs| ==> subs[pos].token == token
  {
    if subs == [] || subs[0].token == token then 0 else 1 + Position(subs[1..], token)
  }

  /** The last element takes the place of the removed one. */
  function SwapRemove(subs: seq<Subscription>, pos: nat): seq<Subscription>
    requires pos < |subs|
  {
    subs[pos := subs[|subs| - 1]][..|subs| - 1]
  }

  function Remove(x: Index, sub: Subscription): (Index, RemoveResult) {
    if sub.token !in x.byToken then (x, UnknownToken)
    else if sub.messageType !in x.byType then (x, NoListForType)
    else
      var subs := x.byType[sub.messageType];
      var pos := Position(subs, sub.token);
      if pos == |subs| then (x, NotListed)
      else
        (x.(byType := x.byType[sub.messageType := SwapRemove(subs, pos)],
            byToken := x.byToken - {sub.token}), Removed)
  }

  /** Every live subscription is shut down and removed. */
  function AllCancelled(x: Index): Index {
    Index(map mt <- x.byType :: [], map[], x.counter, x.done + x.byToken.Keys)
  }

  lemma AllCancelledTwice(x: Index)
    ensures AllCancelled(AllCancelled(x)) == AllCancelled(x)
  {
    assert AllCancelled(AllCancelled(x)).byType == AllCancelled(x).byType;
  }

  ghost predicate DistinctTokens(subs: seq<Subscription>) {
    forall i, j :: 0 <= i < j < |subs| ==> subs[i].token != subs[j].token
  }

  ghost predicate ListAgrees(subs: seq<Subscription>, mt: MessageType, byToken: map<Token, Subscription>) {
    && DistinctTokens(subs)
    && forall s <- subs :: s.messageType == mt && s.token in byToken && byToken[s.token] == s
  }

  ghost predicate TokenAgrees(x: Index, t: Token) {
    t in x.byToken ==>
      var sub := x.byToken[t]; sub.token == t && 1 <= t <= x.counter && sub in Listed(x, sub.messageType)
  }

  /** Every live token stands exactly once in the list of its message type and nowhere else. */
  ghost predicate Agree(x: Index) {
    && (forall t :: TokenAgrees(x, t))
    && (forall mt :: ListAgrees(Listed(x, mt), mt, x.byToken))
  }

  lemma AppendAgrees(subs: seq<Subscription>, sub: Subscription, mt: MessageType, byToken: map<Token, Subscription>)
    requires ListAgrees(subs, mt, byToken) && sub.token !in byToken
    ensures ListAgrees(subs, mt, byToken[sub.token := sub])
    ensures sub.messageType == mt ==> ListAgrees(subs + [sub], mt, byToken[sub.token := sub])
  {
    forall i | 0 <= i < |subs| ensures subs[i].token != sub.token {
      assert subs[i] in subs;
    }
  }

  /** Subscribing keeps both indexes in agreement, never reuses a token and only adds. */
  lemma SubscribeKeepsAgreement(x: Index, messageType: MessageType)
    requires Agree(x)
    ensures var y := Subscribe(x, messageType); var sub := NextSubscription(x, messageType);
      && Agree(y)
      && sub.token !in x.byToken && sub.messageType == messageType
      && y.counter == x.counter + 1 == sub.token && y.done == x.done
      && y.byToken == x.byToken[sub.token := sub]
      && forall mt :: Listed(y, mt) == Listed(x, mt) + if mt == messageType then [sub] else []
  {
    var y := Subscribe(x, messageType);
    var sub := NextSubscription(x, messageType);
    assert TokenAgrees(x, sub.token);
    forall mt
      ensures Listed(y, mt) == Listed(x, mt) + if mt == messageType then [sub] else []
      ensures ListAgrees(Listed(y, mt), mt, y.byToken)
    {
      assert ListAgrees(Listed(x, mt), mt, x.byToken);
      AppendAgrees(Listed(x, mt), sub, mt, x.byToken);
      assert Listed(x, mt) + [] == Listed(x, mt);
    }
    forall t ensures TokenAgrees(y, t) {
      assert TokenAgrees(x, t);
    }
  }

  lemma ShutdownKeepsAgreement(x: Index, token: Token)
    requires Agree(x)
    ensures Agree(Shutdown(x, token))
  {
    var y := Shutdown(x, token);
    forall t ensures TokenAgrees(y, t) {
      assert TokenAgrees(x, t);
    }
    forall mt ensures ListAgrees(Listed(y, mt), mt, y.byToken) {
      assert ListAgrees(Listed(x, mt), mt, x.byToken);
    }
  }

  lemma SwapRemovePermutes(subs: seq<Subscription>, pos: nat)
    requires pos < |subs|
    ensures multiset(subs) == multiset(SwapRemove(subs, pos)) + multiset{subs[pos]}
  {
    var last := |subs| - 1;
    if pos == last {
      assert subs == SwapRemove(subs, pos) + [subs[pos]];
    } else {
      assert subs == subs[..pos] + [subs[pos]] + subs[pos + 1..last] + [subs[last]];
      assert SwapRemove(subs, pos) == subs[..pos] + [subs[last]] + subs[pos + 1..last];
    }
  }

  /** Swap-remove takes out this one subscription and keeps every other. */
  lemma SwapRemoveKeepsOthers(subs: seq<Subscription>, pos: nat)
    requires pos < |subs| && DistinctTokens(subs)
    ensures DistinctTokens(SwapRemove(subs, pos))
    ensures forall s :: s in SwapRemove(subs, pos) <==> s in subs && s.token != subs[pos].token
  {
    var r := SwapRemove(subs, pos);
    forall s | s in subs && s.token != subs[pos].token ensures s in r {
      var i :| 0 <= i < |subs| && subs[i] == s;
      assert r[if i == |subs| - 1 then pos else i] == s;
    }
  }

  /** A live subscription is found and removed from both indexes, every other one stays where the
      lookup finds it, and the two branches for a token without a list entry are not reached. */
  lemma RemoveKeepsAgreement(x: Index, sub: Subscription)
    requires Agree(x)
    requires sub.token in x.byToken ==> x.byToken[sub.token] == sub
    ensures var (y, result) := Remove(x, sub);
      && Agree(y)
      && result == (if sub.token in x.byToken then Removed else UnknownToken)
      && y.byToken == x.byToken - {sub.token}
      && y.counter == x.counter && y.done == x.done
      && forall mt :: multiset(Listed(x, mt)) ==
           multiset(Listed(y, mt)) + if result == Removed && mt == sub.messageType then multiset{sub} else multiset{}
  {
    if sub.token in x.byToken {
      var y := Remove(x, sub).0;
      RemoveSucceeds(x, sub);
      forall mt
        ensures ListAgrees(Listed(y, mt), mt, y.byToken)
        ensures multiset(Listed(x, mt)) ==
          multiset(Listed(y, mt)) + if mt == sub.messageType then multiset{sub} else multiset{}
      {
        RemoveFromList(x, sub, mt);
      }
      forall t ensures TokenAgrees(y, t) {
        assert TokenAgrees(x, t);
        if t in y.byToken {
          var other := x.byToken[t];
          RemoveFromList(x, sub, other.messageType);
          assert other in multiset(Listed(x, other.messageType));
        }
      }
    }
  }

  lemma RemoveSucceeds(x: Index, sub: Subscription)
    requires Agree(x) && sub.token in x.byToken && x.byToken[sub.token] == sub
    ensures var subs := Listed(x, sub.messageType); var pos := Position(subs, sub.token);
      && pos < |subs| && subs[pos] == sub
      && Remove(x, sub) == (x.(byType := x.byType[sub.messageType := SwapRemove(subs, pos)],
                               byToken := x.byToken - {sub.token}), Removed)
  {
    var subs := Listed(x, sub.messageType);
    assert TokenAgrees(x, sub.token) && ListAgrees(subs, sub.messageType, x.byToken);
    var pos := Position(subs, sub.token);
    assert pos < |subs| ==> subs[pos] in subs;
  }

  lemma RemoveFromList(x: Index, sub: Subscription, mt: MessageType)
    requires Agree(x) && sub.token in x.byToken && x.byToken[sub.token] == sub
    ensures var y := Remove(x, sub).0;
      && ListAgrees(Listed(y, mt), mt, y.byToken)
      && multiset(Listed(x, mt)) ==
           multiset(Listed(y, mt)) + if mt == sub.messageType then multiset{sub} else multiset{}
  {
    RemoveSucceeds(x, sub);
    assert ListAgrees(Listed(x, mt), mt, x.byToken);
    if mt == sub.messageType {
      var subs := Listed(x, mt);
      var pos := Position(subs, sub.token);
      SwapRemoveKeepsOthers(subs, pos);
      SwapRemovePermutes(subs, pos);
    }
  }

  lemma ListedAreLive(subs: seq<Subscription>, mt: MessageType, byToken: map<Token, Subscription>)
    requires ListAgrees(subs, mt, byToken)
    ensures subs == [] || byToken != map[]
  {
    if subs != [] {
      assert subs[0] in subs;
    }
  }

  /** A part of the list, in its order, with everybody who is not shut down. */
  predicate IsPart(takers: seq<Subscription>, subs: seq<Subscription>, done: set<Token>) {
    if subs == [] then takers == []
    else
      var last := subs[|subs| - 1];
      || (last.token in done && IsPart(takers, subs[..|subs| - 1], done))
      || (takers != [] && takers[|takers| - 1] == last && IsPart(takers[..|takers| - 1], subs[..|subs| - 1], done))
  }

  /** The loop of HandleMessage. */
  method Forward(x: Index, messageType: MessageType) returns (forwards: nat, takers: seq<Subscription>)
    ensures forwards == |takers|
    ensures IsPart(takers, Listed(x, messageType), x.done)
  {
    forwards, takers := 0, [];
    if messageType in x.byType {
      var subs := x.byType[messageType];
      for i := 0 to |subs|
        invariant forwards == |takers|
        invariant IsPart(takers, subs[..i], x.done)
      {
        assert subs[..i + 1] == subs[..i] + [subs[i]];
        var takes: bool := *;
        if takes || subs[i].token !in x.done {
          PartGrows(takers, subs[..i], subs[i], x.done);
          takers := takers + [subs[i]];
          forwards := forwards + 1;
        }
      }
      assert subs[..|subs|] == subs;
    }
  }

  lemma {:induction false} PartHasLive(takers: seq<Subscription>, subs: seq<Subscription>, done: set<Token>)
    requires IsPart(takers, subs, done)
    ensures |takers| <= |subs|
    ensures forall s <- takers :: s in subs
    ensures forall s <- subs :: s.token !in done ==> s in takers
  {
    if subs != [] {
      var last, rest := subs[|subs| - 1], subs[..|subs| - 1];
      if last.token in done && IsPart(takers, rest, done) {
        PartHasLive(takers, rest, done);
      } else {
        PartHasLive(takers[..|takers| - 1], rest, done);
        assert takers == takers[..|takers| - 1] + [last];
      }
    }
  }

  lemma PartGrows(takers: seq<Subscription>, subs: seq<Subscription>, sub: Subscription, done: set<Token>)
    requires IsPart(takers, subs, done)
    ensures IsPart(takers + [sub], subs + [sub], done)
  {
    assert (takers + [sub])[..|takers|] == takers && (subs + [sub])[..|subs|] == subs;
  }
}

/** The manager itself. Unsubscribe is given by its two sections: between them other
    sections may run. */
module Subscriptions {
  import opened SubscriptionIndex

  class SubscriptionManager {
    var subscriptionsByMessageType: map<MessageType, seq<Subscription>>
    var subscriptionsByToken: map<Token, Subscription>
    var subscriptionCounter: nat
    var done: set<Token>

    function Contents(): Index
      reads this
    {
      Index(subscriptionsByMessageType, subscriptionsByToken, subscriptionCounter, done)
    }

    constructor ()
      ensures Contents() == EMPTY_INDEX
    {
      subscriptionsByMessageType, subscriptionsByToken, subscriptionCounter, done := map[], map[], 0, {};
    }

    method SubscribeMessageType(messageType: MessageType) returns (sub: Subscription)
      modifies this
      ensures sub == Subscription(messageType, old(subscriptionCounter) + 1)
      ensures subscriptionsByToken == old(subscriptionsByToken)[sub.token := sub] && done == old(done)
      ensures Contents() == Subscribe(old(Contents()), messageType)
    {
      subscriptionCounter := subscriptionCounter + 1;
      sub := Subscription(messageType, subscriptionCounter);
      subscriptionsByToken := subscriptionsByToken[sub.token := sub];
      if messageType !in subscriptionsByMessageType {
        subscriptionsByMessageType := subscriptionsByMessageType[messageType := []];
      }
      var subs := subscriptionsByMessageType[messageType];
      subscriptionsByMessageType := subscriptionsByMessageType[messageType := subs + [sub]];
      assert subscriptionsByMessageType == Subscribe(old(Contents()), messageType).byType;
    }

    /** The first section of Unsubscribe. */
    method CancelLifetime(sub: Subscription)
      modifies this`done
      ensures done == old(done) + {sub.token}
      ensures Contents() == Shutdown(old(Contents()), sub.token)
    {
      done := done + {sub.token};
    }

    /** The second section of Unsubscribe. */
    method RemoveSubscription(sub: Subscription) returns (result: RemoveResult)
      modifies this`subscriptionsByMessageType, this`subscriptionsByToken
      ensures (Contents(), result) == Remove(old(Contents()), sub)
    {
      if sub.token !in subscriptionsByToken {
        return UnknownToken;
      }
      if sub.messageType !in subscriptionsByMessageType {
        return NoListForType;
      }
      var subs := subscriptionsByMessageType[sub.messageType];
      var pos := 0;
      while pos < |subs| && subs[pos].token != sub.token
        invariant pos <= |subs|
        invariant forall i :: 0 <= i < pos ==> subs[i].token != sub.token
      {
        pos := pos + 1;
      }
      if pos == |subs| {
        return NotListed;
      }
      subs := subs[pos := subs[|subs| - 1]];
      subscriptionsByMessageType := subscriptionsByMessageType[sub.messageType := subs[..|subs| - 1]];
      subscriptionsByToken := subscriptionsByToken - {sub.token};
      return Removed;
    }

    /** Both sections, one after the other. */
    method Unsubscribe(sub: Subscription) returns (result: RemoveResult)
      modifies this
      ensures done == old(done) + {sub.token}
      ensures subscriptionsByToken ==
        if result == Removed then old(subscriptionsByToken) - {sub.token} else old(subscriptionsByToken)
      ensures result == UnknownToken <==> sub.token !in old(subscriptionsByToken)
      ensures (Contents(), result) == Remove(Shutdown(old(Contents()), sub.token), sub)
    {
      CancelLifetime(sub);
      result := RemoveSubscription(sub);
    }

    /** Every subscription of the type is offered the message: one that is not shut down takes it,
        the others may. Returns who took it, in the order of the list. */
    method HandleMessage(messageType: MessageType) returns (forwards: nat, takers: seq<Subscription>)
      ensures forwards == |takers|
      ensures IsPart(takers, Listed(Contents(), messageType), done)
    {
      forwards, takers := Forward(Contents(), messageType);
    }

    /** The goroutines of CancelAllSubscriptions, one after the other in any order. */
    method CancelAllSubscriptions()
      requires Agree(Contents())
      modifies this
      ensures subscriptionsByToken == map[] && forall mt :: Listed(Contents(), mt) == []
      ensures done == old(done) + old(subscriptionsByToken.Keys)
      ensures Contents() == AllCancelled(old(Contents())) && Agree(Contents())
    {
      var rest := subscriptionsByToken;
      while rest != map[]
        invariant rest == subscriptionsByToken
        invariant Agree(Contents())
        invariant subscriptionsByToken.Keys <= old(subscriptionsByToken.Keys)
        invariant subscriptionsByMessageType.Keys == old(subscriptionsByMessageType.Keys)
        invariant subscriptionCounter == old(subscriptionCounter)
        invariant done == old(done) + (old(subscriptionsByToken.Keys) - rest.Keys)
        decreases |rest|
      {
        var token :| token in rest;
        ghost var before := Contents();
        assert TokenAgrees(before, token);
        ShutdownKeepsAgreement(before, token);
        RemoveKeepsAgreement(Shutdown(before, token), rest[token]);
        var _ := Unsubscribe(rest[token]);
        assert (rest - {token}).Keys == rest.Keys - {token};
        rest := rest - {token};
      }
      forall mt ensures Listed(Contents(), mt) == [] {
        ListedAreLive(Listed(Contents(), mt), mt, subscriptionsByToken);
      }
      assert forall mt <- subscriptionsByMessageType :: Listed(Contents(), mt) == [];
    }
  }
}

/** An actor with the subscriptions that its last hire has begun. */
module IncomingMessages {
  import opened Runs
  import opened Contracts
  import opened Acting
  import opened SubscriptionIndex

  const FORBIDDEN := 0

  /** None when there is no subscription manager to hand the message to, which the code does not
      check. Otherwise a message that nobody takes is answered with an error, if the actor can still
      send; only when every subscription of its type is over can nobody take it. */
  method HandleIncomingMessage(actor: NetActor, messageType: MessageType) returns (r: Option<seq<Subscription>>)
    modifies actor`log
    ensures r.None? <==> actor.subscriptions.None?
    ensures actor.log == old(actor.log)
      + if r == Some([]) && actor.contract.Some? && actor.isConnected then [Payload(FORBIDDEN)] else []
    ensures r.None? ==> actor.State() == old(actor.State())
    ensures r.Some? ==>
      var x := actor.subscriptions.value;
      && IsPart(r.value, Listed(x, messageType), x.done)
      && actor.State() == (if r.value == [] then Contracts.Send(old(actor.State()), FORBIDDEN) else old(actor.State()))
      && (r.value == [] ==> forall s <- Listed(x, messageType) :: s.token in x.done)
  {
    if actor.subscriptions.None? {
      return None;
    }
    var x := actor.subscriptions.value;
    var forwards, takers := Forward(x, messageType);
    PartHasLive(takers, Listed(x, messageType), x.done);
    if forwards == 0 {
      var _ := actor.Send(FORBIDDEN);
    }
    return Some(takers);
  }

  datatype Event =
    | Hired
    | Fired
    | WatcherRuns
    | Sends(content: int)
    | Receives(messageType: MessageType)
    | Disconnected

  /** Whatever happens to a new actor, messages can be handed to it exactly when somebody has tried to
      hire it, with or without success. */
  method Happen(events: seq<Event>) returns (actor: NetActor)
    ensures fresh(actor) && actor.Valid()
    ensures actor.subscriptions.Some? <==> Hired in events
  {
    actor := new NetActor();
    for n := 0 to |events|
      invariant actor.Valid()
      invariant actor.subscriptions.Some? <==> Hired in events[..n]
    {
      assert events[..n + 1] == events[..n] + [events[n]];
      match events[n]
      case Hired =>
        var _ := actor.Hire();
      case Fired =>
        var _ := actor.Fire();
      case WatcherRuns =>
        if w :| w in actor.watchers * actor.cancelled {
          var _ := actor.RunWatcher(w);
        }
      case Sends(content) =>
        var _ := actor.Send(content);
      case Receives(messageType) =>
        var _ := HandleIncomingMessage(actor, messageType);
      case Disconnected =>
        actor.isConnected := false;
    }
    assert events[..|events|] == events;
  }
}
