/** Casting requests and what the replies of the jury make of them. */
module CastingRules {
  import opened Runs
  import opened Acting

  type RequestKey = string
  type ActorID = string

  const UINT32_MODULUS: nat := 0x1_0000_0000

  newtype uint32 = n: int | 0 <= n < 0x1_0000_0000

  datatype ActorRequest = ActorRequest(key: RequestKey, min: Option<uint32>, max: Option<uint32>)

  datatype CastingState = Ready | Performing | Done

  datatype RoleAssignment = RoleAssignment(key: RequestKey, actorID: ActorID)

  datatype Reply = ContextDone | Closed | Assignments(assignments: seq<RoleAssignment>)

  /** What one turn of the loop meets: whether all watchers of earlier contracts have run before it, the
      actors that lose their connection during it, whether the jury can be sent the request, the
      actors that the agency knows, the reply, and whether the jury can be told about an error. */
  datatype Round = Round(
    isSettled: bool,
    lost: set<NetActor>,
    requestSent: bool,
    directory: map<ActorID, NetActor>,
    reply: Reply,
    noticeSent: bool)

  datatype PerformError = NotAllowed | RequestFailed | ContextAborted | CastingAborted | NoticeFailed

  // ---------- counts ----------

  /** The comparison made with the count cast to 32 bits. */
  predicate CountPasses(count: nat, r: ActorRequest) {
    var cast := (count % UINT32_MODULUS) as uint32;
    && (r.min.Some? ==> r.min.value <= cast)
    && (r.max.Some? ==> cast <= r.max.value)
  }

  predicate InRange(count: nat, r: ActorRequest) {
    && (r.min.Some? ==> r.min.value as int <= count)
    && (r.max.Some? ==> count <= r.max.value as int)
  }

  /** The cast is harmless exactly for the counts that fit 32 bits: from there on some request
      is judged wrongly. */
  lemma CastIsExactBelow32Bits(count: nat)
    ensures (forall r: ActorRequest :: CountPasses(count, r) == InRange(count, r)) <==> count < 0x1_0000_0000
  {
    if count >= 0x1_0000_0000 {
      var r := ActorRequest("", None, Some((count % UINT32_MODULUS) as uint32));
      assert CountPasses(count, r) && !InRange(count, r);
    }
  }

  /** Every count that 32 bits hold is judged rightly. */
  lemma CastIsExactOnUint32(count: uint32, r: ActorRequest)
    ensures CountPasses(count as nat, r) == InRange(count as nat, r)
  {
    assert count as nat % 0x1_0000_0000 == count as nat;
  }

  predicate ValidRequests(requests: seq<ActorRequest>) {
    && (forall i, j :: 0 <= i < j < |requests| ==> requests[i].key != requests[j].key)
    && (forall r <- requests :: Satisfiable(r))
  }

  predicate Satisfiable(r: ActorRequest) {
    (r.max.Some? ==> 1 <= r.max.value) && (r.min.Some? && r.max.Some? ==> r.min.value <= r.max.value)
  }

  predicate IsMetBy(r: ActorRequest, count: uint32) {
    1 <= count && InRange(count as nat, r)
  }

  /** A request is satisfiable when some positive count is acceptable. */
  lemma SatisfiableExactly(r: ActorRequest)
    ensures Satisfiable(r) <==> exists count :: IsMetBy(r, count)
  {
    if Satisfiable(r) {
      var count: uint32 :=
        if r.max.Some? then r.max.value else if r.min.Some? && r.min.value >= 1 then r.min.value else 1;
      assert IsMetBy(r, count);
    }
  }

  // ---------- winner lists ----------

  type Winners = map<RequestKey, seq<NetActor>>

  function KnownActors(rounds: seq<Round>): set<NetActor> {
    set round <- rounds, id <- round.directory :: round.directory[id]
  }

  function EmptyLists(requests: seq<ActorRequest>): Winners {
    map r <- requests :: r.key := []
  }

  predicate Known(assignments: seq<RoleAssignment>, directory: map<ActorID, NetActor>) {
    forall a <- assignments :: a.actorID in directory
  }

  /** The winners of one key in assignment order. */
  function AssignedTo(key: RequestKey, assignments: seq<RoleAssignment>,
      directory: map<ActorID, NetActor>): (r: seq<NetActor>)
    requires Known(assignments, directory)
    ensures |r| <= |assignments|
  {
    if assignments == [] then []
    else
      var last := assignments[|assignments| - 1];
      AssignedTo(key, assignments[..|assignments| - 1], directory) +
      if last.key == key then [directory[last.actorID]] else []
  }

  /** How many of the assignments are for this key. */
  function CountOf(key: RequestKey, assignments: seq<RoleAssignment>): nat {
    if assignments == [] then 0
    else CountOf(key, assignments[..|assignments| - 1]) + if assignments[|assignments| - 1].key == key then 1 else 0
  }

  /** Each assignment puts its actor in the place that the number of those before it gives, and there
      are no other winners. */
  lemma {:induction false} WinnersInOrder(key: RequestKey, assignments: seq<RoleAssignment>,
      directory: map<ActorID, NetActor>)
    requires Known(assignments, directory)
    ensures |AssignedTo(key, assignments, directory)| == CountOf(key, assignments)
    ensures forall i :: 0 <= i < |assignments| && assignments[i].key == key ==>
      && CountOf(key, assignments[..i]) < CountOf(key, assignments)
      && AssignedTo(key, assignments, directory)[CountOf(key, assignments[..i])] == directory[assignments[i].actorID]
  {
    if assignments != [] {
      var last := |assignments| - 1;
      WinnersInOrder(key, assignments[..last], directory);
      assert forall i :: 0 <= i < last ==> assignments[..last][..i] == assignments[..i];
    }
  }

  /** The map that grows one assignment at a time. */
  function Collected(requests: seq<ActorRequest>, assignments: seq<RoleAssignment>,
      directory: map<ActorID, NetActor>): Winners
    requires Known(assignments, directory)
  {
    if assignments == [] then EmptyLists(requests)
    else
      var last := assignments[|assignments| - 1];
      var w := Collected(requests, assignments[..|assignments| - 1], directory);
      w[last.key := (if last.key in w then w[last.key] else []) + [directory[last.actorID]]]
  }

  lemma CollectedLists(requests: seq<ActorRequest>, assignments: seq<RoleAssignment>, directory: map<ActorID, NetActor>)
    requires Known(assignments, directory)
    ensures var w := Collected(requests, assignments, directory);
      && w.Keys == (set r <- requests :: r.key) + (set a <- assignments :: a.key)
      && (forall key :: AssignedTo(key, assignments, directory) == if key in w then w[key] else [])
  {
    CollectedKeys(requests, assignments, directory);
    forall key
      ensures var w := Collected(requests, assignments, directory);
        AssignedTo(key, assignments, directory) == if key in w then w[key] else []
    {
      CollectedList(requests, assignments, directory, key);
    }
  }

  lemma {:induction false} CollectedKeys(requests: seq<ActorRequest>, assignments: seq<RoleAssignment>,
      directory: map<ActorID, NetActor>)
    requires Known(assignments, directory)
    ensures Collected(requests, assignments, directory).Keys
      == (set r <- requests :: r.key) + (set a <- assignments :: a.key)
  {
    if assignments != [] {
      var before, last := assignments[..|assignments| - 1], assignments[|assignments| - 1];
      CollectedKeys(requests, before, directory);
      assert forall a :: a in assignments <==> a in before || a == last;
    }
  }

  lemma {:induction false} CollectedList(requests: seq<ActorRequest>, assignments: seq<RoleAssignment>,
      directory: map<ActorID, NetActor>, key: RequestKey)
    requires Known(assignments, directory)
    ensures var w := Collected(requests, assignments, directory);
      AssignedTo(key, assignments, directory) == if key in w then w[key] else []
  {
    if assignments != [] {
      CollectedList(requests, assignments[..|assignments| - 1], directory, key);
    }
  }

  ghost function ActorsOf(w: Winners): set<NetActor> {
    set key, i | key in w && 0 <= i < |w[key]| :: w[key][i]
  }

  /** No actor stands in two places, of one list or of two. */
  ghost predicate Distinct(w: Winners) {
    DistinctBut(w, {})
  }

  ghost predicate DistinctBut(w: Winners, exposed: set<NetActor>) {
    forall k, i, l, j ::
      k in w && l in w && 0 <= i < |w[k]| && 0 <= j < |w[l]| && w[k][i] == w[l][j] && w[k][i] !in exposed ==>
        k == l && i == j
  }

  lemma DistinctExtends(w: Winners, key: RequestKey, actor: NetActor, exposed: set<NetActor>)
    requires DistinctBut(w, exposed) && key in w && (actor in ActorsOf(w) ==> actor in exposed)
    ensures DistinctBut(w[key := w[key] + [actor]], exposed)
    ensures ActorsOf(w[key := w[key] + [actor]]) == ActorsOf(w) + {actor}
  {
    var v := w[key := w[key] + [actor]];
    forall a | a in ActorsOf(w) ensures a in ActorsOf(v) {
      var k, i :| k in w && 0 <= i < |w[k]| && w[k][i] == a;
      assert v[k][i] == a;
    }
    assert v[key][|w[key]|] == actor;
  }

  /** The actors that the jury assigned. */
  function Assigned(round: Round): set<NetActor> {
    if round.reply.Assignments? then
      set a <- round.reply.assignments | a.actorID in round.directory :: round.directory[a.actorID]
    else
      {}
  }

  /** The actors of a round that gets as far as hiring: those assigned, if all are known and every
      count passes. */
  function Attempted(requests: seq<ActorRequest>, round: Round): set<NetActor> {
    if round.requestSent && round.reply.Assignments? && Known(round.reply.assignments, round.directory)
       && forall r <- requests :: CountPasses(|AssignedTo(r.key, round.reply.assignments, round.directory)|, r)
    then Assigned(round)
    else {}
  }

  lemma AttemptedIfCountsPass(requests: seq<ActorRequest>, round: Round)
    requires round.requestSent && round.reply.Assignments? && Known(round.reply.assignments, round.directory)
    ensures var w := Collected(requests, round.reply.assignments, round.directory);
      && (forall r <- requests :: r.key in w)
      && Attempted(requests, round) ==
           if forall r <- requests :: r.key in w && CountPasses(|w[r.key]|, r) then Assigned(round) else {}
  {
    CollectedLists(requests, round.reply.assignments, round.directory);
  }

  function AttemptedBefore(requests: seq<ActorRequest>, rounds: seq<Round>, n: nat): set<NetActor>
    requires n <= |rounds|
  {
    if n == 0 then {} else AttemptedBefore(requests, rounds, n - 1) + Attempted(requests, rounds[n - 1])
  }

  lemma {:induction false} ListsAssigned(key: RequestKey, assignments: seq<RoleAssignment>,
      directory: map<ActorID, NetActor>)
    requires Known(assignments, directory)
    ensures forall w <- AssignedTo(key, assignments, directory) ::
      exists a <- assignments :: directory[a.actorID] == w
  {
    if assignments != [] {
      var before, last := assignments[..|assignments| - 1], assignments[|assignments| - 1];
      ListsAssigned(key, before, directory);
      forall w | w in AssignedTo(key, before, directory) ensures exists a <- assignments :: directory[a.actorID] == w {
        var a :| a in before && directory[a.actorID] == w;
        assert a in assignments;
      }
      assert last in assignments;
    }
  }

  lemma WinnersAreAssigned(w: Winners, round: Round)
    requires round.reply.Assignments? && Known(round.reply.assignments, round.directory)
    requires forall key <- w :: w[key] == AssignedTo(key, round.reply.assignments, round.directory)
    ensures ActorsOf(w) <= Assigned(round) <= round.directory.Values
  {
    forall key | key in w ensures forall a <- w[key] :: a in Assigned(round) {
      ListsAssigned(key, round.reply.assignments, round.directory);
    }
  }

  lemma CountsFit(requests: seq<ActorRequest>, w: Winners, directory: map<ActorID, NetActor>,
      assignments: seq<RoleAssignment>)
    requires Known(assignments, directory)
    requires forall r <- requests :: r.key in w
    requires forall key <- w :: w[key] == AssignedTo(key, assignments, directory)
    requires forall r <- requests :: CountPasses(|w[r.key]|, r)
    ensures |assignments| < UINT32_MODULUS ==> forall r <- requests :: InRange(|w[r.key]|, r)
  {
    if |assignments| < UINT32_MODULUS {
      forall r | r in requests ensures InRange(|w[r.key]|, r) {
        CastIsExactBelow32Bits(|w[r.key]|);
      }
    }
  }

  /** Some winner is assigned twice, hired before, or not connected. */
  ghost predicate Unhirable(w: Winners, before: set<NetActor>, online: set<NetActor>) {
    !Distinct(w) || ActorsOf(w) * before != {} || !(ActorsOf(w) <= online)
  }

  /** The only grounds on which a round is refused: an unknown actor, an unacceptable count, or a
      winner that cannot be hired. */
  ghost predicate Refusable(requests: seq<ActorRequest>, round: Round, before: set<NetActor>, online: set<NetActor>) {
    && round.reply.Assignments?
    && (Known(round.reply.assignments, round.directory) ==>
          var w := Collected(requests, round.reply.assignments, round.directory);
          || (exists r <- requests :: r.key in w && !CountPasses(|w[r.key]|, r))
          || Unhirable(w, before, online))
  }

  /** Who is online after the first n rounds. */
  function OnlineAfter(rounds: seq<Round>, n: nat, online: set<NetActor>): set<NetActor>
    requires n <= |rounds|
  {
    if n == 0 then online else OnlineAfter(rounds, n - 1, online) - rounds[n - 1].lost
  }

  lemma {:induction false} OnlineShrinks(rounds: seq<Round>, n: nat, online: set<NetActor>)
    requires n <= |rounds|
    ensures OnlineAfter(rounds, n, online) <= online
  {
    if n > 0 {
      OnlineShrinks(rounds, n - 1, online);
    }
  }

  /** The first n rounds brought assignments that were refused on one of the grounds, and the jury
      was told so. */
  ghost predicate Refused(requests: seq<ActorRequest>, rounds: seq<Round>, n: nat,
      before: set<NetActor>, online: set<NetActor>) {
    && n <= |rounds|
    && forall k :: 0 <= k < n ==>
         && rounds[k].requestSent && rounds[k].noticeSent
         && Refusable(requests, rounds[k], before, OnlineAfter(rounds, k + 1, online))
  }

  /** A hire is refused to an actor that was hired before, is listed twice, or is offline. */
  lemma WhyRefused(w: Winners, part: Winners, key: RequestKey, i: nat, before: set<NetActor>, online: set<NetActor>)
    requires key in w && i < |w[key]|
    requires w[key][i] in before + ActorsOf(part) || w[key][i] !in online
    requires part.Keys <= w.Keys && key in part && part[key] == w[key][..i]
    requires forall k <- part.Keys - {key} :: part[k] == w[k]
    ensures Unhirable(w, before, online)
  {
    var actor := w[key][i];
    assert actor in ActorsOf(w);
    if actor in before {
      assert actor in ActorsOf(w) * before;
    } else if actor in ActorsOf(part) {
      var k, j :| k in part && 0 <= j < |part[k]| && part[k][j] == actor;
      assert w[k][j] == w[key][i];
    }
  }

  lemma PartGrows(w: Winners, key: RequestKey, exposed: set<NetActor>)
    requires DistinctBut(w, exposed) && key !in w
    ensures DistinctBut(w[key := []], exposed) && ActorsOf(w[key := []]) == ActorsOf(w)
  {
    var v := w[key := []];
    forall a | a in ActorsOf(w) ensures a in ActorsOf(v) {
      var k, i :| k in w && 0 <= i < |w[k]| && w[k][i] == a;
      assert v[k][i] == a;
    }
  }
}
