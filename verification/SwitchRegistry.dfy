/** The registry of active light switches: accepting a provider registers all its switches or
    stops at the first one that is registered already; the end of an accepted provider removes its
    switches. Both hold the registry's lock, and interleave in any way. */
module SwitchRegistry {
  import opened Runs
  import opened Sequences

  type SwitchID = nat
  /** An accept call. */
  type Call = nat
  /** The light switch objects, known by the call that has created them. */
  type Active = map<SwitchID, Call>

  /** What an accept call leaves registered, and whether it succeeds. */
  function Registered(active: Active, call: Call, ids: seq<SwitchID>): (Active, bool)
    decreases |ids|
  {
    if ids == [] then (active, true)
    else if ids[0] in active then (active, false)
    else Registered(active[ids[0] := call], call, ids[1..])
  }

  class Manager {
    var activeLightSwitches: Active

    constructor ()
      ensures activeLightSwitches == map[]
    {
      activeLightSwitches := map[];
    }

    method Accept(call: Call, ids: seq<SwitchID>) returns (ok: bool)
      modifies this
      ensures (activeLightSwitches, ok) == Registered(old(activeLightSwitches), call, ids)
    {
      for n := 0 to |ids|
        invariant Registered(activeLightSwitches, call, ids[n..]) == Registered(old(activeLightSwitches), call, ids)
      {
        if ids[n] in activeLightSwitches {
          return false;
        }
        activeLightSwitches := activeLightSwitches[ids[n] := call];
      }
      return true;
    }

    method CleanUp(ids: seq<SwitchID>)
      modifies this
      ensures activeLightSwitches == old(activeLightSwitches) - Elements(ids)
    {
      for n := 0 to |ids|
        invariant activeLightSwitches == old(activeLightSwitches) - Elements(ids[..n])
      {
        activeLightSwitches := activeLightSwitches - {ids[n]};
        assert ids[..n + 1] == ids[..n] + [ids[n]];
      }
      assert ids[..|ids|] == ids;
    }
  }

  function Elements(ids: seq<SwitchID>): set<SwitchID> {
    set id <- ids
  }

  function Entries(ids: seq<SwitchID>, call: Call): Active {
    map id <- ids :: call
  }

  /** The switches before the first one that cannot be registered. */
  ghost predicate IsRegisteredPart(active: Active, ids: seq<SwitchID>, n: nat) {
    && n <= |ids|
    && NoDuplicates(ids[..n]) && Elements(ids[..n]) !! active.Keys
    && (n < |ids| ==> ids[n] in active || ids[n] in ids[..n])
  }

  /** A call succeeds exactly when its switches are distinct and none is registered; otherwise those
      before the first clash stay registered. Nothing is ever overwritten. */
  lemma RegistersUpToClash(active: Active, call: Call, ids: seq<SwitchID>) returns (n: nat)
    ensures IsRegisteredPart(active, ids, n)
    ensures Registered(active, call, ids) == (active + Entries(ids[..n], call), n == |ids|)
    ensures n == |ids| <==> NoDuplicates(ids) && Elements(ids) !! active.Keys
  {
    n := RegistersPart(active, call, ids);
    assert ids[..|ids|] == ids;
    if n < |ids| {
      assert ids[n] in Elements(ids);
      if ids[n] in ids[..n] {
        var k :| 0 <= k < n && ids[..n][k] == ids[n];
        assert ids[k] == ids[n];
      }
    }
  }

  lemma {:induction false} RegistersPart(active: Active, call: Call, ids: seq<SwitchID>) returns (n: nat)
    ensures IsRegisteredPart(active, ids, n)
    ensures Registered(active, call, ids) == (active + Entries(ids[..n], call), n == |ids|)
    decreases |ids|
  {
    if ids == [] || ids[0] in active {
      n := 0;
      assert active + Entries(ids[..0], call) == active;
    } else {
      var more := active[ids[0] := call];
      var m := RegistersPart(more, call, ids[1..]);
      n := m + 1;
      EntriesGrow(active, call, ids, m);
      PartGrows(active, call, ids, m);
    }
  }

  lemma EntriesGrow(active: Active, call: Call, ids: seq<SwitchID>, m: nat)
    requires m < |ids|
    ensures active + Entries(ids[..m + 1], call) == active[ids[0] := call] + Entries(ids[1..][..m], call)
  {
    assert ids[..m + 1] == [ids[0]] + ids[1..][..m];
  }

  lemma PartGrows(active: Active, call: Call, ids: seq<SwitchID>, m: nat)
    requires ids != [] && ids[0] !in active
    requires IsRegisteredPart(active[ids[0] := call], ids[1..], m)
    ensures IsRegisteredPart(active, ids, m + 1)
  {
    var rest := ids[1..];
    assert ids == [ids[0]] + rest && ids[..m + 1] == [ids[0]] + rest[..m];
    HeadAndTail(ids[0], rest[..m]);
  }

  lemma HeadAndTail(id: SwitchID, rest: seq<SwitchID>)
    ensures NoDuplicates([id] + rest) <==> id !in rest && NoDuplicates(rest)
    ensures Elements([id] + rest) == {id} + Elements(rest)
  {
    var all := [id] + rest;
    assert forall k :: 0 <= k < |rest| ==> rest[k] == all[k + 1];
    if NoDuplicates(all) {
      assert forall k :: 0 < k < |all| ==> all[0] != all[k];
      assert NoDuplicates(rest) by {
        forall i, j | 0 <= i < j < |rest| ensures rest[i] != rest[j] {
          assert all[i + 1] != all[j + 1];
        }
      }
    }
  }

  /** `live` holds the switches of every accepted provider that has not ended. */
  datatype State = State(active: Active, live: map<Call, seq<SwitchID>>, nextCall: Call)

  const INIT := State(map[], map[], 0)

  datatype Action = Accept(ids: seq<SwitchID>) | CleanUp(call: Call)

  function Step(s: State, a: Action): Option<State> {
    match a
    case Accept(ids) =>
      var (active, ok) := Registered(s.active, s.nextCall, ids);
      Some(State(active, if ok then s.live[s.nextCall := ids] else s.live, s.nextCall + 1))
    case CleanUp(call) =>
      if call !in s.live then None
      else Some(s.(active := s.active - Elements(s.live[call]), live := s.live - {call}))
  }

  function Owned(active: Active, call: Call): set<SwitchID> {
    set id <- active | active[id] == call
  }

  ghost predicate Inv(s: State) {
    && (forall id <- s.active :: s.active[id] < s.nextCall)
    && (forall call <- s.live ::
          call < s.nextCall && NoDuplicates(s.live[call]) && Owned(s.active, call) == Elements(s.live[call]))
  }

  lemma AcceptKeepsInv(s: State, ids: seq<SwitchID>)
    requires Inv(s)
    ensures Inv(Step(s, Accept(ids)).value)
  {
    var n := RegistersUpToClash(s.active, s.nextCall, ids);
    var t := Step(s, Accept(ids)).value;
    assert ids[..|ids|] == ids;
    forall call | call in s.live ensures Owned(t.active, call) == Owned(s.active, call) {
      OwnedByOthers(s.active, s.nextCall, ids[..n], call);
    }
    if n == |ids| {
      OwnedByCall(s.active, s.nextCall, ids);
    }
  }

  lemma OwnedByOthers(active: Active, call: Call, ids: seq<SwitchID>, other: Call)
    requires other != call && Elements(ids) !! active.Keys
    ensures Owned(active + Entries(ids, call), other) == Owned(active, other)
  {
  }

  lemma OwnedByCall(active: Active, call: Call, ids: seq<SwitchID>)
    requires forall id <- active :: active[id] != call
    ensures Owned(active + Entries(ids, call), call) == Elements(ids)
  {
  }

  lemma {:induction false} CleanUpKeepsInv(s: State, call: Call)
    requires Inv(s) && call in s.live
    ensures Inv(Step(s, CleanUp(call)).value)
    ensures Step(s, CleanUp(call)).value.active == s.active - Owned(s.active, call)
  {
    var t := Step(s, CleanUp(call)).value;
    forall other | other in t.live ensures Owned(t.active, other) == Owned(s.active, other) {
      forall id | id in Owned(s.active, other) ensures id in t.active {
        assert id !in Owned(s.active, call);
      }
    }
  }

  lemma {:induction false} RunsKeepInv(actions: seq<Action>)
    ensures Run(Step, INIT, actions).Some? ==> Inv(Run(Step, INIT, actions).value)
  {
    forall t, a | Inv(t) && Step(t, a).Some? ensures Inv(Step(t, a).value) {
      match a
      case Accept(ids) => AcceptKeepsInv(t, ids);
      case CleanUp(call) => CleanUpKeepsInv(t, call);
    }
    RunKeeps(Step, Inv, INIT, actions);
  }

  /** In every interleaving the accepted live providers own disjoint sets of switches, and are
      registered with exactly these. */
  lemma {:induction false} LiveProvidersAreDisjoint(actions: seq<Action>, call: Call, other: Call)
    requires var r := Run(Step, INIT, actions); r.Some? && call in r.value.live && other in r.value.live
    requires call != other
    ensures var s := Run(Step, INIT, actions).value;
      && Elements(s.live[call]) !! Elements(s.live[other])
      && forall id :: id in s.live[call] <==> id in s.active && s.active[id] == call
  {
    RunsKeepInv(actions);
    var s := Run(Step, INIT, actions).value;
    assert forall id :: id in s.live[call] <==> id in Owned(s.active, call);
    assert forall id :: id in s.live[other] <==> id in Owned(s.active, other);
  }

  /** One step never overwrites an entry; the clean-up of its owner removes it, and nothing else
      does. */
  lemma {:induction false} OnlyItsOwnerRemoves(actions: seq<Action>, a: Action, id: SwitchID)
    requires var r := Run(Step, INIT, actions); r.Some? && id in r.value.active && Step(r.value, a).Some?
    ensures var s := Run(Step, INIT, actions).value; var t := Step(s, a).value;
      && (id in t.active <==> a != CleanUp(s.active[id]))
      && (id in t.active ==> t.active[id] == s.active[id])
  {
    RunsKeepInv(actions);
    var s := Run(Step, INIT, actions).value;
    match a
    case Accept(ids) =>
      var _ := RegistersUpToClash(s.active, s.nextCall, ids);
    case CleanUp(call) =>
      CleanUpKeepsInv(s, call);
      assert id in Owned(s.active, call) <==> s.active[id] == call;
  }

  /** A call that is over and has no clean-up: it was rejected. */
  predicate IsRejected(s: State, call: Call) {
    call < s.nextCall && call !in s.live
  }

  predicate IsStale(s: State, id: SwitchID, call: Call) {
    id in s.active && s.active[id] == call && IsRejected(s, call)
  }

  /** What a rejected call has registered stays for ever, and no later call with this switch is
      accepted. */
  lemma {:induction false} StaleEntriesStay(s: State, later: seq<Action>, id: SwitchID, call: Call, ids: seq<SwitchID>)
    requires Inv(s) && IsStale(s, id, call)
    requires Run(Step, s, later).Some? && id in ids
    ensures var t := Run(Step, s, later).value;
      && Inv(t) && IsStale(t, id, call)
      && !Registered(t.active, t.nextCall, ids).1
      && t.nextCall !in Step(t, Accept(ids)).value.live
  {
    if later == [] {
      var _ := RegistersUpToClash(s.active, s.nextCall, ids);
    } else {
      var init, a := later[..|later| - 1], later[|later| - 1];
      StaleEntriesStay(s, init, id, call, ids);
      StaleStep(Run(Step, s, init).value, a, id, call);
      var t := Run(Step, s, later).value;
      var _ := RegistersUpToClash(t.active, t.nextCall, ids);
      assert id in Elements(ids);
    }
  }

  /** A run that leaves such an entry: switch 2 comes before the switch 1 of another provider. */
  lemma StaleEntryInRun()
    ensures var r := Run(Step, INIT, [Accept([1]), Accept([2, 1])]);
      r.Some? && Inv(r.value) && IsStale(r.value, 2, 1)
  {
    var first: seq<SwitchID>, second: seq<SwitchID> := [1], [2, 1];
    RunTwo(Step, INIT, Accept(first), Accept(second));
    RunsKeepInv([Accept(first), Accept(second)]);
    assert first[1..] == [] && second[1..] == first;
    assert Registered(map[], 0, first) == (map[1 := 0], true);
    assert Registered(map[1 := 0], 1, second) == (map[1 := 0, 2 := 1], false);
  }

  lemma StaleStep(s: State, a: Action, id: SwitchID, call: Call)
    requires Inv(s) && IsStale(s, id, call) && Step(s, a).Some?
    ensures Inv(Step(s, a).value) && IsStale(Step(s, a).value, id, call)
  {
    match a
    case Accept(ids) =>
      var _ := RegistersUpToClash(s.active, s.nextCall, ids);
      AcceptKeepsInv(s, ids);
    case CleanUp(c) =>
      CleanUpKeepsInv(s, c);
  }

  /** A rejected call leaves nothing behind if and only if its very first switch was registered. */
  lemma RejectionLeavesNothing(active: Active, call: Call, ids: seq<SwitchID>)
    requires !Registered(active, call, ids).1
    ensures Registered(active, call, ids).0 == active <==> ids[0] in active
  {
    var n := RegistersUpToClash(active, call, ids);
    if n > 0 {
      assert ids[0] in Elements(ids[..n]);
    }
  }

  /** Once all accepted providers have ended, whatever is registered is left from a rejected call. */
  lemma {:induction false} AllEndedLeavesRejected(actions: seq<Action>, id: SwitchID)
    requires var r := Run(Step, INIT, actions); r.Some? && r.value.live == map[] && id in r.value.active
    ensures var s := Run(Step, INIT, actions).value; IsStale(s, id, s.active[id])
  {
    RunsKeepInv(actions);
  }
}
