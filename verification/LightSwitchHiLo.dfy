/** Light switches that toggle their assigned fixtures on a rising edge. */
module LightSwitches {
  import opened Sequences

  import opened Fixtures

  datatype Event = Signal(isHigh: bool) | Reassign(fixtures: seq<FixtureID>)

  class LightSwitchHiLo {
    const manager: StoredManager
    var assignments: seq<FixtureID>
    var isHigh: bool

    constructor (manager: StoredManager)
      ensures this.manager == manager && assignments == [] && !isHigh
    {
      this.manager, assignments, isHigh := manager, [], false;
    }

    /** The toggles run in parallel, and are waited for: the loop takes the pending ones in any
        order. Unknown fixtures and failing ones are only logged. */
    method ToggleAssigned()
      requires manager.Valid()
      modifies manager.fixtures.Values`isEnabled, manager.fixtures.Values`isLocating
      ensures manager.Enabled() == Toggled(old(manager.Enabled()), multiset(assignments))
    {
      var pending := multiset(assignments);
      ghost var done: multiset<FixtureID> := multiset{};
      ghost var before := manager.Enabled();
      while pending != multiset{}
        invariant done + pending == multiset(assignments)
        invariant manager.Enabled() == Toggled(before, done)
        decreases |pending|
      {
        var id :| id in pending;
        var fails: bool := *;
        var _ := manager.ToggleFixtureEnabledByID(id, fails);
        ToggledTwice(before, done, multiset{id});
        pending, done := pending - multiset{id}, done + multiset{id};
      }
      assert done == multiset(assignments);
    }

    /** Only a rising edge has an effect. */
    method HandleMessage(isHigh: bool)
      requires manager.Valid()
      modifies this`isHigh, manager.fixtures.Values`isEnabled, manager.fixtures.Values`isLocating
      ensures this.isHigh == isHigh
      ensures manager.Enabled() ==
        if !old(this.isHigh) && isHigh
        then Toggled(old(manager.Enabled()), multiset(assignments))
        else old(manager.Enabled())
    {
      if !this.isHigh && isHigh {
        ToggleAssigned();
      }
      this.isHigh := isHigh;
    }

    method SetAssignments(fixtures: seq<FixtureID>)
      modifies this`assignments
      ensures assignments == fixtures
    {
      assignments := fixtures;
    }

    /** A run of messages and reassignments: each fixture ends in its first state, changed by the
        parity of the toggles that the rising edges have asked for. */
    method Run(events: seq<Event>)
      requires manager.Valid()
      modifies this, manager.fixtures.Values`isEnabled, manager.fixtures.Values`isLocating
      ensures manager.Enabled() == Flipped(old(manager.Enabled()), events, old(isHigh), old(assignments))
      ensures NeverTwice(events, old(assignments)) ==> forall id <- manager.fixtures ::
        manager.fixtures[id].isEnabled ==
          (old(manager.fixtures[id].isEnabled)
             != (|RisingEdges(events, old(isHigh), old(assignments), id)| % 2 == 1))
    {
      ghost var before := manager.Enabled();
      for n := 0 to |events|
        invariant isHigh == LevelAfter(events[..n], old(isHigh))
        invariant assignments == AssignedAfter(events[..n], old(assignments))
        invariant manager.Enabled() == Flipped(before, events[..n], old(isHigh), old(assignments))
      {
        assert events[..n + 1] == events[..n] + [events[n]];
        Handle(events[n], before, events[..n], old(isHigh), old(assignments));
      }
      assert events[..|events|] == events;
      if NeverTwice(events, old(assignments)) {
        forall id | id in manager.fixtures
          ensures manager.fixtures[id].isEnabled
            == (before[id] != (|RisingEdges(events, old(isHigh), old(assignments), id)| % 2 == 1))
        {
          TogglesAreRisingEdges(events, old(isHigh), old(assignments), id);
          assert manager.Enabled()[id] == manager.fixtures[id].isEnabled;
        }
      }
    }

    /** One more event of a run. */
    method Handle(e: Event, ghost before: map<FixtureID, bool>, ghost done: seq<Event>, ghost isHigh0: bool,
          ghost assignments0: seq<FixtureID>)
      requires manager.Valid()
      requires isHigh == LevelAfter(done, isHigh0) && assignments == AssignedAfter(done, assignments0)
      requires manager.Enabled() == Flipped(before, done, isHigh0, assignments0)
      modifies this, manager.fixtures.Values`isEnabled, manager.fixtures.Values`isLocating
      ensures isHigh == LevelAfter(done + [e], isHigh0) && assignments == AssignedAfter(done + [e], assignments0)
      ensures manager.Enabled() == Flipped(before, done + [e], isHigh0, assignments0)
    {
      FlippedOnce(before, done, e, isHigh0, assignments0);
      ToggledNone(manager.Enabled());
      assert (done + [e])[..|done|] == done;
      match e {
        case Signal(high) => HandleMessage(high);
        case Reassign(fixtures) => SetAssignments(fixtures);
      }
    }
  }

  lemma ToggledTwice(enabled: map<FixtureID, bool>, a: multiset<FixtureID>, b: multiset<FixtureID>)
    ensures Toggled(Toggled(enabled, a), b) == Toggled(enabled, a + b)
  {
  }

  /** The level and the assignments after some events. */
  function LevelAfter(events: seq<Event>, isHigh: bool): bool {
    if events == [] then isHigh
    else if events[|events| - 1].Signal? then events[|events| - 1].isHigh
    else LevelAfter(events[..|events| - 1], isHigh)
  }

  function AssignedAfter(events: seq<Event>, assignments: seq<FixtureID>): seq<FixtureID> {
    if events == [] then assignments
    else if events[|events| - 1].Reassign? then events[|events| - 1].fixtures
    else AssignedAfter(events[..|events| - 1], assignments)
  }

  /** Whether event k is a rising edge. */
  predicate IsRising(events: seq<Event>, k: nat, isHigh: bool)
    requires k < |events|
  {
    events[k] == Signal(true) && !LevelAfter(events[..k], isHigh)
  }

  /** How often the rising edges name a fixture. */
  function Toggles(events: seq<Event>, isHigh: bool, assignments: seq<FixtureID>, id: FixtureID): nat {
    if events == [] then 0
    else
      var last := |events| - 1;
      Toggles(events[..last], isHigh, assignments, id)
        + if IsRising(events, last, isHigh) then multiset(AssignedAfter(events[..last], assignments))[id] else 0
  }

  function Flipped(enabled: map<FixtureID, bool>, events: seq<Event>, isHigh: bool,
        assignments: seq<FixtureID>): map<FixtureID, bool> {
    map id <- enabled :: enabled[id] != (Toggles(events, isHigh, assignments, id) % 2 == 1)
  }

  /** The toggles that one more event asks for. */
  function Named(events: seq<Event>, e: Event, isHigh: bool, assignments: seq<FixtureID>): multiset<FixtureID> {
    if e == Signal(true) && !LevelAfter(events, isHigh)
    then multiset(AssignedAfter(events, assignments))
    else multiset{}
  }

  lemma {:induction false} FlippedOnce(enabled: map<FixtureID, bool>, events: seq<Event>, e: Event, isHigh: bool,
        assignments: seq<FixtureID>)
    ensures Flipped(enabled, events + [e], isHigh, assignments) ==
      Toggled(Flipped(enabled, events, isHigh, assignments), Named(events, e, isHigh, assignments))
  {
    forall id | id in enabled
      ensures Flipped(enabled, events + [e], isHigh, assignments)[id]
        == Toggled(Flipped(enabled, events, isHigh, assignments), Named(events, e, isHigh, assignments))[id]
    {
      FlippedAt(enabled, events, e, isHigh, assignments, id);
    }
  }

  lemma FlippedAt(enabled: map<FixtureID, bool>, events: seq<Event>, e: Event, isHigh: bool,
      assignments: seq<FixtureID>, id: FixtureID)
    requires id in enabled
    ensures Flipped(enabled, events + [e], isHigh, assignments)[id]
      == Toggled(Flipped(enabled, events, isHigh, assignments), Named(events, e, isHigh, assignments))[id]
  {
    TogglesOnce(events, e, isHigh, assignments, id);
    ParityOfSum(Toggles(events, isHigh, assignments, id), Named(events, e, isHigh, assignments)[id]);
  }

  lemma ParityOfSum(a: nat, b: nat)
    ensures ((a + b) % 2 == 1) == ((a % 2 == 1) != (b % 2 == 1))
  {
  }

  lemma ToggledNone(enabled: map<FixtureID, bool>)
    ensures Toggled(enabled, multiset{}) == enabled
  {
  }

  lemma TogglesOnce(events: seq<Event>, e: Event, isHigh: bool, assignments: seq<FixtureID>, id: FixtureID)
    ensures Toggles(events + [e], isHigh, assignments, id) ==
      Toggles(events, isHigh, assignments, id) + Named(events, e, isHigh, assignments)[id]
  {
    assert (events + [e])[..|events|] == events;
  }

  /** The positions of the rising edges at which a fixture was assigned. */
  function RisingEdges(events: seq<Event>, isHigh: bool, assignments: seq<FixtureID>, id: FixtureID): set<nat> {
    set k: nat | k < |events| && IsRising(events, k, isHigh) && id in AssignedAfter(events[..k], assignments)
  }

  /** The store keeps the assignments of a switch free of duplicates. */
  predicate NeverTwice(events: seq<Event>, assignments: seq<FixtureID>) {
    NoDuplicates(assignments) && forall e <- events :: e.Reassign? ==> NoDuplicates(e.fixtures)
  }

  /** Without duplicates in the assignments, the toggles of a fixture are the rising edges at which it
      was assigned. */
  lemma {:induction false} TogglesAreRisingEdges(events: seq<Event>, isHigh: bool, assignments: seq<FixtureID>,
        id: FixtureID)
    requires NeverTwice(events, assignments)
    ensures Toggles(events, isHigh, assignments, id) == |RisingEdges(events, isHigh, assignments, id)|
  {
    if events != [] {
      var last := |events| - 1;
      var before := events[..last];
      TogglesAreRisingEdges(before, isHigh, assignments, id);
      AssignedHasNoDuplicates(before, assignments);
      NamedOnce(AssignedAfter(before, assignments), id);
      OneMoreEdge(events, isHigh, assignments, id);
    }
  }

  lemma OneMoreEdge(events: seq<Event>, isHigh: bool, assignments: seq<FixtureID>, id: FixtureID)
    requires events != []
    ensures var last := |events| - 1; var before := events[..last];
      RisingEdges(events, isHigh, assignments, id) == RisingEdges(before, isHigh, assignments, id)
        + if IsRising(events, last, isHigh) && id in AssignedAfter(before, assignments) then {last} else {}
  {
    var last := |events| - 1;
    forall k: nat | k < last ensures events[..last][..k] == events[..k] {
    }
  }

  lemma {:induction false} AssignedHasNoDuplicates(events: seq<Event>, assignments: seq<FixtureID>)
    requires NeverTwice(events, assignments)
    ensures NoDuplicates(AssignedAfter(events, assignments))
  {
    if events != [] {
      assert events[|events| - 1] in events;
      AssignedHasNoDuplicates(events[..|events| - 1], assignments);
    }
  }

  lemma {:induction false} NamedOnce(ids: seq<FixtureID>, id: FixtureID)
    requires NoDuplicates(ids)
    ensures multiset(ids)[id] == if id in ids then 1 else 0
  {
    if ids != [] {
      var last := |ids| - 1;
      assert ids == ids[..last] + [ids[last]];
      NamedOnce(ids[..last], id);
    }
  }
}
