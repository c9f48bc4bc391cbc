/** Fixtures, their store, and the manager that caches the stored fixtures. */
module Fixtures {
  import opened Runs

  type FixtureID = nat
  type DeviceID = string
  type ProviderID = string

  datatype FixtureType = Basic | Dimmer | Unsupported(name: string)

  /** newFixture falls back to a basic fixture. */
  function Shown(t: FixtureType): FixtureType {
    if t.Unsupported? then Basic else t
  }

  datatype Row = Row(device: DeviceID, providerID: ProviderID, name: Option<string>, fixtureType: FixtureType)

  datatype Offer = Offer(providerID: ProviderID, fixtureType: FixtureType)

  class Fixture {
    const id: FixtureID
    const fixtureType: FixtureType
    const deviceID: DeviceID
    const providerID: ProviderID
    var name: Option<string>
    var isEnabled: bool
    var isLocating: bool

    /** newFixture with the setters that are called once, before anybody else sees the fixture. */
    constructor (id: FixtureID, row: Row)
      ensures this.id == id && fixtureType == Shown(row.fixtureType)
      ensures deviceID == row.device && providerID == row.providerID && name == row.name
      ensures !isEnabled && !isLocating
    {
      this.id, fixtureType, deviceID, providerID := id, Shown(row.fixtureType), row.device, row.providerID;
      name, isEnabled, isLocating := row.name, false, false;
    }

    function Shows(): Row
      reads this`name
    {
      Row(deviceID, providerID, name, fixtureType)
    }

    /** Disabling ends the locating mode. */
    method SetEnabled(isEnabled: bool)
      modifies this`isEnabled, this`isLocating
      ensures this.isEnabled == isEnabled && this.isLocating == (old(this.isLocating) && isEnabled)
    {
      this.isEnabled := isEnabled;
      if !isEnabled {
        isLocating := false;
      }
    }

    method ToggleEnabled()
      modifies this`isEnabled, this`isLocating
      ensures isEnabled == !old(isEnabled) && isLocating == (old(isLocating) && isEnabled)
    {
      isEnabled := !isEnabled;
      if !isEnabled {
        isLocating := false;
      }
    }
  }

  /** The table of fixtures: ids are never reused, and device and provider id are unique together. The
      calls are numbered; which of them fail, without effect, and which scans end early without being
      noticed, is given. */
  class FixtureStore {
    const faults: nat -> bool
    const cuts: nat -> bool
    var calls: nat
    var rows: map<FixtureID, Row>
    var nextID: FixtureID

    ghost predicate Valid()
      reads this
    {
      && (forall id <- rows :: id < nextID)
      && UniqueOrigins(rows)
    }

    constructor (faults: nat -> bool, cuts: nat -> bool)
      ensures Valid() && rows == map[] && calls == 0 && this.faults == faults && this.cuts == cuts
    {
      this.faults, this.cuts, calls, rows, nextID := faults, cuts, 0, map[], 0;
    }

    /** All rows, unless the call fails or the scan ends early. */
    method GetFixtures() returns (r: Option<map<FixtureID, Row>>)
      modifies this`calls
      ensures calls == old(calls) + 1
      ensures r.None? <==> faults(old(calls))
      ensures r.Some? ==> IsPartOf(r.value, rows) && (!cuts(old(calls)) ==> r.value == rows)
    {
      calls := calls + 1;
      if faults(calls - 1) {
        return None;
      }
      var scanned: map<FixtureID, Row> := map[];
      var rest := rows.Keys;
      while rest != {}
        invariant rest <= rows.Keys
        invariant IsPartOf(scanned, rows)
        invariant !cuts(calls - 1) ==> scanned.Keys == rows.Keys - rest
      {
        var id :| id in rest;
        var ends: bool := *;
        if ends && cuts(calls - 1) {
          break;
        }
        scanned := scanned[id := rows[id]];
        rest := rest - {id};
      }
      return Some(scanned);
    }

    method CreateFixture(row: Row) returns (r: Option<FixtureID>)
      requires Valid()
      modifies this
      ensures Valid() && calls == old(calls) + 1
      ensures r.None? <==> faults(old(calls)) || exists id <- old(rows) :: SameOrigin(old(rows)[id], row)
      ensures r.Some? ==> r.value !in old(rows) && rows == old(rows)[r.value := row]
      ensures r.None? ==> rows == old(rows)
    {
      calls := calls + 1;
      if faults(calls - 1) || exists id <- rows :: SameOrigin(rows[id], row) {
        return None;
      }
      r := Some(nextID);
      rows := rows[nextID := row];
      nextID := nextID + 1;
    }

    method DeleteFixture(id: FixtureID) returns (ok: bool)
      requires Valid()
      modifies this`rows, this`calls
      ensures Valid() && calls == old(calls) + 1
      ensures ok <==> !faults(old(calls)) && id in old(rows)
      ensures rows == if ok then old(rows) - {id} else old(rows)
    {
      calls := calls + 1;
      if faults(calls - 1) || id !in rows {
        return false;
      }
      rows := rows - {id};
      return true;
    }

    method SetFixtureName(id: FixtureID, name: Option<string>) returns (ok: bool)
      requires Valid()
      modifies this`rows, this`calls
      ensures Valid() && calls == old(calls) + 1
      ensures ok <==> !faults(old(calls)) && id in old(rows)
      ensures rows == if ok then old(rows)[id := old(rows)[id].(name := name)] else old(rows)
    {
      calls := calls + 1;
      if faults(calls - 1) || id !in rows {
        return false;
      }
      ghost var before := rows;
      rows := rows[id := rows[id].(name := name)];
      forall i, j | i in rows && j in rows && SameOrigin(rows[i], rows[j]) ensures i == j {
        assert SameOrigin(before[i], before[j]);
      }
      return true;
    }
  }

  predicate IsPartOf(part: map<FixtureID, Row>, rows: map<FixtureID, Row>) {
    forall id <- part :: id in rows && part[id] == rows[id]
  }

  predicate SameOrigin(a: Row, b: Row) {
    a.device == b.device && a.providerID == b.providerID
  }

  predicate UniqueOrigins(rows: map<FixtureID, Row>) {
    forall i, j {:trigger SameOrigin(rows[i], rows[j])} ::
      i in rows && j in rows && SameOrigin(rows[i], rows[j]) ==> i == j
  }

  /** What the cache shows of the rows: unsupported types as basic. */
  function ShownRows(rows: map<FixtureID, Row>): map<FixtureID, Row> {
    map id <- rows :: ShownRow(rows[id])
  }

  function ShownRow(row: Row): Row {
    row.(fixtureType := Shown(row.fixtureType))
  }

  datatype AddError = TypeClash | StoreFailed

  /** Instead of a random one. */
  const NEW_NAME := "unknown"

  datatype Request =
    | Load
    | Offers(device: DeviceID, offers: seq<Offer>)
    | SetName(id: FixtureID, name: Option<string>)
    | Delete(id: FixtureID)
    | Toggle(id: FixtureID, applyFails: bool)

  /** Every known fixture is switched as often as it is named. */
  function Toggled(enabled: map<FixtureID, bool>, ids: multiset<FixtureID>): map<FixtureID, bool> {
    map id <- enabled :: enabled[id] != (ids[id] % 2 == 1)
  }

  class StoredManager {
    const store: FixtureStore
    var fixtures: map<FixtureID, Fixture>

    constructor (store: FixtureStore)
      ensures this.store == store && fixtures == map[]
    {
      this.store, fixtures := store, map[];
    }

    ghost predicate Valid()
      reads this, store
    {
      && store.Valid()
      && forall id <- fixtures :: fixtures[id].id == id
    }

    ghost function Cached(): map<FixtureID, Row>
      reads this, fixtures.Values
    {
      map id <- fixtures :: fixtures[id].Shows()
    }

    /** The cache equals the store on ids, device, provider id, name and, where supported, type. */
    ghost predicate Agrees()
      reads this, store, fixtures.Values
    {
      Valid() && fixtures.Keys == store.rows.Keys && Cached() == ShownRows(store.rows)
    }

    /** Loading shows the rows that were scanned with new objects, and forgets nothing that was cached
        before. What agrees with the store still does; what was empty does if and only if no row was
        missed. */
    method LoadKnownFixtures() returns (ok: bool, ghost loaded: map<FixtureID, Row>)
      requires Valid()
      modifies this`fixtures, store`calls
      ensures Valid() && store.rows == old(store.rows) && store.calls == old(store.calls) + 1
      ensures ok <==> !store.faults(old(store.calls))
      ensures ok && !store.cuts(old(store.calls)) ==> loaded == store.rows
      ensures !ok ==> fixtures == old(fixtures)
      ensures ok ==> IsPartOf(loaded, store.rows) && Cached() == old(Cached()) + ShownRows(loaded)
      ensures ok ==> forall id <- old(fixtures.Keys) - loaded.Keys :: IsKept(old(fixtures), id)
      ensures old(Agrees()) ==> Agrees()
      ensures ok && old(fixtures) == map[] ==> (Agrees() <==> loaded == store.rows)
      ensures forall f <- fixtures.Values :: f in old(fixtures.Values) || fresh(f)
    {
      ok, loaded := LoadRows();
      if ok {
        ShownPart(loaded, store.rows);
        assert fixtures.Keys == Cached().Keys;
      }
    }

    predicate IsKept(before: map<FixtureID, Fixture>, id: FixtureID)
      reads this
    {
      id in before && id in fixtures && fixtures[id] == before[id]
    }

    method LoadRows() returns (ok: bool, ghost loaded: map<FixtureID, Row>)
      requires Valid()
      modifies this`fixtures, store`calls
      ensures Valid() && store.rows == old(store.rows) && store.calls == old(store.calls) + 1
      ensures ok <==> !store.faults(old(store.calls))
      ensures ok && !store.cuts(old(store.calls)) ==> loaded == store.rows
      ensures !ok ==> fixtures == old(fixtures)
      ensures ok ==> IsPartOf(loaded, store.rows) && Cached() == old(Cached()) + ShownRows(loaded)
      ensures ok ==> forall id <- old(fixtures.Keys) - loaded.Keys :: IsKept(old(fixtures), id)
      ensures forall f <- fixtures.Values :: f in old(fixtures.Values) || fresh(f)
    {
      var known := store.GetFixtures();
      if known.None? {
        return false, map[];
      }
      loaded := known.value;
      ghost var before := Cached();
      ShowAll(known.value);
      ShowsBoth(before, loaded);
      return true, loaded;
    }

    lemma ShowsBoth(before: map<FixtureID, Row>, loaded: map<FixtureID, Row>)
      requires fixtures.Keys == before.Keys + loaded.Keys
      requires forall id <- loaded :: fixtures[id].Shows() == ShownRow(loaded[id])
      requires forall id <- before.Keys - loaded.Keys :: fixtures[id].Shows() == before[id]
      ensures Cached() == before + ShownRows(loaded)
    {
    }

    /** The loop of LoadKnownFixtures over the rows. */
    method ShowAll(rows: map<FixtureID, Row>)
      requires forall id <- fixtures :: fixtures[id].id == id
      modifies this`fixtures
      ensures fixtures.Keys == old(fixtures.Keys) + rows.Keys
      ensures forall id <- fixtures :: fixtures[id].id == id
      ensures forall id <- rows :: fresh(fixtures[id]) && fixtures[id].Shows() == ShownRow(rows[id])
      ensures forall id <- old(fixtures.Keys) - rows.Keys :: IsKept(old(fixtures), id)
      ensures forall f <- fixtures.Values :: f in old(fixtures.Values) || fresh(f)
    {
      var rest := rows.Keys;
      while rest != {}
        invariant rest <= rows.Keys
        invariant fixtures.Keys == old(fixtures.Keys) + (rows.Keys - rest)
        invariant forall id <- fixtures :: fixtures[id].id == id
        invariant forall id <- rows.Keys - rest :: fresh(fixtures[id]) && fixtures[id].Shows() == ShownRow(rows[id])
        invariant forall id <- old(fixtures.Keys) - rows.Keys :: IsKept(old(fixtures), id)
        invariant forall f <- fixtures.Values :: f in old(fixtures.Values) || fresh(f)
      {
        var id :| id in rest;
        Show(id, rows[id]);
        rest := rest - {id};
      }
    }

    /** A new object for a stored row. */
    method Show(id: FixtureID, row: Row)
      modifies this`fixtures
      ensures id in fixtures && fixtures == old(fixtures)[id := fixtures[id]] && fresh(fixtures[id])
      ensures fixtures[id].id == id && fixtures[id].Shows() == ShownRow(row)
      ensures Cached() == old(Cached())[id := ShownRow(row)]
      ensures IsNew(fixtures[id])
    {
      var f := new Fixture(id, row);
      fixtures := fixtures[id := f];
    }

    predicate IsCached(f: Fixture)
      reads this
    {
      f.id in fixtures && fixtures[f.id] == f
    }

    /** The inner loop of addFixturesFromProviderMessage, in any order of the map. */
    method FindFixture(device: DeviceID, providerID: ProviderID) returns (r: Option<Fixture>)
      requires Valid()
      ensures r.Some? ==> IsCached(r.value) && IsFrom(r.value, device, providerID)
      ensures r.None? ==> forall id <- fixtures :: !IsFrom(fixtures[id], device, providerID)
    {
      var rest := fixtures.Keys;
      while rest != {}
        invariant rest <= fixtures.Keys
        invariant forall id <- fixtures.Keys - rest :: !IsFrom(fixtures[id], device, providerID)
      {
        var id :| id in rest;
        if IsFrom(fixtures[id], device, providerID) {
          return Some(fixtures[id]);
        }
        rest := rest - {id};
      }
      return None;
    }

    /** Whatever fails on the way, the cache equals the store, and nothing known is changed or
        forgotten. Fails if and only if a call of the store does or an offer does not have the type that
        is known for it when its turn comes, which is that of offer n. The store is asked once for each
        row that is created, and by a call that fails. */
    method AddFixturesFromProviderMessage(device: DeviceID, offers: seq<Offer>)
      returns (err: Option<AddError>, results: seq<Fixture>, ghost n: nat, ghost done: seq<Fixture>)
      requires Agrees()
      modifies this`fixtures, store
      ensures Agrees()
      ensures AllAdded(old(fixtures), old(store.rows), fixtures, store.rows, device, offers, err, n, done)
      ensures results == if err.None? then done else []
      ensures err.None? <==>
        !HasFault(store.faults, old(store.calls), store.calls) && !AnyClash(old(store.rows), fixtures, device, offers)
      ensures CallsMade(store.faults, old(store.calls), store.calls, |store.rows| - old(|store.rows|), err)
      ensures forall f <- fixtures.Values :: f in old(fixtures.Values) || (fresh(f) && IsNew(f))
    {
      ghost var before, rows0 := fixtures, store.rows;
      err, results, n := AddEach(device, offers);
      done := results;
      if err.Some? {
        results := [];
      } else {
        AgreeingCacheIsUnique();
        NothingClashes(before, rows0, fixtures, store.rows, device, offers, done);
      }
      SucceedsExactly(before, rows0, fixtures, store.rows, device, offers, err, n, done,
                      HasFault(store.faults, old(store.calls), store.calls));
    }

    /** The loop: the offers before n have been added. */
    method AddEach(device: DeviceID, offers: seq<Offer>)
      returns (err: Option<AddError>, done: seq<Fixture>, ghost n: nat)
      requires Agrees()
      modifies this`fixtures, store
      ensures AddedSoFar(old(fixtures), old(store.rows), old(store.calls), device, offers, n, done, err)
      ensures forall f <- fixtures.Values :: f in old(fixtures.Values) || (fresh(f) && IsNew(f))
    {
      err, done, n := None, [], 0;
      ghost var before, rows0, calls0 := fixtures, store.rows, store.calls;
      for i := 0 to |offers|
        invariant err.None? && n == i
        invariant Agrees() && Progress(before, rows0, fixtures, store.rows, device, offers, i, done)
        invariant CallsMade(store.faults, calls0, store.calls, |store.rows| - |rows0|, None)
        invariant forall f <- fixtures.Values :: f in old(fixtures.Values) || (fresh(f) && IsNew(f))
      {
        err, done := AddNext(device, offers, i, done, before, rows0, calls0);
        if err.Some? {
          return;
        }
        n := i + 1;
      }
    }

    ghost predicate AddedSoFar(before: Cache, rows0: Rows, calls0: nat, device: DeviceID, offers: seq<Offer>, n: nat,
        done: seq<Fixture>, err: Option<AddError>)
      reads this, store, fixtures.Values
    {
      && Agrees()
      && Progress(before, rows0, fixtures, store.rows, device, offers, n, done)
      && (if err.None? then n == |offers| else StopsAt(rows0, fixtures, device, offers, n, err.value))
      && CallsMade(store.faults, calls0, store.calls, |store.rows| - |rows0|, err)
    }

    method AddNext(device: DeviceID, offers: seq<Offer>, n: nat, before: seq<Fixture>,
        ghost fixtures0: Cache, ghost rows0: Rows, ghost calls0: nat)
      returns (err: Option<AddError>, done: seq<Fixture>)
      requires n < |offers| && Agrees()
      requires Progress(fixtures0, rows0, fixtures, store.rows, device, offers, n, before)
      requires CallsMade(store.faults, calls0, store.calls, |store.rows| - |rows0|, None)
      modifies this`fixtures, store
      ensures Agrees()
      ensures err.None? ==> Progress(fixtures0, rows0, fixtures, store.rows, device, offers, n + 1, done)
      ensures err.Some? ==>
        && Progress(fixtures0, rows0, fixtures, store.rows, device, offers, n, done)
        && StopsAt(rows0, fixtures, device, offers, n, err.value)
      ensures CallsMade(store.faults, calls0, store.calls, |store.rows| - |rows0|, err)
      ensures forall f <- fixtures.Values :: f in old(fixtures.Values) || (fresh(f) && IsNew(f))
    {
      ghost var mid, rowsMid := fixtures, store.rows;
      ghost var callsMid := store.calls;
      var f;
      err, f := AddOffered(device, offers[n]);
      OneMoreCall(store.faults, calls0, callsMid, |rowsMid| - |rows0|, store.calls, |store.rows| - |rows0|, err);
      if err.None? {
        done := before + [f.value];
        ProgressContinues(fixtures0, rows0, mid, rowsMid, fixtures, store.rows, device, offers, n, before, f.value);
      } else {
        done := before;
        OriginsKept(rows0, rowsMid, device);
        ProgressStops(rows0, mid, rowsMid, device, offers, n, before, err.value);
      }
    }

    predicate IsNew(f: Fixture)
      reads f
    {
      !f.isEnabled && !f.isLocating
    }

    /** A provider that comes again with the same offers: the first success creates one row for each
        provider id that was not stored, with one fixture for repeated offers; the second run creates
        nothing and gives the same fixtures, if and only if all types are supported. */
    method OfferTwice(device: DeviceID, offers: seq<Offer>)
      returns (err: Option<AddError>, results: seq<Fixture>, again: Option<AddError>, resultsAgain: seq<Fixture>)
      requires Agrees()
      modifies this`fixtures, store
      ensures Agrees()
      ensures err.None? ==>
        && |store.rows| == old(|store.rows|) + |Offered(offers) - old(Origins(store.rows, device))|
        && (again.None? <==> forall o <- offers :: !o.fixtureType.Unsupported?)
        && (again.None? ==> resultsAgain == results)
        && |results| == |offers|
        && forall i, j :: 0 <= i < j < |offers| && offers[i].providerID == offers[j].providerID ==>
             results[i] == results[j]
    {
      ghost var before, rows0 := fixtures, store.rows;
      ghost var n, m, done, doneAgain;
      err, results, n, done := AddFixturesFromProviderMessage(device, offers);
      ghost var after, rows := fixtures, store.rows;
      AgreeingCacheIsUnique();
      again, resultsAgain, m, doneAgain := AddFixturesFromProviderMessage(device, offers);
      if err.None? {
        SecondRunIsIdle(before, rows0, after, rows, fixtures, store.rows, device, offers, results,
                        again, m, doneAgain);
        AllStored(before, rows0, after, rows, device, offers, results);
        OneRowPerUnseenProvider(rows0, rows, device, offers);
        forall i, j | 0 <= i < j < |offers| && offers[i].providerID == offers[j].providerID
          ensures results[i] == results[j]
        {
          RepeatedOffersShareFixture(before, rows0, after, rows, device, offers, results, i, j);
        }
      }
    }

    /** One offer: the cached fixture when its type fits, else a new row and fixture. */
    method AddOffered(device: DeviceID, offer: Offer) returns (err: Option<AddError>, f: Option<Fixture>)
      requires Agrees()
      modifies this`fixtures, store
      ensures Agrees()
      ensures Added(old(fixtures), old(store.rows), fixtures, store.rows, device, offer, err, f)
      ensures var isStored := offer.providerID in old(Origins(store.rows, device));
        && store.calls == old(store.calls) + (if isStored then 0 else 1)
        && (err == Some(StoreFailed) <==> !isStored && store.faults(old(store.calls)))
        && (err == Some(TypeClash) ==> isStored)
        && |store.rows| == old(|store.rows|) + (if isStored || err == Some(StoreFailed) then 0 else 1)
      ensures forall f <- fixtures.Values :: f in old(fixtures.Values) || (fresh(f) && IsNew(f))
    {
      f := FindFixture(device, offer.providerID);
      if f.Some? {
        CachedIsStored(f.value);
        err := if f.value.fixtureType == offer.fixtureType then None else Some(TypeClash);
        return;
      }
      NotCached(device, offer.providerID);
      f := CreateAndCache(Row(device, offer.providerID, Some(NEW_NAME), offer.fixtureType));
      err := if f.Some? then None else Some(StoreFailed);
    }

    /** A new row, and the fixture that shows it. */
    method CreateAndCache(row: Row) returns (f: Option<Fixture>)
      requires Agrees()
      requires row.providerID !in Origins(store.rows, row.device)
      modifies this`fixtures, store
      ensures Agrees()
      ensures store.calls == old(store.calls) + 1 && (f.None? <==> store.faults(old(store.calls)))
      ensures f.None? ==> fixtures == old(fixtures) && store.rows == old(store.rows)
      ensures f.Some? ==> IsNew(f.value)
      ensures f.Some? ==>
        && f.value.id !in old(store.rows) && fresh(f.value)
        && store.rows == old(store.rows)[f.value.id := row]
        && fixtures == old(fixtures)[f.value.id := f.value]
        && StandsFor(fixtures, f.value, row.device, Offer(row.providerID, row.fixtureType))
        && row.providerID in Origins(store.rows, row.device)
    {
      var created := store.CreateFixture(row);
      if created.None? {
        return None;
      }
      OriginsGrow(old(store.rows), created.value, row);
      ShownRowsGrow(old(store.rows), created.value, row);
      Show(created.value, row);
      return Some(fixtures[created.value]);
    }

    lemma CachedIsStored(f: Fixture)
      requires Agrees() && IsCached(f)
      ensures f.providerID in Origins(store.rows, f.deviceID) && !f.fixtureType.Unsupported?
    {
      assert Cached()[f.id] == f.Shows();
      assert ShownRows(store.rows)[f.id] == ShownRow(store.rows[f.id]);
    }

    /** The name is changed in both places or in none; an unknown fixture does not reach the store. */
    method SetFixtureName(id: FixtureID, name: Option<string>) returns (ok: bool)
      requires Agrees()
      modifies store, fixtures.Values
      ensures Agrees() && fixtures == old(fixtures)
      ensures ok <==> id in fixtures && !store.faults(old(store.calls))
      ensures store.calls == old(store.calls) + if id in fixtures then 1 else 0
      ensures store.rows == if ok then old(store.rows)[id := old(store.rows)[id].(name := name)] else old(store.rows)
      ensures ok ==> fixtures[id].name == name
      ensures forall f <- fixtures.Values :: f.isEnabled == old(f.isEnabled) && f.isLocating == old(f.isLocating)
    {
      if id !in fixtures {
        return false;
      }
      ok := store.SetFixtureName(id, name);
      if ok {
        Rename(fixtures[id], name);
        ShownRowsGrow(old(store.rows), id, store.rows[id]);
        assert Cached()[id] == old(Cached())[id].(name := name);
      }
    }

    method Rename(f: Fixture, name: Option<string>)
      requires Valid() && IsCached(f)
      modifies f`name
      ensures Cached() == old(Cached())[f.id := f.Shows()]
      ensures f.name == name
    {
      f.name := name;
    }

    /** The fixture disappears from both places or from none. */
    method DeleteFixture(id: FixtureID) returns (ok: bool)
      requires Agrees()
      modifies this`fixtures, store
      ensures Agrees() && store.calls == old(store.calls) + 1
      ensures ok <==> id in old(fixtures) && !store.faults(old(store.calls))
      ensures store.rows == if ok then old(store.rows) - {id} else old(store.rows)
      ensures fixtures == if ok then old(fixtures) - {id} else old(fixtures)
    {
      ok := store.DeleteFixture(id);
      if ok {
        fixtures := fixtures - {id};
        assert Cached() == old(Cached()) - {id};
        assert ShownRows(store.rows) == ShownRows(old(store.rows)) - {id};
      }
    }

    ghost function Enabled(): map<FixtureID, bool>
      reads this`fixtures, fixtures.Values
    {
      map id <- fixtures :: fixtures[id].isEnabled
    }

    /** Exactly the named fixture is switched; applying the new state may fail, which takes nothing
        back. */
    method ToggleFixtureEnabledByID(id: FixtureID, applyFails: bool) returns (ok: bool)
      requires Valid()
      modifies fixtures.Values`isEnabled, fixtures.Values`isLocating
      ensures forall i <- fixtures :: fixtures[i].isEnabled == (old(fixtures[i].isEnabled) != (i == id))
      ensures Enabled() == Toggled(old(Enabled()), multiset{id})
      ensures forall i <- fixtures ::
        fixtures[i].isLocating == (old(fixtures[i].isLocating) && (i != id || fixtures[i].isEnabled))
      ensures ok <==> id in fixtures && !applyFails
    {
      if id !in fixtures {
        return false;
      }
      var f := fixtures[id];
      f.ToggleEnabled();
      assert forall j <- fixtures :: j != id ==> fixtures[j] != f;
      return !applyFails;
    }

    /** In every run of loads, offers, renames, deletes and toggles, whatever fails on the way, the
        cache stays equal to the store. */
    method Serve(requests: seq<Request>)
      requires Agrees()
      modifies this`fixtures, store, fixtures.Values
      ensures Agrees()
    {
      for n := 0 to |requests|
        invariant Agrees() && (forall f <- fixtures.Values :: f in old(fixtures.Values) || fresh(f))
      {
        ServeOne(requests[n]);
      }
    }

    method ServeOne(request: Request)
      requires Agrees()
      modifies this`fixtures, store, fixtures.Values
      ensures Agrees()
      ensures forall f <- fixtures.Values :: f in old(fixtures.Values) || fresh(f)
    {
      match request
      case Load =>
        var _, _ := LoadKnownFixtures();
      case Offers(device, offers) =>
        var _, _, _, _ := AddFixturesFromProviderMessage(device, offers);
      case SetName(id, name) =>
        var _ := SetFixtureName(id, name);
      case Delete(id) =>
        var _ := DeleteFixture(id);
      case Toggle(id, applyFails) =>
        var _ := ToggleFixtureEnabledByID(id, applyFails);
    }

    lemma AgreeingCacheIsUnique()
      requires Agrees()
      ensures UniqueCache(fixtures)
    {
      forall i, j | i in fixtures && j in fixtures
          && fixtures[i].deviceID == fixtures[j].deviceID && fixtures[i].providerID == fixtures[j].providerID
        ensures fixtures[i] == fixtures[j]
      {
        assert Cached()[i] == ShownRows(store.rows)[i] && Cached()[j] == ShownRows(store.rows)[j];
        assert SameOrigin(store.rows[i], store.rows[j]);
      }
    }

    lemma NotCached(device: DeviceID, providerID: ProviderID)
      requires Agrees()
      requires forall id <- fixtures :: !IsFrom(fixtures[id], device, providerID)
      ensures providerID !in Origins(store.rows, device)
    {
      forall id | id in store.rows
        ensures !(store.rows[id].device == device && store.rows[id].providerID == providerID)
      {
        assert Cached()[id] == ShownRows(store.rows)[id];
      }
    }
  }

  /** Whether one of these calls failed. */
  ghost predicate HasFault(faults: nat -> bool, first: nat, end: nat) {
    exists c: nat :: first <= c < end && faults(c)
  }

  /** One call for each row that was created, and a last one exactly if it failed. */
  ghost predicate CallsMade(faults: nat -> bool, first: nat, end: nat, created: int, err: Option<AddError>) {
    && first <= end && end - first == created + (if err == Some(StoreFailed) then 1 else 0)
    && (err == Some(StoreFailed) <==> HasFault(faults, first, end))
  }

  lemma OneMoreCall(faults: nat -> bool, first: nat, mid: nat, before: int, end: nat, created: int,
      err: Option<AddError>)
    requires CallsMade(faults, first, mid, before, None)
    requires end == mid || end == mid + 1
    requires err == Some(StoreFailed) <==> end == mid + 1 && faults(mid)
    requires created == before + if end == mid || err == Some(StoreFailed) then 0 else 1
    ensures CallsMade(faults, first, end, created, err)
  {
    if end == mid + 1 && faults(mid) {
      assert first <= mid < end && faults(mid);
    }
  }

  predicate IsFrom(f: Fixture, device: DeviceID, providerID: ProviderID) {
    f.deviceID == device && f.providerID == providerID
  }

  type Cache = map<FixtureID, Fixture>
  type Rows = map<FixtureID, Row>

  predicate StandsFor(fixtures: Cache, f: Fixture, device: DeviceID, offer: Offer) {
    && f.id in fixtures && fixtures[f.id] == f
    && f.deviceID == device && f.providerID == offer.providerID && f.fixtureType == Shown(offer.fixtureType)
  }

  /** An offer whose type is not the one that is cached for its provider id. */
  predicate Clashes(fixtures: Cache, device: DeviceID, offer: Offer) {
    exists id <- fixtures ::
      IsFrom(fixtures[id], device, offer.providerID) && fixtures[id].fixtureType != offer.fixtureType
  }

  predicate Extends(before: Cache, after: Cache) {
    forall id <- before :: id in after && after[id] == before[id]
  }

  /** What adding one offer does. */
  ghost predicate Added(before: Cache, rows0: Rows, after: Cache, rows: Rows, device: DeviceID, offer: Offer,
        err: Option<AddError>, f: Option<Fixture>) {
    var isStored := offer.providerID in Origins(rows0, device);
    && Extends(before, after) && Grown(rows0, rows, device, [offer])
    && (err.Some? || isStored ==> rows == rows0 && after == before)
    && (err.None? ==> f.Some? && StandsFor(after, f.value, device, offer) && offer.providerID in Origins(rows, device))
    && (err == Some(TypeClash) ==> isStored && Clashes(after, device, offer))
    && (isStored ==> err != Some(StoreFailed) && (err.None? ==> f.value.fixtureType == offer.fixtureType))
  }

  /** Whether a provider id is stored, or one of the first n offers. */
  predicate IsKnown(rows0: Rows, device: DeviceID, offers: seq<Offer>, n: nat, providerID: ProviderID)
    requires n <= |offers|
  {
    providerID in Origins(rows0, device) || exists j :: 0 <= j < n && offers[j].providerID == providerID
  }

  /** Offer i comes for a provider id that is known by then, with another type. */
  predicate ClashesAt(rows0: Rows, fixtures: Cache, device: DeviceID, offers: seq<Offer>, i: nat)
    requires i < |offers|
  {
    IsKnown(rows0, device, offers, i, offers[i].providerID) && Clashes(fixtures, device, offers[i])
  }

  ghost predicate AnyClash(rows0: Rows, fixtures: Cache, device: DeviceID, offers: seq<Offer>) {
    exists i :: 0 <= i < |offers| && ClashesAt(rows0, fixtures, device, offers, i)
  }

  lemma SucceedsExactly(before: Cache, rows0: Rows, after: Cache, rows: Rows, device: DeviceID, offers: seq<Offer>,
      err: Option<AddError>, n: nat, done: seq<Fixture>, hasFault: bool)
    requires AllAdded(before, rows0, after, rows, device, offers, err, n, done)
    requires err == Some(StoreFailed) <==> hasFault
    ensures err.None? <==> !hasFault && !AnyClash(rows0, after, device, offers)
  {
    match err
    case None =>
    case Some(TypeClash) => assert ClashesAt(rows0, after, device, offers, n);
    case Some(StoreFailed) =>
  }

  /** What adding the first n offers has done. */
  ghost predicate Progress(before: Cache, rows0: Rows, after: Cache, rows: Rows, device: DeviceID,
      offers: seq<Offer>, n: nat, done: seq<Fixture>) {
    && n <= |offers| && |done| == n
    && Covered(before, rows0, after, rows, device, offers, n, done)
    && KnownSoFar(rows0, rows, device, offers, n, done)
  }

  /** What was there is kept, what is new is new and offered, and the fixtures stand for the offers. */
  ghost predicate Covered(before: Cache, rows0: Rows, after: Cache, rows: Rows, device: DeviceID,
      offers: seq<Offer>, n: nat, done: seq<Fixture>)
    requires n <= |offers| && |done| == n
  {
    && Extends(before, after) && Grown(rows0, rows, device, offers)
    && (forall i :: 0 <= i < n ==> StandsFor(after, done[i], device, offers[i]))
    && ((forall i :: 0 <= i < n ==> offers[i].providerID in Origins(rows0, device)) ==>
          rows == rows0 && after == before)
  }

  /** The provider ids that are known are stored, and offers for them came with their type. */
  ghost predicate KnownSoFar(rows0: Rows, rows: Rows, device: DeviceID, offers: seq<Offer>, n: nat, done: seq<Fixture>)
    requires n <= |offers| && |done| == n
  {
    && (forall i :: 0 <= i < n ==> offers[i].providerID in Origins(rows, device))
    && (forall p <- Origins(rows, device) :: IsKnown(rows0, device, offers, n, p))
    && (forall i :: 0 <= i < n && IsKnown(rows0, device, offers, i, offers[i].providerID) ==>
          done[i].fixtureType == offers[i].fixtureType)
  }

  /** Offer n clashes, or it is not known and could not be created. */
  ghost predicate StopsAt(rows0: Rows, fixtures: Cache, device: DeviceID, offers: seq<Offer>, n: nat, e: AddError) {
    && n < |offers|
    && if e.TypeClash? then ClashesAt(rows0, fixtures, device, offers, n)
       else !IsKnown(rows0, device, offers, n, offers[n].providerID)
  }

  /** The offers before n have been added, and on success these are all: then the results stand for
      them, position by position, and none clashes. */
  ghost predicate AllAdded(before: Cache, rows0: Rows, after: Cache, rows: Rows, device: DeviceID,
      offers: seq<Offer>, err: Option<AddError>, n: nat, done: seq<Fixture>) {
    && Progress(before, rows0, after, rows, device, offers, n, done)
    && match err
       case None => n == |offers| && !AnyClash(rows0, after, device, offers)
       case Some(e) => StopsAt(rows0, after, device, offers, n, e)
  }

  lemma ProgressContinues(before: Cache, rows0: Rows, mid: Cache, rowsMid: Rows, after: Cache, rows: Rows,
      device: DeviceID, offers: seq<Offer>, n: nat, done: seq<Fixture>, f: Fixture)
    requires n < |offers|
    requires Progress(before, rows0, mid, rowsMid, device, offers, n, done)
    requires Added(mid, rowsMid, after, rows, device, offers[n], None, Some(f))
    ensures Progress(before, rows0, after, rows, device, offers, n + 1, done + [f])
  {
    GrownMore(rows0, rowsMid, rows, device, offers, offers[n]);
    CoveredContinues(before, rows0, mid, rowsMid, after, rows, device, offers, n, done, f);
    KnownContinues(rows0, rowsMid, rows, device, offers, n, done, f);
  }

  lemma ProgressStops(rows0: Rows, fixtures: Cache, rows: Rows, device: DeviceID, offers: seq<Offer>, n: nat,
      done: seq<Fixture>, e: AddError)
    requires n < |offers| && |done| == n && KnownSoFar(rows0, rows, device, offers, n, done)
    requires Origins(rows0, device) <= Origins(rows, device)
    requires e.TypeClash? ==> offers[n].providerID in Origins(rows, device) && Clashes(fixtures, device, offers[n])
    requires e.StoreFailed? ==> offers[n].providerID !in Origins(rows, device)
    ensures StopsAt(rows0, fixtures, device, offers, n, e)
  {
    KnownIsStored(rows0, rows, device, offers, n, offers[n].providerID);
  }

  lemma CoveredContinues(before: Cache, rows0: Rows, mid: Cache, rowsMid: Rows, after: Cache, rows: Rows,
      device: DeviceID, offers: seq<Offer>, n: nat, done: seq<Fixture>, f: Fixture)
    requires n < |offers| && |done| == n && Covered(before, rows0, mid, rowsMid, device, offers, n, done)
    requires Extends(mid, after) && Grown(rows0, rows, device, offers) && StandsFor(after, f, device, offers[n])
    requires Origins(rows0, device) <= Origins(rowsMid, device)
    requires offers[n].providerID in Origins(rowsMid, device) ==> rows == rowsMid && after == mid
    ensures Covered(before, rows0, after, rows, device, offers, n + 1, done + [f])
  {
  }

  lemma KnownContinues(rows0: Rows, mid: Rows, rows: Rows, device: DeviceID, offers: seq<Offer>, n: nat,
      done: seq<Fixture>, f: Fixture)
    requires n < |offers| && |done| == n && KnownSoFar(rows0, mid, device, offers, n, done)
    requires Origins(rows0, device) <= Origins(mid, device) <= Origins(rows, device)
    requires Grown(mid, rows, device, [offers[n]]) && offers[n].providerID in Origins(rows, device)
    requires offers[n].providerID in Origins(mid, device) ==> f.fixtureType == offers[n].fixtureType
    ensures KnownSoFar(rows0, rows, device, offers, n + 1, done + [f])
  {
    forall p | p in Origins(rows, device) ensures IsKnown(rows0, device, offers, n + 1, p) {
      OriginsOfOne(mid, rows, device, offers[n], p);
      if p == offers[n].providerID {
        assert offers[n].providerID == p;
      } else {
        assert IsKnown(rows0, device, offers, n, p);
      }
    }
    KnownIsStored(rows0, mid, device, offers, n, offers[n].providerID);
  }

  lemma KnownIsStored(rows0: Rows, rows: Rows, device: DeviceID, offers: seq<Offer>, n: nat, p: ProviderID)
    requires n <= |offers| && Origins(rows0, device) <= Origins(rows, device)
    requires forall i :: 0 <= i < n ==> offers[i].providerID in Origins(rows, device)
    ensures IsKnown(rows0, device, offers, n, p) ==> p in Origins(rows, device)
  {
  }

  lemma OriginsOfOne(before: Rows, after: Rows, device: DeviceID, offer: Offer, p: ProviderID)
    requires Grown(before, after, device, [offer]) && p in Origins(after, device)
    ensures p in Origins(before, device) || p == offer.providerID
  {
    var id :| id in after && after[id].device == device && after[id].providerID == p;
    if id in before {
      assert before[id] == after[id];
    }
  }

  /** After a success no offer clashes. */
  lemma NothingClashes(before: Cache, rows0: Rows, after: Cache, rows: Rows, device: DeviceID,
      offers: seq<Offer>, done: seq<Fixture>)
    requires Progress(before, rows0, after, rows, device, offers, |offers|, done) && UniqueCache(after)
    ensures AllAdded(before, rows0, after, rows, device, offers, None, |offers|, done)
  {
    forall i | 0 <= i < |offers| ensures !ClashesAt(rows0, after, device, offers, i) {
      assert StandsFor(after, done[i], device, offers[i]);
    }
  }

  predicate UniqueCache(fixtures: Cache) {
    forall i <- fixtures, j <- fixtures ::
      IsFrom(fixtures[i], fixtures[j].deviceID, fixtures[j].providerID) ==> fixtures[i] == fixtures[j]
  }

  lemma AllStored(before: Cache, rows0: Rows, after: Cache, rows: Rows, device: DeviceID, offers: seq<Offer>,
        results: seq<Fixture>)
    requires Progress(before, rows0, after, rows, device, offers, |offers|, results)
    ensures Offered(offers) <= Origins(rows, device)
  {
    forall o | o in offers ensures o.providerID in Origins(rows, device) {
      var i :| 0 <= i < |offers| && offers[i] == o;
    }
  }

  /** Offers that repeat a provider id get one fixture. */
  lemma {:induction false} RepeatedOffersShareFixture(before: Cache, rows0: Rows, after: Cache, rows: Rows,
      device: DeviceID, offers: seq<Offer>, results: seq<Fixture>, i: nat, j: nat)
    requires AllAdded(before, rows0, after, rows, device, offers, None, |offers|, results) && UniqueCache(after)
    requires i < |offers| && j < |offers| && offers[i].providerID == offers[j].providerID
    ensures |results| == |offers| && results[i] == results[j]
  {
    assert StandsFor(after, results[i], device, offers[i]) && StandsFor(after, results[j], device, offers[j]);
  }

  /** After a success the same offers change nothing; they succeed again, with the same fixtures, if
      and only if all their types are supported. */
  lemma SecondRunIsIdle(before: Cache, rows0: Rows, after: Cache, rows: Rows, after2: Cache, rows2: Rows,
                        device: DeviceID, offers: seq<Offer>, results: seq<Fixture>,
                        err2: Option<AddError>, n2: nat, done2: seq<Fixture>)
    requires AllAdded(before, rows0, after, rows, device, offers, None, |offers|, results) && UniqueCache(after)
    requires AllAdded(after, rows, after2, rows2, device, offers, err2, n2, done2)
    ensures after2 == after && rows2 == rows
    ensures err2.None? <==> forall o <- offers :: !o.fixtureType.Unsupported?
    ensures err2.None? ==> done2 == results
  {
    AllStored(before, rows0, after, rows, device, offers, results);
    forall i | 0 <= i < |offers| ensures offers[i].providerID in Origins(rows, device) {
      assert offers[i].providerID in Offered(offers);
    }
    match err2
    case None =>
      forall i | 0 <= i < |offers| ensures done2[i] == results[i] && !offers[i].fixtureType.Unsupported? {
        assert StandsFor(after, results[i], device, offers[i]) && StandsFor(after2, done2[i], device, offers[i]);
        assert IsKnown(rows, device, offers, i, offers[i].providerID);
      }
      assert forall o <- offers :: !o.fixtureType.Unsupported?;
    case Some(e) =>
      assert e == TypeClash;
      assert offers[n2] in offers && Clashes(after, device, offers[n2]);
      ClashIsUnsupported(after, device, offers, results);
  }

  /** Among fixtures that stand for all offers, only an unsupported type can clash. */
  lemma ClashIsUnsupported(fixtures: Cache, device: DeviceID, offers: seq<Offer>, results: seq<Fixture>)
    requires UniqueCache(fixtures) && |results| == |offers|
    requires forall i :: 0 <= i < |offers| ==> StandsFor(fixtures, results[i], device, offers[i])
    requires exists o <- offers :: Clashes(fixtures, device, o)
    ensures exists o <- offers :: o.fixtureType.Unsupported?
  {
    var o :| o in offers && Clashes(fixtures, device, o);
    var i :| 0 <= i < |offers| && offers[i] == o;
    var id :| id in fixtures && IsFrom(fixtures[id], device, o.providerID) && fixtures[id].fixtureType != o.fixtureType;
    assert StandsFor(fixtures, results[i], device, o);
  }

  function Offered(offers: seq<Offer>): set<ProviderID> {
    set o <- offers :: o.providerID
  }

  /** The rows that were created for a provider id of this device. */
  ghost predicate IsCreatedFor(rows0: Rows, rows: Rows, device: DeviceID, providerID: ProviderID, id: FixtureID) {
    id in rows && id !in rows0 && rows[id].device == device && rows[id].providerID == providerID
  }

  /** A success creates one row for each distinct provider id that was not stored, and no other. */
  lemma {:induction false} OneRowPerUnseenProvider(rows0: Rows, rows: Rows, device: DeviceID, offers: seq<Offer>)
    requires Grown(rows0, rows, device, offers) && UniqueOrigins(rows)
    requires Offered(offers) <= Origins(rows, device)
    ensures var unseen := Offered(offers) - Origins(rows0, device);
      && (forall p <- unseen :: exists id :: IsCreatedFor(rows0, rows, device, p, id))
      && (forall id <- rows.Keys - rows0.Keys :: rows[id].device == device && rows[id].providerID in unseen)
      && |rows| == |rows0| + |unseen|
  {
    var unseen := Offered(offers) - Origins(rows0, device);
    CreatedAreUnseen(rows0, rows, device, offers);
    UnseenAreCreated(rows0, rows, device, offers);
    OriginsCount(rows0, rows, device, rows.Keys - rows0.Keys, unseen);
    CountCreated(rows0, rows);
  }

  lemma CountCreated(rows0: Rows, rows: Rows)
    requires rows0.Keys <= rows.Keys
    ensures |rows| == |rows0| + |rows.Keys - rows0.Keys|
  {
    assert rows.Keys == rows0.Keys + (rows.Keys - rows0.Keys);
  }

  lemma CreatedAreUnseen(rows0: Rows, rows: Rows, device: DeviceID, offers: seq<Offer>)
    requires Grown(rows0, rows, device, offers)
    ensures forall id <- rows.Keys - rows0.Keys ::
      rows[id].device == device && rows[id].providerID in Offered(offers) - Origins(rows0, device)
  {
    forall id | id in rows.Keys - rows0.Keys ensures rows[id].providerID in Offered(offers) {
      assert Offer(rows[id].providerID, rows[id].fixtureType) in offers;
    }
  }

  lemma UnseenAreCreated(rows0: Rows, rows: Rows, device: DeviceID, offers: seq<Offer>)
    requires Grown(rows0, rows, device, offers)
    requires Offered(offers) <= Origins(rows, device)
    ensures forall p <- Offered(offers) - Origins(rows0, device) ::
      exists id :: IsCreatedFor(rows0, rows, device, p, id)
  {
    forall p | p in Offered(offers) - Origins(rows0, device)
      ensures exists id :: IsCreatedFor(rows0, rows, device, p, id)
    {
      var id :| id in rows && rows[id].device == device && rows[id].providerID == p;
      assert id in rows0 ==> rows0[id].providerID in Origins(rows0, device);
      assert IsCreatedFor(rows0, rows, device, p, id);
    }
  }

  lemma {:induction false} OriginsCount(rows0: Rows, rows: Rows, device: DeviceID, ids: set<FixtureID>,
        providers: set<ProviderID>)
    requires UniqueOrigins(rows) && ids <= rows.Keys - rows0.Keys
    requires forall id <- ids :: rows[id].device == device && rows[id].providerID in providers
    requires forall p <- providers :: exists id :: id in ids && IsCreatedFor(rows0, rows, device, p, id)
    ensures |ids| == |providers|
    decreases |providers|
  {
    if providers == {} {
      assert ids == {};
    } else {
      var p :| p in providers;
      var id :| id in ids && IsCreatedFor(rows0, rows, device, p, id);
      forall j | j in ids && j != id ensures rows[j].providerID != p {
        assert !SameOrigin(rows[j], rows[id]);
      }
      forall q | q in providers - {p} ensures exists j :: j in ids - {id} && IsCreatedFor(rows0, rows, device, q, j) {
        var j :| j in ids && IsCreatedFor(rows0, rows, device, q, j);
        assert j in ids - {id};
      }
      OriginsCount(rows0, rows, device, ids - {id}, providers - {p});
    }
  }

  /** The provider ids stored for a device. */
  function Origins(rows: map<FixtureID, Row>, device: DeviceID): set<ProviderID> {
    set id <- rows | rows[id].device == device :: rows[id].providerID
  }

  /** Old rows are kept; each new row is that of an offered provider id that was not stored. */
  ghost predicate Grown(before: map<FixtureID, Row>, after: map<FixtureID, Row>, device: DeviceID, offers: seq<Offer>) {
    && (forall id <- before :: id in after && after[id] == before[id])
    && (forall id <- after :: id !in before ==>
          && after[id].device == device && after[id].name == Some(NEW_NAME)
          && Offer(after[id].providerID, after[id].fixtureType) in offers
          && after[id].providerID !in Origins(before, device))
  }

  lemma ShownPart(part: Rows, rows: Rows)
    requires IsPartOf(part, rows)
    ensures ShownRows(rows) + ShownRows(part) == ShownRows(rows)
    ensures part == rows <==> ShownRows(part) == ShownRows(rows)
  {
    assert ShownRows(part).Keys == part.Keys && ShownRows(rows).Keys == rows.Keys;
  }

  lemma ShownRowsGrow(rows: Rows, id: FixtureID, row: Row)
    ensures ShownRows(rows[id := row]) == ShownRows(rows)[id := ShownRow(row)]
  {
  }

  lemma OriginsGrow(rows: map<FixtureID, Row>, id: FixtureID, row: Row)
    requires id !in rows
    ensures Origins(rows[id := row], row.device) == Origins(rows, row.device) + {row.providerID}
  {
    var more := rows[id := row];
    forall p | p in Origins(rows, row.device) ensures p in Origins(more, row.device) {
      var i :| i in rows && rows[i].device == row.device && rows[i].providerID == p;
      assert more[i] == rows[i];
    }
    assert more[id] == row;
  }

  lemma OriginsKept(before: Rows, after: Rows, device: DeviceID)
    requires forall id <- before :: id in after && after[id] == before[id]
    ensures Origins(before, device) <= Origins(after, device)
  {
    forall p | p in Origins(before, device) ensures p in Origins(after, device) {
      var i :| i in before && before[i].device == device && before[i].providerID == p;
      assert after[i] == before[i];
    }
  }

  lemma GrownMore(before: map<FixtureID, Row>, mid: map<FixtureID, Row>, after: map<FixtureID, Row>,
        device: DeviceID, offers: seq<Offer>, offer: Offer)
    requires Grown(before, mid, device, offers) && Grown(mid, after, device, [offer]) && offer in offers
    ensures Grown(before, after, device, offers)
    ensures Origins(before, device) <= Origins(mid, device) <= Origins(after, device)
  {
    OriginsKept(before, mid, device);
    OriginsKept(mid, after, device);
  }
}
