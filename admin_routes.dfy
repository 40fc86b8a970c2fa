/** The admin dashboard's route-assignment tab: one driver's ordered stop list
    for one day, and the handlers that assign, remove, reorder and annotate its
    entries. The hosted store is the in-memory table of `RouteStore`. */
module AdminRoutes {
  import opened Records
  import opened RouteStore
  import LocationSearch

  datatype Direction = Up | Down

  // ---------------------------------------------------------------------
  // The list operations, on values
  // ---------------------------------------------------------------------

  /** `driverRoutes.some(r => r.location_id === loc.id)`: the location is
      already on the list, so its (+) button is disabled. */
  predicate IsAssigned(routes: seq<Route>, locationId: nat)
    ensures routes == [] ==> !IsAssigned(routes, locationId)
  {
    exists r :: r in routes && r.locationId == locationId
  }

  /** The entry `handleAssignRoute` inserts. */
  function NewEntry(id: nat, date: string, driver: string, locationId: nat, sequence: int): Route {
    Route(id, date, driver, locationId, sequence, Pending, None)
  }

  /** `moveRoute` returns at once when asked to move the first entry up or the
      last entry down. */
  predicate MoveIsNoOp(n: nat, index: nat, dir: Direction) {
    (dir == Up && index == 0) || (dir == Down && index == n - 1)
  }

  function MoveTarget(index: nat, dir: Direction): int {
    if dir == Up then index - 1 else index + 1
  }

  /** The list `moveRoute` shows before its writes return: the entry at
      `index` exchanged with its neighbour in the given direction. */
  function Moved(s: seq<Route>, index: nat, dir: Direction): (r: seq<Route>)
    requires index < |s|
    ensures |r| == |s| && multiset(r) == multiset(s)
  {
    if MoveIsNoOp(|s|, index, dir) then s
    else
      var t := MoveTarget(index, dir);
      s[index := s[t]][t := s[index]]
  }

  /** A move at either end is a no-op; any other move exchanges exactly two
      neighbouring entries and keeps every entry of the list. */
  lemma MoveEffect(s: seq<Route>, index: nat, dir: Direction)
    requires index < |s|
    ensures MoveIsNoOp(|s|, index, dir) ==> Moved(s, index, dir) == s
    ensures !MoveIsNoOp(|s|, index, dir) ==>
      var t, r := MoveTarget(index, dir), Moved(s, index, dir);
      && 0 <= t < |s| && (t == index - 1 || t == index + 1)
      && |r| == |s| && r[index] == s[t] && r[t] == s[index]
      && (forall k :: 0 <= k < |s| && k != index && k != t ==> r[k] == s[k])
      && multiset(r) == multiset(s)
  {
  }

  /** Moving an entry up and then moving it back down restores the list. */
  lemma MoveUpThenDown(s: seq<Route>, i: nat)
    requires 0 < i < |s|
    ensures Moved(Moved(s, i, Up), i - 1, Down) == s
  {
    assert Moved(s, i, Up) == s[i := s[i - 1]][i - 1 := s[i]];
  }

  /** Moving an entry down and then moving it back up restores the list. */
  lemma MoveDownThenUp(s: seq<Route>, i: nat)
    requires i + 1 < |s|
    ensures Moved(Moved(s, i, Down), i + 1, Up) == s
  {
    assert Moved(s, i, Down) == s[i := s[i + 1]][i + 1 := s[i]];
  }

  /** Every entry carrying its 1-based position as its sequence. */
  function Resequenced(s: seq<Route>): (r: seq<Route>)
    ensures Dense(r) && |r| == |s|
    ensures forall k :: 0 <= k < |s| ==> r[k].id == s[k].id && r[k].locationId == s[k].locationId
    ensures forall k :: 0 <= k < |s| ==>
      r[k].date == s[k].date && r[k].driverId == s[k].driverId && r[k].status == s[k].status && r[k].adminMemo == s[k].adminMemo
  {
    seq(|s|, k requires 0 <= k < |s| => s[k].(sequence := k + 1))
  }

  /** The two writes of `moveRoute`, each applied only if it succeeded: the
      entry now at `index` gets sequence index+1, the one now at `target` gets
      target+1. */
  function SwapWrites(t: seq<Route>, shown: seq<Route>, index: nat, target: nat,
                      okA: bool, okB: bool): (r: seq<Route>)
    requires index < |shown| && target < |shown|
    ensures |r| == |t|
    ensures !okA && !okB ==> r == t
  {
    var t1 := if okA then Update(t, shown[index].id, SetSequence(index + 1)) else t;
    if okB then Update(t1, shown[target].id, SetSequence(target + 1)) else t1
  }

  /** The writes change nothing but `sequence`: every row keeps its place, its
      id, its day, its driver, its location, its status and its instruction. */
  lemma SwapWritesTouchOnlySequence(t: seq<Route>, shown: seq<Route>, index: nat, target: nat,
                                    okA: bool, okB: bool)
    requires index < |shown| && target < |shown|
    ensures var r := SwapWrites(t, shown, index, target, okA, okB);
      forall k :: 0 <= k < |t| ==>
        && r[k].id == t[k].id && r[k].date == t[k].date && r[k].driverId == t[k].driverId
        && r[k].locationId == t[k].locationId && r[k].status == t[k].status && r[k].adminMemo == t[k].adminMemo
  {
  }

  // ---------------------------------------------------------------------
  // What the handlers do to the sequence invariant
  // ---------------------------------------------------------------------

  /** Assign keeps a dense list dense: the new entry, numbered length+1,
      lands at the end of the refetched list. */
  lemma AssignKeepsDense(t: seq<Route>, date: string, driver: string, id: nat, locationId: nat)
    requires Dense(Fetch(t, date, driver))
    ensures var s := Fetch(t, date, driver);
            var x := NewEntry(id, date, driver, locationId, |s| + 1);
            Fetch(t + [x], date, driver) == s + [x] && Dense(s + [x]) && IsAssigned(s + [x], locationId)
  {
    var s := Fetch(t, date, driver);
    var x := NewEntry(id, date, driver, locationId, |s| + 1);
    DenseBelowNext(s, x);
    FetchAppend(t, x, date, driver);
    AppendNext(s, x);
  }

  lemma DenseBelowNext(s: seq<Route>, x: Route)
    requires Dense(s) && x.sequence == |s| + 1
    ensures forall y :: y in s ==> y.sequence <= x.sequence
  {
    forall y | y in s ensures y.sequence <= x.sequence {
      var k :| 0 <= k < |s| && s[k] == y;
    }
  }

  lemma AppendNext(s: seq<Route>, x: Route)
    requires Dense(s) && x.sequence == |s| + 1
    ensures Dense(s + [x]) && IsAssigned(s + [x], x.locationId)
  {
    assert x in s + [x];
  }

  /** The two sequence writes of a move, seen on the dense list itself: the
      result holds the entries of the renumbered moved list. */
  lemma {:induction false} SwapWritesOnList(s: seq<Route>, index: nat, tg: nat)
    requires DistinctIds(s) && Dense(s)
    requires index < |s| && tg < |s| && index != tg
    ensures var m := s[index := s[tg]][tg := s[index]];
            var w := Update(Update(s, m[index].id, SetSequence(index + 1)), m[tg].id, SetSequence(tg + 1));
            multiset(Resequenced(m)) == multiset(w)
  {
    var m := s[index := s[tg]][tg := s[index]];
    var a, b := m[index].id, m[tg].id;
    var w := Update(Update(s, a, SetSequence(index + 1)), b, SetSequence(tg + 1));
    var e := Resequenced(m);
    assert e == w[index := w[tg]][tg := w[index]] by {
      forall k | 0 <= k < |s|
        ensures e[k] == w[index := w[tg]][tg := w[index]][k]
      {
        if k != index && k != tg {
          assert s[k].id != a && s[k].id != b;
          assert e[k] == s[k];
        }
      }
    }
  }

  lemma MatchingTwoUpdates(t: seq<Route>, date: string, driver: string, a: nat, p1: Patch, b: nat, p2: Patch)
    ensures Matching(Update(Update(t, a, p1), b, p2), date, driver)
         == Update(Update(Matching(t, date, driver), a, p1), b, p2)
  {
    MatchingUpdate(t, a, p1, date, driver);
    MatchingUpdate(Update(t, a, p1), b, p2, date, driver);
  }

  lemma TwoUpdatesPermutation(x: seq<Route>, y: seq<Route>, a: nat, p1: Patch, b: nat, p2: Patch)
    requires multiset(x) == multiset(y)
    ensures multiset(Update(Update(x, a, p1), b, p2)) == multiset(Update(Update(y, a, p1), b, p2))
  {
    UpdatePermutation(x, y, a, p1);
    UpdatePermutation(Update(x, a, p1), Update(y, a, p1), b, p2);
  }

  /** When both writes of a move succeed on a dense list, the refetched list
      is the moved list numbered 1..N: writing the two swapped entries alone
      renumbers the whole list. */
  lemma MoveKeepsDense(t: seq<Route>, date: string, driver: string, index: nat, dir: Direction,
                        s: seq<Route>, m: seq<Route>)
    requires DistinctIds(t)
    requires s == Fetch(t, date, driver) && Dense(s)
    requires index < |s| && !MoveIsNoOp(|s|, index, dir)
    requires m == Moved(s, index, dir)
    ensures 0 <= MoveTarget(index, dir) < |s|
    ensures Fetch(SwapWrites(t, m, index, MoveTarget(index, dir), true, true), date, driver) == Resequenced(m)
  {
    FetchDistinctIds(t, date, driver);
    var tg: nat := MoveTarget(index, dir);
    var t2 := SwapWrites(t, m, index, tg, true, true);
    MoveWritesPermute(t, date, driver, s, m, index, tg);
    DenseIncreasing(Resequenced(m));
    SortedPermutationUnique(Resequenced(m), Fetch(t2, date, driver));
  }

  /** The two writes turn the day's rows into the moved list renumbered. */
  lemma MoveWritesPermute(t: seq<Route>, date: string, driver: string, s: seq<Route>, m: seq<Route>,
                          index: nat, tg: nat)
    requires DistinctIds(s) && Dense(s) && multiset(Matching(t, date, driver)) == multiset(s)
    requires index < |s| && tg < |s| && index != tg
    requires m == s[index := s[tg]][tg := s[index]]
    ensures multiset(Matching(SwapWrites(t, m, index, tg, true, true), date, driver)) == multiset(Resequenced(m))
  {
    var a, b := m[index].id, m[tg].id;
    var p1, p2 := SetSequence(index + 1), SetSequence(tg + 1);
    assert SwapWrites(t, m, index, tg, true, true) == Update(Update(t, a, p1), b, p2);
    MatchingTwoUpdates(t, date, driver, a, p1, b, p2);
    TwoUpdatesPermutation(Matching(t, date, driver), s, a, p1, b, p2);
    SwapWritesOnList(s, index, tg);
  }

  /** If the first write of a move lands and the second is lost, two stored
      rows of the day share the sequence index+1. */
  lemma MoveHalfWritten(t: seq<Route>, date: string, driver: string, index: nat, dir: Direction,
                         s: seq<Route>, m: seq<Route>)
    requires DistinctIds(t)
    requires s == Fetch(t, date, driver) && Dense(s)
    requires index < |s| && !MoveIsNoOp(|s|, index, dir)
    requires m == Moved(s, index, dir)
    ensures 0 <= MoveTarget(index, dir) < |s| && m[index].id != m[MoveTarget(index, dir)].id
    ensures m[index].(sequence := index + 1)
              in Matching(SwapWrites(t, m, index, MoveTarget(index, dir), true, false), date, driver)
    ensures m[MoveTarget(index, dir)]
              in Matching(SwapWrites(t, m, index, MoveTarget(index, dir), true, false), date, driver)
    ensures m[MoveTarget(index, dir)].sequence == index + 1
  {
    FetchDistinctIds(t, date, driver);
    var tg: nat := MoveTarget(index, dir);
    assert m == s[index := s[tg]][tg := s[index]];
    var a := m[index].id;
    assert a != m[tg].id;
    assert SwapWrites(t, m, index, tg, true, false) == Update(t, a, SetSequence(index + 1));
    var M := Matching(t, date, driver);
    MatchingUpdate(t, a, SetSequence(index + 1), date, driver);
    WrittenRowPresent(M, s, index, tg, a);
  }

  lemma WrittenRowPresent(M: seq<Route>, s: seq<Route>, index: nat, tg: nat, a: nat)
    requires multiset(M) == multiset(s) && Dense(s)
    requires index < |s| && tg < |s| && (tg == index + 1 || tg + 1 == index)
    requires s[tg].id == a && s[index].id != a
    ensures s[tg].(sequence := index + 1) in Update(M, a, SetSequence(index + 1))
    ensures s[index] in Update(M, a, SetSequence(index + 1))
  {
    assert s[tg] in multiset(M) && s[index] in multiset(M);
    var i :| 0 <= i < |M| && M[i] == s[tg];
    var j :| 0 <= j < |M| && M[j] == s[index];
    assert Update(M, a, SetSequence(index + 1))[i] == s[tg].(sequence := index + 1);
    assert Update(M, a, SetSequence(index + 1))[j] == s[index];
  }

  /** Remove does not renumber: after removing any entry but the last from a
      dense list of two or more, the list is no longer dense, and the next
      Assign (numbered length+1) repeats the sequence of the old last entry. */
  lemma RemoveThenAssignRepeatsSequence(t: seq<Route>, date: string, driver: string, k: nat,
                                        s: seq<Route>, t1: seq<Route>, id: nat, locationId: nat, x: Route)
    requires DistinctIds(t) && (forall y :: y in t ==> y.id != id)
    requires s == Fetch(t, date, driver) && Dense(s) && k + 1 < |s|
    requires t1 == Delete(t, s[k].id)
    requires x == NewEntry(id, date, driver, locationId, |Fetch(t1, date, driver)| + 1)
    ensures |Fetch(t1, date, driver)| == |s| - 1 && !Dense(Fetch(t1, date, driver))
    ensures s[|s| - 1] in Fetch(t1 + [x], date, driver) && x in Fetch(t1 + [x], date, driver)
    ensures s[|s| - 1].id != x.id && s[|s| - 1].sequence == x.sequence
  {
    RemoveShortens(t, date, driver, k);
    RemoveBreaksDensity(t, date, driver, k);
    FetchHas(t, date, driver, s[|s| - 1]);
    AssignBesides(t1, date, driver, s[|s| - 1], x);
  }

  /** After the removal the old last entry is still there, numbered past the
      new length. */
  lemma RemoveBreaksDensity(t: seq<Route>, date: string, driver: string, k: nat)
    requires DistinctIds(t)
    requires Dense(Fetch(t, date, driver))
    requires k + 1 < |Fetch(t, date, driver)|
    ensures Fetch(t, date, driver)[|Fetch(t, date, driver)| - 1] in Delete(t, Fetch(t, date, driver)[k].id)
    ensures !Dense(Fetch(Delete(t, Fetch(t, date, driver)[k].id), date, driver))
  {
    var s := Fetch(t, date, driver);
    var t1 := Delete(t, s[k].id);
    RemoveShortens(t, date, driver, k);
    var last := s[|s| - 1];
    FetchDistinctIds(t, date, driver);
    assert last.id != s[k].id;
    FetchHas(t, date, driver, last);
    FetchHas(t1, date, driver, last);
    EntryBeyondLength(Fetch(t1, date, driver), last);
  }

  /** A stored entry of the day and a newly inserted one are both fetched. */
  lemma AssignBesides(t: seq<Route>, date: string, driver: string, y: Route, x: Route)
    requires y in t && y.date == date && y.driverId == driver
    requires x.date == date && x.driverId == driver
    ensures y in Fetch(t + [x], date, driver) && x in Fetch(t + [x], date, driver)
  {
    FetchHas(t + [x], date, driver, y);
    FetchHas(t + [x], date, driver, x);
  }

  /** What `fetchDriverRoutes` leaves in the list: the query's answer, or an
      empty list (`data || []`) when the query fails. */
  function Refetched(t: seq<Route>, date: string, driver: string, failed: bool): (r: seq<Route>)
    ensures failed ==> r == []
    ensures !failed ==> Sorted(r) && multiset(r) == multiset(Matching(t, date, driver))
  {
    if failed then [] else Fetch(t, date, driver)
  }

  /** After a successful refetch the (+) guard reads the store: a location
      counts as assigned exactly when a stored entry of that driver and day
      carries it. */
  lemma AssignedIffStored(t: seq<Route>, date: string, driver: string, locationId: nat)
    ensures IsAssigned(Refetched(t, date, driver, false), locationId)
        <==> exists y :: y in t && y.date == date && y.driverId == driver && y.locationId == locationId
  {
    if y :| y in t && y.date == date && y.driverId == driver && y.locationId == locationId {
      FetchHas(t, date, driver, y);
    }
    if IsAssigned(Refetched(t, date, driver, false), locationId) {
      var y :| y in Fetch(t, date, driver) && y.locationId == locationId;
      FetchHas(t, date, driver, y);
    }
  }

  /** A failed refetch empties the list while the day's entries stay stored:
      every location then counts as unassigned, and the next Assign is
      numbered 1, repeating the first entry's number, and puts a location
      already on the day on it a second time. */
  lemma FailedRefetchDuplicates(t: seq<Route>, date: string, driver: string, k: nat,
                                s: seq<Route>, id: nat, x: Route)
    requires forall y :: y in t ==> y.id != id
    requires s == Fetch(t, date, driver) && Dense(s) && k < |s|
    requires x == NewEntry(id, date, driver, s[k].locationId, |Refetched(t, date, driver, true)| + 1)
    ensures !IsAssigned(Refetched(t, date, driver, true), s[k].locationId)
    ensures x.sequence == 1 == s[0].sequence
    ensures s[0] in Fetch(t + [x], date, driver) && x in Fetch(t + [x], date, driver)
    ensures s[k] in Fetch(t + [x], date, driver) && x.locationId == s[k].locationId
    ensures x.id != s[0].id && x.id != s[k].id
  {
    FetchHas(t, date, driver, s[0]);
    FetchHas(t, date, driver, s[k]);
    AssignBesides(t, date, driver, s[0], x);
    AssignBesides(t, date, driver, s[k], x);
  }

  /** Removing an entry of a list without repeated ids shortens the refetched list by one. */
  lemma RemoveShortens(t: seq<Route>, date: string, driver: string, k: nat)
    requires DistinctIds(t)
    requires k < |Fetch(t, date, driver)|
    ensures |Fetch(Delete(t, Fetch(t, date, driver)[k].id), date, driver)| == |Fetch(t, date, driver)| - 1
  {
    var s := Fetch(t, date, driver);
    var M := Matching(t, date, driver);
    var gone := s[k].id;
    var t1 := Delete(t, gone);
    MatchingDistinctIds(t, date, driver);
    MatchingDelete(t, gone, date, driver);
    assert s[k] in multiset(M);
    DeleteLength(M, gone);
    assert |Matching(t1, date, driver)| == |s| - 1 by {
      assert |multiset(s)| == |multiset(M)|;
    }
    var f1 := Fetch(t1, date, driver);
    assert |multiset(f1)| == |multiset(Matching(t1, date, driver))|;
  }

  /** A list holding an entry numbered past its own length is not dense. */
  lemma EntryBeyondLength(f: seq<Route>, y: Route)
    requires y in f && y.sequence > |f|
    ensures !Dense(f)
  {
  }

  // ---------------------------------------------------------------------
  // The dashboard
  // ---------------------------------------------------------------------

  const SelectDriverFirst: string := "기사님을 선택해주세요."
  const FormIncomplete: string := "모든 정보를 입력해주세요. (출입정보 포함)"
  const LocationUpdated: string := "수정되었습니다."
  const LocationCreated: string := "등록되었습니다."

  /** `locations.update(locForm).eq('id', id)`: the row with that id takes
      the form's four fields, every other row stays. */
  function UpdateLocation(t: seq<Location>, id: nat, form: LocationForm): (r: seq<Location>)
    ensures |r| == |t|
    ensures forall k :: 0 <= k < |t| ==> r[k].id == t[k].id
    ensures forall k :: 0 <= k < |t| && t[k].id != id ==> r[k] == t[k]
    ensures forall k :: 0 <= k < |t| && t[k].id == id ==>
      r[k].name == form.name && r[k].address == form.address && r[k].region == form.region && r[k].accessInfo == form.accessInfo
  {
    seq(|t|, k requires 0 <= k < |t| =>
      if t[k].id == id then Location(id, form.name, form.address, form.region, form.accessInfo) else t[k])
  }

  /** `moveRoute`'s copy of the list with two cells exchanged in place. */
  method SwapCells(current: seq<Route>, index: nat, target: nat) returns (shown: seq<Route>)
    requires index < |current| && target < |current|
    ensures |shown| == |current|
    ensures shown[index] == current[target] && shown[target] == current[index]
    ensures forall k :: 0 <= k < |current| && k != index && k != target ==> shown[k] == current[k]
  {
    var n := |current|;
    var newRoutes := new Route[n](k requires 0 <= k < n => current[k]);
    newRoutes[index], newRoutes[target] := newRoutes[target], newRoutes[index];
    shown := newRoutes[..];
  }

  /** JavaScript truthiness of `editingLocId`: `null` and the id 0 are falsy,
      so `if (editingLocId)` treats both as "not editing". */
  predicate Editing(e: Option<nat>) {
    e.Some? && e.value != 0
  }

  /** The admin dashboard's route and location state, and the two store
      collections it writes (`daily_routes`, `locations`). Store errors are
      `Some(message)` arguments; the answers to `confirm` and `prompt` are
      arguments too. */
  class AdminBoard {
    // the store
    var routeTable: seq<Route>
    var nextRouteId: nat
    var locationTable: seq<Location>
    var nextLocationId: nat
    // the dashboard's state
    var selectedDriver: string   // "" while no driver is selected
    var selectedDate: string
    var driverRoutes: seq<Route>
    var locations: seq<Location>
    var locForm: LocationForm
    var editingLocId: Option<nat>
    var searchQuery: string
    var searchResults: seq<Location>

    /** The store hands out fresh ids. */
    ghost predicate Valid()
      reads this
    {
      && DistinctIds(routeTable)
      && (forall r :: r in routeTable ==> r.id < nextRouteId)
      && (forall l :: l in locationTable ==> l.id < nextLocationId)
    }

    /** The dashboard as it mounts: no driver selected, an empty form, the
        location list fetched, or empty when that query fails (`locs || []`). */
    constructor (today: string, routes: seq<Route>, routeIds: nat, locs: seq<Location>, locationIds: nat, locsFailed: bool)
      requires DistinctIds(routes) && (forall r :: r in routes ==> r.id < routeIds)
      requires forall l :: l in locs ==> l.id < locationIds
      ensures Valid()
      ensures routeTable == routes && locationTable == locs
      ensures nextRouteId == routeIds && nextLocationId == locationIds
      ensures locations == (if locsFailed then [] else locs)
      ensures selectedDriver == "" && selectedDate == today && driverRoutes == []
      ensures locForm == BlankForm && editingLocId == None
      ensures searchQuery == "" && searchResults == []
    {
      routeTable, nextRouteId := routes, routeIds;
      locationTable, nextLocationId := locs, locationIds;
      selectedDriver, selectedDate, driverRoutes := "", today, [];
      locations, locForm, editingLocId := (if locsFailed then [] else locs), BlankForm, None;
      searchQuery, searchResults := "", [];
    }

    /** Choosing a driver refetches that driver's list for the selected day. */
    method SelectDriver(driver: string, fetchFailed: bool)
      modifies this`selectedDriver, this`driverRoutes
      ensures selectedDriver == driver
      ensures driver != "" ==> driverRoutes == Refetched(routeTable, selectedDate, driver, fetchFailed)
      ensures driver == "" ==> driverRoutes == old(driverRoutes)
    {
      selectedDriver := driver;
      if driver != "" {
        RefetchRoutes(fetchFailed);
      }
    }

    /** Choosing a day refetches the selected driver's list for it. */
    method SelectDate(date: string, fetchFailed: bool)
      modifies this`selectedDate, this`driverRoutes
      ensures selectedDate == date
      ensures selectedDriver != "" ==> driverRoutes == Refetched(routeTable, date, selectedDriver, fetchFailed)
      ensures selectedDriver == "" ==> driverRoutes == old(driverRoutes)
    {
      selectedDate := date;
      if selectedDriver != "" {
        RefetchRoutes(fetchFailed);
      }
    }

    /** `fetchDriverRoutes` for the selected driver and day; a failed query
        leaves an empty list (`data || []`). */
    method RefetchRoutes(failed: bool)
      modifies this`driverRoutes
      ensures driverRoutes == Refetched(routeTable, selectedDate, selectedDriver, failed)
    {
      if failed {
        driverRoutes := [];
      } else {
        driverRoutes := Fetch(routeTable, selectedDate, selectedDriver);
      }
    }

    /** `handleAssignRoute`: with no driver selected it only alerts; otherwise
        it inserts an entry numbered length+1, PENDING, without instruction,
        and on success refetches the list. */
    method AssignRoute(locationId: nat, err: Option<string>, fetchFailed: bool) returns (notice: Notice)
      requires Valid()
      modifies this`routeTable, this`nextRouteId, this`driverRoutes
      ensures Valid()
      ensures old(selectedDriver) == "" ==> notice == Alert(SelectDriverFirst)
      ensures selectedDriver != "" && err.Some? ==> notice == Alert(err.value)
      ensures selectedDriver == "" || err.Some? ==>
        routeTable == old(routeTable) && nextRouteId == old(nextRouteId) && driverRoutes == old(driverRoutes)
      ensures selectedDriver != "" && err.None? ==>
        && notice == Quiet
        && routeTable == old(routeTable) + [NewEntry(old(nextRouteId), selectedDate, selectedDriver, locationId, |old(driverRoutes)| + 1)]
        && nextRouteId == old(nextRouteId) + 1
        && driverRoutes == Refetched(routeTable, selectedDate, selectedDriver, fetchFailed)
    {
      if selectedDriver == "" {
        return Alert(SelectDriverFirst);
      }
      if err.Some? {
        return Alert(err.value);
      }
      AppendEntry(NewEntry(nextRouteId, selectedDate, selectedDriver, locationId, |driverRoutes| + 1), fetchFailed);
      notice := Quiet;
    }

    /** The store's insert of a fresh row, and the refetch after it. */
    method AppendEntry(x: Route, fetchFailed: bool)
      requires Valid() && x.id == nextRouteId
      modifies this`routeTable, this`nextRouteId, this`driverRoutes
      ensures Valid()
      ensures routeTable == old(routeTable) + [x] && nextRouteId == old(nextRouteId) + 1
      ensures driverRoutes == Refetched(routeTable, selectedDate, selectedDriver, fetchFailed)
    {
      AppendFresh(routeTable, x, nextRouteId);
      routeTable := routeTable + [x];
      nextRouteId := nextRouteId + 1;
      RefetchRoutes(fetchFailed);
    }

    /** The (+) button of a location: disabled, hence a no-op, when the
        location is already on the list. */
    method ClickAssign(locationId: nat, err: Option<string>, fetchFailed: bool) returns (notice: Notice)
      requires Valid()
      modifies this`routeTable, this`nextRouteId, this`driverRoutes
      ensures Valid()
      ensures old(IsAssigned(driverRoutes, locationId)) ==>
        notice == Quiet && routeTable == old(routeTable) && nextRouteId == old(nextRouteId) && driverRoutes == old(driverRoutes)
      ensures !old(IsAssigned(driverRoutes, locationId)) && selectedDriver != "" && err.None? ==>
        && notice == Quiet
        && routeTable == old(routeTable) + [NewEntry(old(nextRouteId), selectedDate, selectedDriver, locationId, |old(driverRoutes)| + 1)]
        && nextRouteId == old(nextRouteId) + 1
        && driverRoutes == Refetched(routeTable, selectedDate, selectedDriver, fetchFailed)
      ensures !old(IsAssigned(driverRoutes, locationId)) && selectedDriver == "" ==> notice == Alert(SelectDriverFirst)
      ensures !old(IsAssigned(driverRoutes, locationId)) && selectedDriver != "" && err.Some? ==> notice == Alert(err.value)
      ensures !old(IsAssigned(driverRoutes, locationId)) && (selectedDriver == "" || err.Some?) ==>
        routeTable == old(routeTable) && nextRouteId == old(nextRouteId) && driverRoutes == old(driverRoutes)
    {
      if IsAssigned(driverRoutes, locationId) {
        return Quiet;
      }
      notice := AssignRoute(locationId, err, fetchFailed);
    }

    /** `handleRemoveRoute`: after a confirmed dialog, deletes the rows with
        that id and refetches; other rows keep their stored sequence. */
    method RemoveRoute(routeId: nat, confirmed: bool, err: Option<string>, fetchFailed: bool) returns (notice: Notice)
      requires Valid()
      modifies this`routeTable, this`driverRoutes
      ensures Valid()
      ensures !confirmed || err.Some? ==> routeTable == old(routeTable) && driverRoutes == old(driverRoutes)
      ensures !confirmed ==> notice == Quiet
      ensures confirmed && err.Some? ==> notice == Alert(err.value)
      ensures confirmed && err.None? ==>
        && notice == Quiet
        && routeTable == Delete(old(routeTable), routeId)
        && (forall r :: r in routeTable <==> r in old(routeTable) && r.id != routeId)
        && driverRoutes == Refetched(routeTable, selectedDate, selectedDriver, fetchFailed)
    {
      if !confirmed {
        return Quiet;
      }
      if err.Some? {
        return Alert(err.value);
      }
      DeleteEntry(routeId, fetchFailed);
      notice := Quiet;
    }

    /** The store's delete by id, and the refetch after it. */
    method DeleteEntry(routeId: nat, fetchFailed: bool)
      requires Valid()
      modifies this`routeTable, this`driverRoutes
      ensures Valid()
      ensures routeTable == Delete(old(routeTable), routeId)
      ensures driverRoutes == Refetched(routeTable, selectedDate, selectedDriver, fetchFailed)
    {
      DeleteDistinctIds(routeTable, routeId);
      routeTable := Delete(routeTable, routeId);
      RefetchRoutes(fetchFailed);
    }

    /** `moveRoute`: no-op at either end; otherwise copies the list, swaps the
        two cells, shows that list, writes the two new sequences (each write
        may fail on its own, unnoticed) and refetches. */
    method MoveRoute(index: nat, dir: Direction, errA: Option<string>, errB: Option<string>, fetchFailed: bool)
      returns (shown: seq<Route>)
      requires Valid()
      requires index < |driverRoutes|
      modifies this`routeTable, this`driverRoutes
      ensures Valid()
      ensures MoveIsNoOp(|old(driverRoutes)|, index, dir) ==>
        shown == old(driverRoutes) && routeTable == old(routeTable) && driverRoutes == old(driverRoutes)
      ensures !MoveIsNoOp(|old(driverRoutes)|, index, dir) ==>
        && 0 <= MoveTarget(index, dir) < |shown|
        && shown == Moved(old(driverRoutes), index, dir)
        && routeTable == SwapWrites(old(routeTable), shown, index, MoveTarget(index, dir), errA.None?, errB.None?)
        && driverRoutes == Refetched(routeTable, selectedDate, selectedDriver, fetchFailed)
    {
      var n := |driverRoutes|;
      if (dir == Up && index == 0) || (dir == Down && index == n - 1) {
        return driverRoutes;
      }
      var target: nat := if dir == Up then index - 1 else index + 1;
      shown := SwapCells(driverRoutes, index, target);
      assert shown == Moved(old(driverRoutes), index, dir);
      driverRoutes := shown;
      WriteSequences(shown, index, target, errA.None?, errB.None?, fetchFailed);
    }

    /** The two sequence writes of `moveRoute`, each applied only when it
        succeeded, and the refetch after them. */
    method WriteSequences(shown: seq<Route>, index: nat, target: nat, okA: bool, okB: bool, fetchFailed: bool)
      requires Valid()
      requires index < |shown| && target < |shown|
      modifies this`routeTable, this`driverRoutes
      ensures Valid()
      ensures routeTable == SwapWrites(old(routeTable), shown, index, target, okA, okB)
      ensures driverRoutes == Refetched(routeTable, selectedDate, selectedDriver, fetchFailed)
    {
      var itemA, itemB := shown[index], shown[target];
      ghost var before := routeTable;
      SwapWritesValid(before, shown, index, target, okA, okB, nextRouteId);
      if okA {
        routeTable := Update(routeTable, itemA.id, SetSequence(index + 1));
      }
      if okB {
        routeTable := Update(routeTable, itemB.id, SetSequence(target + 1));
      }
      assert routeTable == SwapWrites(before, shown, index, target, okA, okB);
      RefetchRoutes(fetchFailed);
    }

    /** `handleUpdateMemo`: the prompt opens on the current instruction (or
        ""); a cancelled prompt changes nothing; otherwise the instruction is
        overwritten and the list refetched. */
    method UpdateMemo(routeId: nat, currentMemo: Option<string>, answer: Option<string>, err: Option<string>,
                      fetchFailed: bool)
      returns (prefill: string, notice: Notice)
      requires Valid()
      modifies this`routeTable, this`driverRoutes
      ensures Valid()
      ensures prefill == currentMemo.GetOr("")
      ensures answer.None? || err.Some? ==> routeTable == old(routeTable) && driverRoutes == old(driverRoutes)
      ensures answer.None? ==> notice == Quiet
      ensures answer.Some? && err.Some? ==> notice == Alert(err.value)
      ensures answer.Some? && err.None? ==>
        && notice == Quiet
        && routeTable == Update(old(routeTable), routeId, SetAdminMemo(answer.value))
        && driverRoutes == Refetched(routeTable, selectedDate, selectedDriver, fetchFailed)
    {
      prefill := currentMemo.GetOr("");
      if answer.None? {
        return prefill, Quiet;
      }
      if err.Some? {
        return prefill, Alert(err.value);
      }
      PatchRoute(routeId, SetAdminMemo(answer.value), fetchFailed);
      notice := Quiet;
    }

    /** A route write that leaves `sequence` alone, and the refetch after it
        (by `AnswerAfterUpdate`, the store answers the same entries with the
        written one patched, and in the same order when the day has no tied
        numbers). */
    method PatchRoute(routeId: nat, p: Patch, fetchFailed: bool)
      requires Valid() && !p.SetSequence?
      modifies this`routeTable, this`driverRoutes
      ensures Valid()
      ensures routeTable == Update(old(routeTable), routeId, p)
      ensures driverRoutes == Refetched(routeTable, selectedDate, selectedDriver, fetchFailed)
    {
      UpdateKeepsIds(routeTable, routeId, p, nextRouteId);
      routeTable := Update(routeTable, routeId, p);
      RefetchRoutes(fetchFailed);
    }

    /** An edit of the location form's inputs. */
    method EditForm(form: LocationForm)
      modifies this`locForm
      ensures locForm == form
    {
      locForm := form;
    }

    /** `handleEditLocation`: the form switches to editing that location. */
    method StartEditing(loc: Location)
      modifies this`locForm, this`editingLocId
      ensures editingLocId == Some(loc.id) && locForm == LocationSearch.FormOf(loc)
    {
      editingLocId := Some(loc.id);
      locForm := LocationSearch.FormOf(loc);
    }

    /** The form's cancel button while editing. */
    method CancelEditing()
      modifies this`locForm, this`editingLocId
      ensures editingLocId == None && locForm == BlankForm
    {
      editingLocId := None;
      locForm := BlankForm;
    }

    /** `handleSaveLocation`: an incomplete form only alerts and never reaches
        the store; a complete one updates the edited location or inserts a new
        one, and on success resets the form and refetches the locations
        (`locs || []`: an empty list when that query fails). */
    method SaveLocation(err: Option<string>, fetchFailed: bool) returns (notice: Notice)
      requires Valid()
      modifies this`locationTable, this`nextLocationId, this`locations, this`locForm, this`editingLocId
      ensures Valid()
      ensures !LocationSearch.FormComplete(old(locForm)) ==> notice == Alert(FormIncomplete)
      ensures !LocationSearch.FormComplete(old(locForm)) || err.Some? ==>
        && locationTable == old(locationTable) && nextLocationId == old(nextLocationId)
        && locations == old(locations) && locForm == old(locForm) && editingLocId == old(editingLocId)
      ensures LocationSearch.FormComplete(old(locForm)) && err.Some? ==> notice == Alert(err.value)
      ensures LocationSearch.FormComplete(old(locForm)) && err.None? ==>
        && locForm == BlankForm
        && locations == (if fetchFailed then [] else locationTable)
        && (Editing(old(editingLocId)) ==>
              notice == Alert(LocationUpdated) && nextLocationId == old(nextLocationId) && editingLocId == None &&
              locationTable == UpdateLocation(old(locationTable), old(editingLocId).value, old(locForm)))
        && (!Editing(old(editingLocId)) ==>
              var f := old(locForm);
              notice == Alert(LocationCreated) && nextLocationId == old(nextLocationId) + 1 &&
              editingLocId == old(editingLocId) &&
              locationTable == old(locationTable) + [Location(old(nextLocationId), f.name, f.address, f.region, f.accessInfo)])
    {
      if !LocationSearch.FormComplete(locForm) {
        return Alert(FormIncomplete);
      }
      if err.Some? {
        return Alert(err.value);
      }
      if Editing(editingLocId) {
        var updated := UpdateLocation(locationTable, editingLocId.value, locForm);
        forall l | l in updated ensures l.id < nextLocationId {
          var k :| 0 <= k < |updated| && updated[k] == l;
          assert locationTable[k] in locationTable;
        }
        locationTable := updated;
        notice := Alert(LocationUpdated);
        editingLocId := None;
      } else {
        locationTable := locationTable + [Location(nextLocationId, locForm.name, locForm.address, locForm.region, locForm.accessInfo)];
        nextLocationId := nextLocationId + 1;
        notice := Alert(LocationCreated);
      }
      locForm := BlankForm;
      locations := if fetchFailed then [] else locationTable;
    }

    /** `handleSearch`: remembers the query and filters the fetched locations. */
    method HandleSearch(query: string)
      modifies this`searchQuery, this`searchResults
      ensures searchQuery == query
      ensures searchResults == LocationSearch.SearchResults(locations, query)
    {
      searchQuery := query;
      searchResults := LocationSearch.SearchResults(locations, query);
    }
  }

  /** A write by id keeps every row's id, so the store's key stays unique
      and below the next id. */
  lemma UpdateKeepsIds(t: seq<Route>, id: nat, p: Patch, bound: nat)
    requires DistinctIds(t) && (forall r :: r in t ==> r.id < bound)
    ensures DistinctIds(Update(t, id, p)) && (forall r :: r in Update(t, id, p) ==> r.id < bound)
  {
    var u := Update(t, id, p);
    assert forall k :: 0 <= k < |t| ==> u[k].id == t[k].id;
    forall r | r in u ensures r.id < bound {
      var k :| 0 <= k < |t| && u[k] == r;
      assert t[k] in t;
    }
  }

  lemma AppendFresh(t: seq<Route>, x: Route, bound: nat)
    requires DistinctIds(t) && (forall r :: r in t ==> r.id < bound) && x.id == bound
    ensures DistinctIds(t + [x]) && (forall r :: r in t + [x] ==> r.id < bound + 1)
  {
    forall i, j | 0 <= i < j < |t + [x]| ensures (t + [x])[i].id != (t + [x])[j].id {
      if j == |t| { assert t[i] in t; }
    }
  }

  lemma SwapWritesValid(t: seq<Route>, shown: seq<Route>, index: nat, target: nat,
                        okA: bool, okB: bool, bound: nat)
    requires index < |shown| && target < |shown|
    requires DistinctIds(t) && (forall r :: r in t ==> r.id < bound)
    ensures var t' := SwapWrites(t, shown, index, target, okA, okB);
            DistinctIds(t') && (forall r :: r in t' ==> r.id < bound)
  {
    var t1 := if okA then Update(t, shown[index].id, SetSequence(index + 1)) else t;
    UpdateKeepsIds(t, shown[index].id, SetSequence(index + 1), bound);
    UpdateKeepsIds(t1, shown[target].id, SetSequence(target + 1), bound);
  }

  lemma {:induction false} DeleteDistinctIds(t: seq<Route>, id: nat)
    requires DistinctIds(t)
    ensures DistinctIds(Delete(t, id))
  {
    if t != [] {
      var init, last := t[..|t| - 1], t[|t| - 1];
      DeleteDistinctIds(init, id);
      var d := Delete(init, id);
      forall y | y in d ensures y.id != last.id {
        var k :| 0 <= k < |init| && init[k] == y;
        assert t[k] == y;
      }
    }
  }
}
