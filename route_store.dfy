/** The `daily_routes` collection of the hosted store, stood in for by an
    in-memory table (a sequence of rows in insertion order), with the
    queries and writes the dashboards issue against it, and the sequence
    facts the route-ordering operations rely on. */
module RouteStore {
  import opened Records

  // ---------------------------------------------------------------------
  // Ordering predicates over a list of route entries
  // ---------------------------------------------------------------------

  /** Ascending by `sequence`, ties allowed (what `.order('sequence')` promises). */
  predicate Sorted(s: seq<Route>) {
    forall i, j :: 0 <= i < j < |s| ==> s[i].sequence <= s[j].sequence
  }

  /** Strictly ascending by `sequence`. */
  predicate Increasing(s: seq<Route>) {
    forall i, j :: 0 <= i < j < |s| ==> s[i].sequence < s[j].sequence
  }

  /** The stored sequence numbers are exactly 1..N in list order. */
  predicate Dense(s: seq<Route>) {
    forall i :: 0 <= i < |s| ==> s[i].sequence == i + 1
  }

  predicate DistinctIds(s: seq<Route>) {
    forall i, j :: 0 <= i < j < |s| ==> s[i].id != s[j].id
  }

  lemma DenseIncreasing(s: seq<Route>)
    requires Dense(s)
    ensures Increasing(s) && Sorted(s)
  {
  }

  // ---------------------------------------------------------------------
  // Writes: update by id, delete by id
  // ---------------------------------------------------------------------

  /** The payloads of the `update({...}).eq('id', …)` calls on a route row. */
  datatype Patch = SetSequence(n: int) | SetStatus(status: RouteStatus) | SetAdminMemo(memo: string)

  function Apply(r: Route, p: Patch): Route {
    match p
    case SetSequence(n) => r.(sequence := n)
    case SetStatus(s) => r.(status := s)
    case SetAdminMemo(m) => r.(adminMemo := Some(m))
  }

  function Patched(r: Route, id: nat, p: Patch): Route {
    if r.id == id then Apply(r, p) else r
  }

  /** `update(p).eq('id', id)`: every row carrying that id receives the patch. */
  function Update(t: seq<Route>, id: nat, p: Patch): (r: seq<Route>)
    ensures |r| == |t|
  {
    seq(|t|, i requires 0 <= i < |t| => Patched(t[i], id, p))
  }

  /** What the update does to each row: a row with another id stays as it
      was; a row with that id keeps its id, day, driver and location and
      takes the patched field, every other field staying. */
  lemma UpdateFrame(t: seq<Route>, id: nat, p: Patch)
    ensures forall k :: 0 <= k < |t| && t[k].id != id ==> Update(t, id, p)[k] == t[k]
    ensures forall k :: 0 <= k < |t| ==>
      var r := Update(t, id, p)[k];
      r.id == t[k].id && r.date == t[k].date && r.driverId == t[k].driverId && r.locationId == t[k].locationId
    ensures forall k :: 0 <= k < |t| && t[k].id == id ==>
      var r := Update(t, id, p)[k];
      && (p.SetSequence? ==> r.sequence == p.n && r.status == t[k].status && r.adminMemo == t[k].adminMemo)
      && (p.SetStatus? ==> r.status == p.status && r.sequence == t[k].sequence && r.adminMemo == t[k].adminMemo)
      && (p.SetAdminMemo? ==> r.adminMemo == Some(p.memo) && r.sequence == t[k].sequence && r.status == t[k].status)
  {
  }

  /** `delete().eq('id', id)`: the rows with another id, in their order. */
  function Delete(t: seq<Route>, id: nat): (r: seq<Route>)
    ensures forall x :: x in r <==> x in t && x.id != id
    ensures |r| <= |t|
  {
    if t == [] then []
    else
      assert t == t[..|t| - 1] + [t[|t| - 1]];
      Delete(t[..|t| - 1], id) + (if t[|t| - 1].id == id then [] else [t[|t| - 1]])
  }

  // ---------------------------------------------------------------------
  // The driver/day query: filter, then order by sequence
  // ---------------------------------------------------------------------

  /** The rows `.eq('date', date).eq('driver_id', driver)` selects, in table order. */
  function Matching(t: seq<Route>, date: string, driver: string): (r: seq<Route>)
    ensures forall x :: x in r <==> x in t && x.date == date && x.driverId == driver
    ensures |r| <= |t|
  {
    if t == [] then []
    else
      assert t == t[..|t| - 1] + [t[|t| - 1]];
      var last := t[|t| - 1];
      Matching(t[..|t| - 1], date, driver) + (if last.date == date && last.driverId == driver then [last] else [])
  }

  /** Inserts `x` after every entry whose sequence is not greater than its own. */
  function Insert(s: seq<Route>, x: Route): (r: seq<Route>)
    ensures multiset(r) == multiset(s) + multiset{x}
  {
    if s == [] || x.sequence < s[0].sequence then [x] + s
    else
      assert s == [s[0]] + s[1..];
      [s[0]] + Insert(s[1..], x)
  }

  /** A stable insertion sort on `sequence`. The store does not promise any tie
      order; the lemmas below state what holds for every tie order. */
  function SortBySequence(s: seq<Route>): (r: seq<Route>)
    ensures multiset(r) == multiset(s)
  {
    if s == [] then []
    else
      assert s == s[..|s| - 1] + [s[|s| - 1]];
      Insert(SortBySequence(s[..|s| - 1]), s[|s| - 1])
  }

  /** `fetchDriverRoutes`: one driver's entries for one day, ascending by sequence. */
  function Fetch(t: seq<Route>, date: string, driver: string): (r: seq<Route>)
    ensures Sorted(r)
    ensures multiset(r) == multiset(Matching(t, date, driver))
  {
    SortSorted(Matching(t, date, driver));
    SortBySequence(Matching(t, date, driver))
  }

  /** The query returns exactly the rows of that driver and day. */
  lemma FetchHas(t: seq<Route>, date: string, driver: string, x: Route)
    ensures x in Fetch(t, date, driver) <==> x in t && x.date == date && x.driverId == driver
  {
    assert x in Fetch(t, date, driver) <==> x in multiset(Matching(t, date, driver));
  }

  // ---------------------------------------------------------------------
  // Facts about the sort
  // ---------------------------------------------------------------------

  lemma {:induction false} InsertSorted(s: seq<Route>, x: Route)
    requires Sorted(s)
    ensures Sorted(Insert(s, x))
  {
    if s != [] && x.sequence >= s[0].sequence {
      InsertSorted(s[1..], x);
      InsertAbove(s[1..], x, s[0].sequence);
    }
  }

  /** A bound below every entry and below `x` stays below every entry after
      the insertion. */
  lemma {:induction false} InsertAbove(s: seq<Route>, x: Route, b: int)
    requires forall k :: 0 <= k < |s| ==> b <= s[k].sequence
    requires b <= x.sequence
    ensures forall k :: 0 <= k < |Insert(s, x)| ==> b <= Insert(s, x)[k].sequence
  {
    if s != [] && x.sequence >= s[0].sequence {
      InsertAbove(s[1..], x, b);
    }
  }

  lemma {:induction false} SortSorted(s: seq<Route>)
    ensures Sorted(SortBySequence(s))
  {
    if s != [] {
      SortSorted(s[..|s| - 1]);
      InsertSorted(SortBySequence(s[..|s| - 1]), s[|s| - 1]);
    }
  }

  /** Inserting an entry whose sequence is at least every other one appends it. */
  lemma {:induction false} InsertLast(s: seq<Route>, x: Route)
    requires forall y :: y in s ==> y.sequence <= x.sequence
    ensures Insert(s, x) == s + [x]
  {
    if s != [] {
      assert s[0] in s;
      assert forall y :: y in s[1..] ==> y in s;
      InsertLast(s[1..], x);
      assert s == [s[0]] + s[1..];
    }
  }

  lemma {:induction false} InsertDistinctIds(s: seq<Route>, x: Route)
    requires DistinctIds(s)
    requires forall k :: 0 <= k < |s| ==> s[k].id != x.id
    ensures DistinctIds(Insert(s, x))
  {
    if s != [] && x.sequence >= s[0].sequence {
      InsertDistinctIds(s[1..], x);
      InsertAvoidsId(s[1..], x, s[0].id);
    }
  }

  /** An id carried neither by `x` nor by any entry is carried by no entry
      after the insertion. */
  lemma {:induction false} InsertAvoidsId(s: seq<Route>, x: Route, id: nat)
    requires forall k :: 0 <= k < |s| ==> s[k].id != id
    requires x.id != id
    ensures forall k :: 0 <= k < |Insert(s, x)| ==> Insert(s, x)[k].id != id
  {
    if s != [] && x.sequence >= s[0].sequence {
      InsertAvoidsId(s[1..], x, id);
    }
  }

  lemma {:induction false} SortDistinctIds(s: seq<Route>)
    requires DistinctIds(s)
    ensures DistinctIds(SortBySequence(s))
  {
    if s != [] {
      var init, last := s[..|s| - 1], s[|s| - 1];
      SortDistinctIds(init);
      var sorted := SortBySequence(init);
      forall i | 0 <= i < |sorted| ensures sorted[i].id != last.id {
        assert sorted[i] in multiset(init);
        var k :| 0 <= k < |init| && init[k] == sorted[i];
        assert s[k] == sorted[i];
      }
      InsertDistinctIds(SortBySequence(init), last);
    }
  }

  lemma {:induction false} MatchingDistinctIds(t: seq<Route>, date: string, driver: string)
    requires DistinctIds(t)
    ensures DistinctIds(Matching(t, date, driver))
  {
    if t != [] {
      var init, last := t[..|t| - 1], t[|t| - 1];
      MatchingDistinctIds(init, date, driver);
      var m := Matching(init, date, driver);
      forall y | y in m ensures y.id != last.id {
        var k :| 0 <= k < |init| && init[k] == y;
        assert t[k] == y;
      }
    }
  }

  /** Every entry the query returns carries its own id. */
  lemma FetchDistinctIds(t: seq<Route>, date: string, driver: string)
    requires DistinctIds(t)
    ensures DistinctIds(Fetch(t, date, driver))
  {
    MatchingDistinctIds(t, date, driver);
    SortDistinctIds(Matching(t, date, driver));
  }

  lemma MultisetCancel(x: Route, m: multiset<Route>, n: multiset<Route>)
    requires multiset{x} + m == multiset{x} + n
    ensures m == n
  {
    assert forall z :: m[z] == (multiset{x} + m)[z] - multiset{x}[z];
  }

  lemma SplitFirst(s: seq<Route>)
    requires s != []
    ensures multiset(s) == multiset{s[0]} + multiset(s[1..])
  {
    assert s == [s[0]] + s[1..];
  }

  lemma SplitAt(s: seq<Route>, j: nat)
    requires j < |s|
    ensures multiset(s) == multiset{s[j]} + multiset(s[..j] + s[j + 1..])
  {
    assert s == s[..j] + [s[j]] + s[j + 1..];
  }

  /** Two lists ordered by sequence holding the same entries are equal as soon
      as one of them has no repeated sequence number. */
  lemma {:induction false} SortedPermutationUnique(a: seq<Route>, b: seq<Route>)
    requires Increasing(a) && Sorted(b)
    requires multiset(a) == multiset(b)
    ensures a == b
  {
    if a == [] {
      assert |multiset(b)| == 0;
    } else {
      assert b != [] by { assert a[0] in multiset(b); }
      assert a[0] in multiset(b);
      var j :| 0 <= j < |b| && b[j] == a[0];
      assert b[0] in multiset(a);
      var k :| 0 <= k < |a| && a[k] == b[0];
      assert b[0].sequence <= b[j].sequence;
      assert k == 0;
      SplitFirst(a);
      SplitFirst(b);
      MultisetCancel(a[0], multiset(a[1..]), multiset(b[1..]));
      SortedPermutationUnique(a[1..], b[1..]);
      assert a == [a[0]] + a[1..];
      assert b == [b[0]] + b[1..];
    }
  }

  /** Once the stored sequences of a driver's day are exactly 1..N, every order
      the store may return for `.order('sequence')` is the same list. */
  lemma FetchDetermined(t: seq<Route>, date: string, driver: string, r: seq<Route>)
    requires Dense(Fetch(t, date, driver))
    requires Sorted(r) && multiset(r) == multiset(Matching(t, date, driver))
    ensures r == Fetch(t, date, driver)
  {
    SortedPermutationUnique(Fetch(t, date, driver), r);
  }

  // ---------------------------------------------------------------------
  // How the writes act on the query
  // ---------------------------------------------------------------------

  /** A row inserted with the largest sequence of its day lands at the end. */
  lemma FetchAppend(t: seq<Route>, x: Route, date: string, driver: string)
    requires x.date == date && x.driverId == driver
    requires forall y :: y in Fetch(t, date, driver) ==> y.sequence <= x.sequence
    ensures Fetch(t + [x], date, driver) == Fetch(t, date, driver) + [x]
  {
    assert (t + [x])[..|t|] == t;
    var m := Matching(t, date, driver);
    assert Matching(t + [x], date, driver) == m + [x];
    assert (m + [x])[..|m|] == m;
    InsertLast(SortBySequence(m), x);
  }

  lemma UpdateSnoc(s: seq<Route>, x: Route, id: nat, p: Patch)
    ensures Update(s + [x], id, p) == Update(s, id, p) + [Patched(x, id, p)]
  {
  }

  lemma MatchingSnoc(t: seq<Route>, x: Route, date: string, driver: string)
    ensures Matching(t + [x], date, driver)
         == Matching(t, date, driver) + (if x.date == date && x.driverId == driver then [x] else [])
  {
    assert (t + [x])[..|t|] == t;
  }

  lemma DeleteSnoc(t: seq<Route>, x: Route, id: nat)
    ensures Delete(t + [x], id) == Delete(t, id) + (if x.id == id then [] else [x])
  {
    assert (t + [x])[..|t|] == t;
  }

  /** Filtering by driver and day commutes with an update by id. */
  lemma {:induction false} MatchingUpdate(t: seq<Route>, id: nat, p: Patch, date: string, driver: string)
    ensures Matching(Update(t, id, p), date, driver) == Update(Matching(t, date, driver), id, p)
  {
    if t != [] {
      var init, last := t[..|t| - 1], t[|t| - 1];
      assert t == init + [last];
      UpdateSnoc(init, last, id, p);
      MatchingUpdate(init, id, p, date, driver);
      var m := Matching(init, date, driver);
      MatchingSnoc(init, last, date, driver);
      MatchingSnoc(Update(init, id, p), Patched(last, id, p), date, driver);
      if last.date == date && last.driverId == driver {
        UpdateSnoc(m, last, id, p);
      } else {
        assert m + [] == m;
        assert Update(m, id, p) + [] == Update(m, id, p);
      }
    }
  }

  /** Filtering by driver and day commutes with a delete by id. */
  lemma {:induction false} MatchingDelete(t: seq<Route>, id: nat, date: string, driver: string)
    ensures Matching(Delete(t, id), date, driver) == Delete(Matching(t, date, driver), id)
  {
    if t != [] {
      var init, last := t[..|t| - 1], t[|t| - 1];
      assert t == init + [last];
      MatchingDelete(init, id, date, driver);
      var d := Delete(init, id);
      var m := Matching(init, date, driver);
      var keep := last.date == date && last.driverId == driver;
      DeleteSnoc(init, last, id);
      MatchingSnoc(init, last, date, driver);
      if last.id != id {
        MatchingSnoc(d, last, date, driver);
        if keep {
          DeleteSnoc(m, last, id);
        } else {
          assert m + [] == m;
          assert Delete(m, id) + [] == Delete(m, id);
        }
      } else {
        assert d + [] == d;
        if keep {
          DeleteSnoc(m, last, id);
          assert Delete(m, id) + [] == Delete(m, id);
        } else {
          assert m + [] == m;
        }
      }
    }
  }

  /** Deleting a present id from a list without repeated ids removes one entry. */
  lemma {:induction false} DeleteLength(s: seq<Route>, id: nat)
    requires DistinctIds(s)
    requires exists x :: x in s && x.id == id
    ensures |Delete(s, id)| == |s| - 1
  {
    var init, last := s[..|s| - 1], s[|s| - 1];
    if last.id == id {
      DeleteAbsent(init, id);
    } else {
      var x :| x in s && x.id == id;
      assert x in init;
      DeleteLength(init, id);
    }
  }

  lemma {:induction false} DeleteAbsent(s: seq<Route>, id: nat)
    requires forall k :: 0 <= k < |s| ==> s[k].id != id
    ensures Delete(s, id) == s
  {
    if s != [] {
      var init, last := s[..|s| - 1], s[|s| - 1];
      DeleteAbsent(init, id);
      assert Delete(s, id) == Delete(init, id) + [last];
      assert init + [last] == s;
    }
  }

  lemma UpdateConcat(s: seq<Route>, u: seq<Route>, id: nat, p: Patch)
    ensures Update(s + u, id, p) == Update(s, id, p) + Update(u, id, p)
  {
  }

  /** The update acts on the entries, not on their positions. */
  lemma {:induction false} UpdatePermutation(a: seq<Route>, b: seq<Route>, id: nat, p: Patch)
    requires multiset(a) == multiset(b)
    ensures multiset(Update(a, id, p)) == multiset(Update(b, id, p))
  {
    if a == [] {
      assert |multiset(b)| == 0;
    } else {
      assert a[0] in multiset(b);
      var j :| 0 <= j < |b| && b[j] == a[0];
      var b' := b[..j] + b[j + 1..];
      SplitFirst(a);
      SplitAt(b, j);
      MultisetCancel(a[0], multiset(a[1..]), multiset(b'));
      UpdatePermutation(a[1..], b', id, p);
      assert a == [a[0]] + a[1..];
      UpdateConcat([a[0]], a[1..], id, p);
      assert b == b[..j] + [b[j]] + b[j + 1..];
      UpdateConcat(b[..j] + [b[j]], b[j + 1..], id, p);
      UpdateConcat(b[..j], [b[j]], id, p);
      UpdateConcat(b[..j], b[j + 1..], id, p);
    }
  }

  lemma {:induction false} InsertUpdate(s: seq<Route>, x: Route, id: nat, p: Patch)
    requires !p.SetSequence?
    ensures Insert(Update(s, id, p), Patched(x, id, p)) == Update(Insert(s, x), id, p)
  {
    var u, y := Update(s, id, p), Patched(x, id, p);
    assert y.sequence == x.sequence;
    if s != [] && x.sequence >= s[0].sequence {
      InsertUpdate(s[1..], x, id, p);
      UpdateTail(s, id, p);
      assert Insert(u, y) == [u[0]] + Insert(u[1..], y);
      UpdateCons(s[0], Insert(s[1..], x), id, p);
    } else {
      UpdateCons(x, s, id, p);
    }
  }

  lemma UpdateTail(s: seq<Route>, id: nat, p: Patch)
    requires s != []
    ensures Update(s, id, p)[0] == Patched(s[0], id, p)
    ensures Update(s, id, p)[1..] == Update(s[1..], id, p)
  {
  }

  lemma UpdateCons(y: Route, s: seq<Route>, id: nat, p: Patch)
    ensures Update([y] + s, id, p) == [Patched(y, id, p)] + Update(s, id, p)
  {
  }

  lemma {:induction false} SortUpdate(s: seq<Route>, id: nat, p: Patch)
    requires !p.SetSequence?
    ensures SortBySequence(Update(s, id, p)) == Update(SortBySequence(s), id, p)
  {
    if s != [] {
      var init := s[..|s| - 1];
      assert Update(s, id, p)[..|s| - 1] == Update(init, id, p);
      SortUpdate(init, id, p);
      InsertUpdate(SortBySequence(init), s[|s| - 1], id, p);
    }
  }

  /** A write that leaves `sequence` alone changes the fetched list in place:
      same order, same length, only the entries with that id patched. */
  lemma FetchUpdate(t: seq<Route>, id: nat, p: Patch, date: string, driver: string)
    requires !p.SetSequence?
    ensures Fetch(Update(t, id, p), date, driver) == Update(Fetch(t, date, driver), id, p)
  {
    MatchingUpdate(t, id, p, date, driver);
    SortUpdate(Matching(t, date, driver), id, p);
  }

  // ---------------------------------------------------------------------
  // What holds for every answer the store may give
  // ---------------------------------------------------------------------

  /** Any answer to the query after an insert (the day's rows in some order
      ascending by sequence) holds the old day's rows and the new one; when
      the old day has no tied numbers and the new row is numbered above all
      of them, that answer is the old day followed by the new row. */
  lemma AnswerAfterAppend(t: seq<Route>, x: Route, date: string, driver: string, r: seq<Route>)
    requires x.date == date && x.driverId == driver
    requires Sorted(r) && multiset(r) == multiset(Matching(t + [x], date, driver))
    ensures multiset(r) == multiset(Fetch(t, date, driver)) + multiset{x}
    ensures Increasing(Fetch(t, date, driver)) && (forall y :: y in Fetch(t, date, driver) ==> y.sequence < x.sequence) ==>
              r == Fetch(t, date, driver) + [x]
  {
    MatchingSnoc(t, x, date, driver);
    var f := Fetch(t, date, driver);
    if Increasing(f) && (forall y :: y in f ==> y.sequence < x.sequence) {
      AppendAboveIncreasing(f, x);
      SortedPermutationUnique(f + [x], r);
    }
  }

  lemma AppendAboveIncreasing(f: seq<Route>, x: Route)
    requires Increasing(f) && forall y :: y in f ==> y.sequence < x.sequence
    ensures Increasing(f + [x])
  {
    var g := f + [x];
    forall i, j | 0 <= i < j < |g| ensures g[i].sequence < g[j].sequence {
      if j == |f| {
        assert g[i] in f;
      }
    }
  }

  /** Any answer to the query after a write that leaves `sequence` alone
      holds the old day's rows with the written one patched; when the day
      has no tied numbers, it is the old day patched in place. */
  lemma AnswerAfterUpdate(t: seq<Route>, id: nat, p: Patch, date: string, driver: string, r: seq<Route>)
    requires !p.SetSequence?
    requires Sorted(r) && multiset(r) == multiset(Matching(Update(t, id, p), date, driver))
    ensures multiset(r) == multiset(Update(Fetch(t, date, driver), id, p))
    ensures Increasing(Fetch(t, date, driver)) ==> r == Update(Fetch(t, date, driver), id, p)
  {
    var f := Fetch(t, date, driver);
    var u := Update(f, id, p);
    FetchUpdate(t, id, p, date, driver);
    assert multiset(u) == multiset(Matching(Update(t, id, p), date, driver));
    if Increasing(f) {
      UpdateKeepsIncreasing(f, id, p);
      SortedPermutationUnique(u, r);
    }
  }

  lemma UpdateKeepsIncreasing(s: seq<Route>, id: nat, p: Patch)
    requires !p.SetSequence? && Increasing(s)
    ensures Increasing(Update(s, id, p))
  {
    var u := Update(s, id, p);
    forall i | 0 <= i < |u| ensures u[i].sequence == s[i].sequence {
      assert u[i] == Patched(s[i], id, p);
    }
  }

  /** Two rows of a day with the same number may come back in either order:
      `Fetch` keeps their table order, yet the reverse order is as sorted and
      holds the same rows, so the store may answer it instead. */
  lemma TiedRowsEitherOrder(a: Route, b: Route, date: string, driver: string)
    requires a.date == date && a.driverId == driver && b.date == date && b.driverId == driver
    requires a.sequence == b.sequence && a != b
    ensures Fetch([a, b], date, driver) == [a, b]
    ensures Sorted([b, a]) && multiset([b, a]) == multiset(Matching([a, b], date, driver))
    ensures [b, a] != Fetch([a, b], date, driver)
  {
    PairFetch(a, b, date, driver);
    PairMatching(a, b, date, driver);
    PairReversedSorted(a, b);
  }

  lemma PairReversedSorted(a: Route, b: Route)
    requires a.sequence == b.sequence
    ensures Sorted([b, a])
  {
    assert [b, a][0].sequence == [b, a][1].sequence;
  }

  lemma PairMatching(a: Route, b: Route, date: string, driver: string)
    requires a.date == date && a.driverId == driver && b.date == date && b.driverId == driver
    ensures Matching([a, b], date, driver) == [a, b]
    ensures multiset([b, a]) == multiset(Matching([a, b], date, driver))
  {
    MatchingSnoc([a], b, date, driver);
    MatchingSnoc([], a, date, driver);
    assert [a] + [b] == [a, b];
  }

  lemma PairFetch(a: Route, b: Route, date: string, driver: string)
    requires a.date == date && a.driverId == driver && b.date == date && b.driverId == driver
    requires a.sequence == b.sequence && a != b
    ensures Fetch([a, b], date, driver) == [a, b] != [b, a]
  {
    PairMatching(a, b, date, driver);
    PairSorted(a, b);
    assert [a, b][0] != [b, a][0];
  }

  lemma PairSorted(a: Route, b: Route)
    requires a.sequence == b.sequence
    ensures SortBySequence([a, b]) == [a, b]
  {
    assert [a, b][..1] == [a];
    assert [a][..0] == [];
  }
}
