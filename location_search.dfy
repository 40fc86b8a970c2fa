/** The admin's location tools that are pure: the form check done before a
    location is saved, and the search over the fetched location list. */
module LocationSearch {
  import opened Records

  // ---------------------------------------------------------------------
  // Location-form validation
  // ---------------------------------------------------------------------

  /** A location is saved only when name, address and access info are all
      non-empty; the region always holds one of its two values. The form the
      dashboard resets to after a save never passes, so submitting it again
      cannot write an empty location. */
  predicate FormComplete(form: LocationForm)
    ensures FormComplete(form) ==> form != BlankForm && |form.name| > 0 && |form.address| > 0 && |form.accessInfo| > 0
  {
    form.name != "" && form.address != "" && form.accessInfo != ""
  }

  /** `handleEditLocation`: the form takes the location's four fields. */
  function FormOf(loc: Location): (form: LocationForm)
    ensures FormComplete(form) <==> loc.name != "" && loc.address != "" && loc.accessInfo != ""
  {
    LocationForm(loc.name, loc.address, loc.region, loc.accessInfo)
  }

  // ---------------------------------------------------------------------
  // Case-insensitive substring search
  // ---------------------------------------------------------------------

  /** Lower-casing, restricted to ASCII letters. */
  function LowerChar(c: char): char {
    if 'A' <= c <= 'Z' then (c as int + 32) as char else c
  }

  /** No upper-case ASCII letter is left; each one becomes its lower-case
      letter, and every other character stays. */
  function Lower(s: string): (r: string)
    ensures |r| == |s|
    ensures forall i :: 0 <= i < |r| ==> !('A' <= r[i] <= 'Z')
    ensures forall i :: 0 <= i < |s| && 'A' <= s[i] <= 'Z' ==>
      'a' <= r[i] <= 'z' && r[i] as int - s[i] as int == 'a' as int - 'A' as int
    ensures forall i :: 0 <= i < |s| && !('A' <= s[i] <= 'Z') ==> r[i] == s[i]
  {
    seq(|s|, i requires 0 <= i < |s| => LowerChar(s[i]))
  }

  lemma LowerIdempotent(s: string)
    ensures Lower(Lower(s)) == Lower(s)
  {
  }

  /** JavaScript's `hay.includes(needle)`: `needle` occurs in `hay` at some offset. */
  predicate Contains(hay: string, needle: string)
    ensures Contains(hay, needle) ==> |needle| <= |hay|
    ensures needle == [] ==> Contains(hay, needle)
    decreases |hay|
  {
    needle <= hay || (hay != [] && Contains(hay[1..], needle))
  }

  /** `needle` sits in `hay` starting at offset `i`. */
  predicate OccursAt(hay: string, needle: string, i: int) {
    0 <= i <= |hay| - |needle| && hay[i..i + |needle|] == needle
  }

  /** `Contains` agrees with the offset definition of a substring. */
  lemma {:induction false} ContainsIffOccurs(hay: string, needle: string)
    ensures Contains(hay, needle) <==> exists i :: OccursAt(hay, needle, i)
    decreases |hay|
  {
    if Contains(hay, needle) {
      if needle <= hay {
        assert OccursAt(hay, needle, 0);
      } else {
        ContainsIffOccurs(hay[1..], needle);
        var i :| OccursAt(hay[1..], needle, i);
        assert hay[1..][i..i + |needle|] == hay[i + 1..i + 1 + |needle|];
        assert OccursAt(hay, needle, i + 1);
      }
    }
    if exists i :: OccursAt(hay, needle, i) {
      var i :| OccursAt(hay, needle, i);
      if i == 0 {
        assert needle <= hay;
      } else {
        assert hay[1..][i - 1..i - 1 + |needle|] == hay[i..i + |needle|];
        assert OccursAt(hay[1..], needle, i - 1);
        ContainsIffOccurs(hay[1..], needle);
      }
    }
  }

  /** The filter condition, with the query already lower-cased. */
  predicate Hit(loc: Location, lowerQuery: string) {
    Contains(Lower(loc.name), lowerQuery) || Contains(Lower(loc.address), lowerQuery)
  }

  /** The location matches the query in its name or its address, ignoring case. */
  predicate Matches(loc: Location, query: string) {
    Hit(loc, Lower(query))
  }

  /** `locations.filter(...)`: the hits, in list order. */
  function Hits(locs: seq<Location>, lowerQuery: string): (r: seq<Location>)
    ensures |r| <= |locs|
    ensures forall x :: x in r <==> x in locs && Hit(x, lowerQuery)
  {
    if locs == [] then []
    else
      assert locs == [locs[0]] + locs[1..];
      (if Hit(locs[0], lowerQuery) then [locs[0]] else []) + Hits(locs[1..], lowerQuery)
  }

  /** `handleSearch`: an empty query clears the results; otherwise the
      locations whose lower-cased name or address contains the lower-cased query. */
  function SearchResults(locs: seq<Location>, query: string): (r: seq<Location>)
    ensures query == "" ==> r == []
    ensures query != "" ==> forall x :: x in r <==> x in locs && Matches(x, query)
  {
    if query == "" then [] else Hits(locs, Lower(query))
  }

  /** `a` is `b` with some entries left out, the rest kept in order. */
  predicate Subsequence<T(==)>(a: seq<T>, b: seq<T>)
    decreases |b|
  {
    a == [] || (b != [] && ((a[0] == b[0] && Subsequence(a[1..], b[1..])) || Subsequence(a, b[1..])))
  }

  lemma {:induction false} HitsSubsequence(locs: seq<Location>, lowerQuery: string)
    ensures Subsequence(Hits(locs, lowerQuery), locs)
  {
    if locs != [] {
      HitsSubsequence(locs[1..], lowerQuery);
      var rest := Hits(locs[1..], lowerQuery);
      if Hit(locs[0], lowerQuery) {
        assert Hits(locs, lowerQuery) == [locs[0]] + rest;
        assert ([locs[0]] + rest)[1..] == rest;
      } else {
        assert Hits(locs, lowerQuery) == rest;
      }
    }
  }

  /** The results keep the order of the location list. */
  lemma SearchPreservesOrder(locs: seq<Location>, query: string)
    ensures Subsequence(SearchResults(locs, query), locs)
  {
    if query != "" {
      HitsSubsequence(locs, Lower(query));
    }
  }

  /** The case of the query does not matter. */
  lemma SearchIgnoresQueryCase(locs: seq<Location>, query: string)
    ensures SearchResults(locs, Lower(query)) == SearchResults(locs, query)
  {
    LowerIdempotent(query);
    assert |Lower(query)| == |query|;
  }

  /** Searching an already filtered list again with the same query changes nothing. */
  lemma {:induction false} HitsIdempotent(locs: seq<Location>, lowerQuery: string)
    ensures Hits(Hits(locs, lowerQuery), lowerQuery) == Hits(locs, lowerQuery)
  {
    if locs != [] {
      HitsIdempotent(locs[1..], lowerQuery);
      var rest := Hits(locs[1..], lowerQuery);
      if Hit(locs[0], lowerQuery) {
        assert Hits(locs, lowerQuery) == [locs[0]] + rest;
        assert ([locs[0]] + rest)[1..] == rest;
      } else {
        assert Hits(locs, lowerQuery) == rest;
      }
    }
  }

  lemma SearchIdempotent(locs: seq<Location>, query: string)
    ensures SearchResults(SearchResults(locs, query), query) == SearchResults(locs, query)
  {
    if query != "" {
      HitsIdempotent(locs, Lower(query));
    }
  }
}
