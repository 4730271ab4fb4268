/** The places list: deleting one place and narrowing the list by title. */
module PlacesTable {
  import opened Places

  /** `q` occurs in `text` starting at position i. */
  ghost predicate OccursAt(text: string, q: string, i: int) {
    0 <= i && i + |q| <= |text| && text[i..i + |q|] == q
  }

  predicate IsPrefix(q: string, text: string) {
    |q| <= |text| && text[..|q|] == q
  }

  /** Substring test, as Swift's `String.contains` on another string. */
  predicate Contains(text: string, q: string)
    decreases |text|
  {
    IsPrefix(q, text) || (text != [] && Contains(text[1..], q))
  }

  /** Contains agrees with the positional definition of "q is a substring". */
  lemma {:induction false} ContainsIff(text: string, q: string)
    ensures Contains(text, q) <==> exists i :: OccursAt(text, q, i)
    decreases |text|
  {
    if IsPrefix(q, text) {
      assert OccursAt(text, q, 0);
    } else if text != [] {
      ContainsIff(text[1..], q);
      if exists i :: OccursAt(text[1..], q, i) {
        var i :| OccursAt(text[1..], q, i);
        assert text[1..][i..i + |q|] == text[i + 1..i + 1 + |q|];
        assert OccursAt(text, q, i + 1);
      }
      if exists i :: OccursAt(text, q, i) {
        var i :| OccursAt(text, q, i) && i != 0;
        assert text[1..][i - 1..i - 1 + |q|] == text[i..i + |q|];
        assert OccursAt(text[1..], q, i - 1);
      }
    }
  }

  /** Every place has a title, so `title!` cannot fail. */
  predicate AllTitled(s: seq<Place>) {
    forall i :: 0 <= i < |s| ==> s[i].title.Some?
  }

  /** The place's title contains the query. */
  predicate Matches(p: Place, q: string) {
    p.title.Some? && Contains(p.title.value, q)
  }

  /** r is s with some elements left out, the rest in their original order. */
  predicate IsSubsequence(r: seq<Place>, s: seq<Place>)
    decreases |s|
  {
    r == [] || (s != [] && ((r[0] == s[0] && IsSubsequence(r[1..], s[1..])) || IsSubsequence(r, s[1..])))
  }

  lemma {:induction false} SubsequenceBounds(r: seq<Place>, s: seq<Place>)
    requires IsSubsequence(r, s)
    ensures |r| <= |s|
    ensures multiset(r) <= multiset(s)
    decreases |s|
  {
    if r != [] {
      if r[0] == s[0] && IsSubsequence(r[1..], s[1..]) {
        SubsequenceBounds(r[1..], s[1..]);
        assert r == [r[0]] + r[1..] && s == [s[0]] + s[1..];
      } else {
        SubsequenceBounds(r, s[1..]);
        assert s == [s[0]] + s[1..];
      }
    }
  }

  lemma {:induction false} SubsequenceOfSelf(s: seq<Place>)
    ensures IsSubsequence(s, s)
    decreases |s|
  {
    if s != [] {
      SubsequenceOfSelf(s[1..]);
    }
  }

  /** The places whose titles contain `q`, in their original order (the
      closure given to `filter`). */
  function KeepMatching(s: seq<Place>, q: string): (r: seq<Place>)
    requires AllTitled(s)
    ensures |r| <= |s|
    ensures forall i :: 0 <= i < |r| ==> Matches(r[i], q)
    ensures forall x :: x in r <==> x in s && Matches(x, q)
    ensures forall x :: multiset(r)[x] == if Matches(x, q) then multiset(s)[x] else 0
    decreases |s|
  {
    if s == [] then []
    else
      assert AllTitled(s[1..]) by {
        forall i | 0 <= i < |s[1..]| ensures s[1..][i].title.Some? { assert s[1..][i] == s[i + 1]; }
      }
      var rest := KeepMatching(s[1..], q);
      assert forall x :: x in s <==> x == s[0] || x in s[1..] by {
        assert s == [s[0]] + s[1..];
      }
      assert multiset(s) == multiset{s[0]} + multiset(s[1..]) by { assert s == [s[0]] + s[1..]; }
      if Matches(s[0], q) then [s[0]] + rest else rest
  }

  /** The filter keeps the surviving places in their original order. */
  lemma {:induction false} KeepMatchingIsSubsequence(s: seq<Place>, q: string)
    requires AllTitled(s)
    ensures IsSubsequence(KeepMatching(s, q), s)
    decreases |s|
  {
    if s != [] {
      assert AllTitled(s[1..]) by {
        forall i | 0 <= i < |s[1..]| ensures s[1..][i].title.Some? { assert s[1..][i] == s[i + 1]; }
      }
      KeepMatchingIsSubsequence(s[1..], q);
      var r := KeepMatching(s, q);
      if Matches(s[0], q) {
        assert r[0] == s[0] && r[1..] == KeepMatching(s[1..], q);
      }
    }
  }

  /** Filtering again with the same query changes nothing. */
  lemma {:induction false} KeepMatchingIdempotent(s: seq<Place>, q: string)
    requires AllTitled(s)
    ensures AllTitled(KeepMatching(s, q))
    ensures KeepMatching(KeepMatching(s, q), q) == KeepMatching(s, q)
    decreases |s|
  {
    if s != [] {
      assert AllTitled(s[1..]) by {
        forall i | 0 <= i < |s[1..]| ensures s[1..][i].title.Some? { assert s[1..][i] == s[i + 1]; }
      }
      KeepMatchingIdempotent(s[1..], q);
      var r := KeepMatching(s, q);
      if Matches(s[0], q) {
        assert r[0] == s[0] && r[1..] == KeepMatching(s[1..], q);
      }
    }
  }

  /** The list holds a place with this identity. */
  predicate HasPlace(s: seq<Place>, id: PlaceId) {
    exists i :: 0 <= i < |s| && s[i].id == id
  }

  /** The first position of the place, as `firstIndex(of:)`. */
  function FirstIndexOf(s: seq<Place>, id: PlaceId): (i: nat)
    requires HasPlace(s, id)
    ensures i < |s| && s[i].id == id
    ensures forall j :: 0 <= j < i ==> s[j].id != id
    decreases |s|
  {
    if s[0].id == id then 0
    else
      var k :| 0 <= k < |s| && s[k].id == id;
      assert s[1..][k - 1].id == id;
      1 + FirstIndexOf(s[1..], id)
  }

  /** `remove(at:)`: the list without its element at position i. */
  function RemoveAt(s: seq<Place>, i: nat): (r: seq<Place>)
    requires i < |s|
    ensures |r| == |s| - 1
    ensures multiset(r) + multiset{s[i]} == multiset(s)
  {
    assert s == s[..i] + [s[i]] + s[i + 1..];
    s[..i] + s[i + 1..]
  }

  /** Removing one element keeps the others in their relative order. */
  lemma {:induction false} RemoveAtIsSubsequence(s: seq<Place>, i: nat)
    requires i < |s|
    ensures IsSubsequence(RemoveAt(s, i), s)
    decreases i
  {
    var r := RemoveAt(s, i);
    if i == 0 {
      assert r == s[1..];
      SubsequenceOfSelf(s[1..]);
    } else {
      RemoveAtIsSubsequence(s[1..], i - 1);
      assert r[0] == s[0] && r[1..] == RemoveAt(s[1..], i - 1);
    }
  }

  /** The list after `deletePlace`: the first entry for the place is gone,
      everything before it is untouched and everything after moves up by one. */
  function WithoutFirst(s: seq<Place>, id: PlaceId): (r: seq<Place>)
    requires HasPlace(s, id)
    ensures |r| == |s| - 1
    ensures var i := FirstIndexOf(s, id);
            (forall k :: 0 <= k < i ==> r[k] == s[k] && r[k].id != id)
            && (forall k :: i <= k < |r| ==> r[k] == s[k + 1])
            && multiset(r) + multiset{s[i]} == multiset(s)
  {
    RemoveAt(s, FirstIndexOf(s, id))
  }

  /** The places list view model. `fetchCount` counts reloads asked of the
      persistence store; `storeDeletions` records the places the store was
      asked to delete. */
  class PlacesTableViewModel {
    var places: seq<Place>
    var fetchCount: nat
    var storeDeletions: seq<Place>

    constructor (initial: seq<Place>)
      ensures places == initial && fetchCount == 0 && storeDeletions == []
    {
      places := initial;
      fetchCount := 0;
      storeDeletions := [];
    }

    /** Asks the store to reload the places; the reload itself is not modelled. */
    method FetchPlaces()
      modifies this
      ensures fetchCount == old(fetchCount) + 1
      ensures places == old(places) && storeDeletions == old(storeDeletions)
    {
      fetchCount := fetchCount + 1;
    }

    /** The place must be listed: `firstIndex(of:)!` traps otherwise. */
    method DeletePlace(p: Place)
      requires HasPlace(places, p.id)
      modifies this
      ensures storeDeletions == old(storeDeletions) + [p]
      ensures places == WithoutFirst(old(places), p.id)
      ensures |places| == |old(places)| - 1 && IsSubsequence(places, old(places))
      ensures fetchCount == old(fetchCount)
    {
      storeDeletions := storeDeletions + [p];
      RemoveAtIsSubsequence(places, FirstIndexOf(places, p.id));
      places := RemoveAt(places, FirstIndexOf(places, p.id));
    }

    /** A non-empty query narrows the list to the places whose titles contain
        it (every title must be present, `title!` traps otherwise); an empty
        query only asks for a reload. */
    method FindPlacesByName(query: string)
      requires |query| > 0 ==> AllTitled(places)
      modifies this
      ensures |query| > 0 ==> places == KeepMatching(old(places), query) && fetchCount == old(fetchCount)
      ensures |query| > 0 ==> IsSubsequence(places, old(places))
      ensures |query| == 0 ==> places == old(places) && fetchCount == old(fetchCount) + 1
      ensures storeDeletions == old(storeDeletions)
    {
      if |query| > 0 {
        KeepMatchingIsSubsequence(places, query);
        places := KeepMatching(places, query);
      } else {
        FetchPlaces();
      }
    }
  }
}
