/** The user's favourite cities and coins, and how they are stored in the browser. */
module Preferences {

  /** Which favourites list an operation addresses (`'cities'` or `'cryptos'`). */
  datatype Kind = Cities | Cryptos

  datatype Favorites = Favorites(cities: seq<string>, cryptos: seq<string>)
  {
    function Get(kind: Kind): seq<string>
    {
      match kind
      case Cities => cities
      case Cryptos => cryptos
    }

    /** `{ ...favorites, [kind]: list }`: the other list is kept. */
    function Put(kind: Kind, list: seq<string>): (f: Favorites)
      ensures f.Get(kind) == list
      ensures forall other :: other != kind ==> f.Get(other) == Get(other)
    {
      match kind
      case Cities => this.(cities := list)
      case Cryptos => this.(cryptos := list)
    }
  }

  /** What the store starts from when nothing is stored. */
  const NoFavorites := Favorites([], [])

  /** The key/value storage key under which the favourites are kept. */
  const StorageKey := "favorites"

  predicate NoDuplicates(s: seq<string>)
  {
    forall i, j :: 0 <= i < j < |s| ==> s[i] != s[j]
  }

  /**
   * `[...new Set(s)]`: each distinct element once, in the order a `Set` keeps them,
   * the order of first occurrence.
   */
  function Distinct(s: seq<string>): (r: seq<string>)
    ensures NoDuplicates(r)
    ensures forall x :: x in r <==> x in s
  {
    if s == [] then []
    else
      var d := Distinct(s[..|s| - 1]);
      var x := s[|s| - 1];
      assert forall y :: y in s <==> y in s[..|s| - 1] || y == x;
      if x in d then d else d + [x]
  }

  /** Index of the first occurrence of `x` in `s`. */
  function FirstIndex(s: seq<string>, x: string): (i: nat)
    requires x in s
    ensures i < |s| && s[i] == x && x !in s[..i]
  {
    if s[0] == x then 0 else 1 + FirstIndex(s[1..], x)
  }

  lemma {:induction false} FirstIndexInPrefix(s: seq<string>, k: nat, x: string)
    requires k <= |s| && x in s[..k]
    ensures FirstIndex(s, x) == FirstIndex(s[..k], x)
  {
    if s[0] != x {
      assert s[1..][..k - 1] == s[..k][1..];
      FirstIndexInPrefix(s[1..], k - 1, x);
    }
  }

  /** `Distinct` lists the elements in order of their first occurrence in `s`. */
  lemma {:induction false} DistinctFirstOccurrenceOrder(s: seq<string>, i: nat, j: nat)
    requires i < j < |Distinct(s)|
    ensures FirstIndex(s, Distinct(s)[i]) < FirstIndex(s, Distinct(s)[j])
  {
    var n := |s| - 1;
    var init := s[..n];
    var d := Distinct(init);
    var r := Distinct(s);
    assert s == init + [s[n]];
    if j < |d| {
      assert r[i] == d[i] && r[j] == d[j];
      DistinctFirstOccurrenceOrder(init, i, j);
      FirstIndexInPrefix(s, n, d[i]);
      FirstIndexInPrefix(s, n, d[j]);
    } else {
      assert r[i] == d[i] && r[j] == s[n] && s[n] !in init;
      FirstIndexInPrefix(s, n, d[i]);
    }
  }

  /** A list that already has no duplicates is left as it is. */
  lemma {:induction false} DistinctOfNoDuplicates(s: seq<string>)
    requires NoDuplicates(s)
    ensures Distinct(s) == s
  {
    if s != [] {
      var init := s[..|s| - 1];
      DistinctOfNoDuplicates(init);
    }
  }

  /** The `filter(fav => fav !== x)` step: every occurrence of `x` goes, the rest stay in order. */
  function Without(s: seq<string>, x: string): (r: seq<string>)
    ensures multiset(r) == multiset(s)[x := 0]
    ensures x !in r
  {
    if s == [] then []
    else
      assert s == [s[0]] + s[1..];
      (if s[0] == x then [] else [s[0]]) + Without(s[1..], x)
  }

  /** Filtering commutes with concatenation, so relative order is kept. */
  lemma {:induction false} WithoutConcat(a: seq<string>, b: seq<string>, x: string)
    ensures Without(a + b, x) == Without(a, x) + Without(b, x)
  {
    if a != [] {
      assert (a + b)[1..] == a[1..] + b;
      WithoutConcat(a[1..], b, x);
    } else {
      assert a + b == b;
    }
  }

  /** Removing an element that is not there changes nothing. */
  lemma {:induction false} WithoutAbsent(s: seq<string>, x: string)
    requires x !in s
    ensures Without(s, x) == s
  {
    if s != [] {
      WithoutAbsent(s[1..], x);
    }
  }

  /** The new list `addFavorite` stores: the old list's distinct elements, then `item` if new. */
  function Added(s: seq<string>, item: string): (r: seq<string>)
    ensures NoDuplicates(r)
    ensures r == Distinct(s) + (if item in s then [] else [item])
  {
    assert (s + [item])[..|s|] == s;
    Distinct(s + [item])
  }

  /** `item` appears exactly once after adding it. */
  lemma AddedOnce(s: seq<string>, item: string)
    ensures multiset(Added(s, item))[item] == 1
  {
    var r := Added(s, item);
    var k := FirstIndex(r, item);
    assert r == r[..k] + [item] + r[k + 1..];
    assert item !in r[k + 1..];
  }

  /** Adding the same item twice gives the same list as adding it once. */
  lemma AddedIdempotent(s: seq<string>, item: string)
    ensures Added(Added(s, item), item) == Added(s, item)
  {
    var r := Added(s, item);
    DistinctOfNoDuplicates(r);
  }

  /** Adding a new item to a duplicate-free list and then removing it restores the list. */
  lemma AddThenRemove(s: seq<string>, item: string)
    requires NoDuplicates(s) && item !in s
    ensures Without(Added(s, item), item) == s
  {
    DistinctOfNoDuplicates(s);
    WithoutConcat(s, [item], item);
    WithoutAbsent(s, item);
  }

  /** `loadFavorites`: the stored value when there is one, otherwise both lists empty. */
  function LoadFavorites(inBrowser: bool, storage: map<string, Favorites>): (f: Favorites)
    ensures inBrowser && StorageKey in storage ==> f == storage[StorageKey]
    ensures !(inBrowser && StorageKey in storage) ==> f.cities == [] && f.cryptos == []
  {
    if inBrowser && StorageKey in storage then storage[StorageKey] else NoFavorites
  }

  /** What is saved under the key is what the next load returns. */
  lemma SaveThenLoad(storage: map<string, Favorites>, f: Favorites)
    ensures LoadFavorites(true, storage[StorageKey := f]) == f
  {
  }
}
