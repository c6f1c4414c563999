/** Lookups and filters over lists of records keyed by a string id, as
    `find((x) => x.id === id)`, `filter((x) => x.id !== id)` and
    `map((x) => (x.id === id ? y : x))` are used throughout the stores. */
module Lists {
  import opened Remote

  /** `findIndex` by id: the first position holding the id, if any. */
  function IndexOfId<T>(s: seq<T>, idOf: T -> string, id: string): (r: Option<nat>)
    ensures r.Some? ==> r.value < |s| && idOf(s[r.value]) == id
    ensures r.Some? ==> forall k :: 0 <= k < r.value ==> idOf(s[k]) != id
    ensures r.None? <==> forall k :: 0 <= k < |s| ==> idOf(s[k]) != id
  {
    if s == [] then None
    else if idOf(s[0]) == id then Some(0)
    else match IndexOfId(s[1..], idOf, id)
      case None => None
      case Some(k) => Some(k + 1)
  }

  /** `filter((x) => x.id !== id)`. */
  function RemoveWithId<T>(s: seq<T>, idOf: T -> string, id: string): seq<T> {
    if s == [] then []
    else if idOf(s[0]) == id then RemoveWithId(s[1..], idOf, id)
    else [s[0]] + RemoveWithId(s[1..], idOf, id)
  }

  /** The filter keeps no element with the id, keeps every element without
      it, and adds nothing. */
  lemma {:induction false} RemoveWithIdMeaning<T>(s: seq<T>, idOf: T -> string, id: string)
    ensures |RemoveWithId(s, idOf, id)| <= |s|
    ensures var r := RemoveWithId(s, idOf, id);
      forall k :: 0 <= k < |r| ==> r[k] in s && idOf(r[k]) != id
    ensures var r := RemoveWithId(s, idOf, id);
      forall k :: 0 <= k < |s| && idOf(s[k]) != id ==> s[k] in r
  {
    if s != [] {
      var t := RemoveWithId(s[1..], idOf, id);
      RemoveWithIdMeaning(s[1..], idOf, id);
      var r := RemoveWithId(s, idOf, id);
      assert forall k :: 1 <= k < |s| ==> s[k] == s[1..][k - 1];
      if idOf(s[0]) != id {
        assert r == [s[0]] + t;
      }
    }
  }

  /** Removing by id is an order-keeping filter: it distributes over
      concatenation (and `RemoveOne` says what it does to one element). */
  lemma {:induction false} RemoveWithIdAppend<T>(a: seq<T>, b: seq<T>, idOf: T -> string, id: string)
    ensures RemoveWithId(a + b, idOf, id) == RemoveWithId(a, idOf, id) + RemoveWithId(b, idOf, id)
  {
    if a != [] {
      assert (a + b)[0] == a[0];
      assert (a + b)[1..] == a[1..] + b;
      RemoveWithIdAppend(a[1..], b, idOf, id);
      if idOf(a[0]) != id {
        assert RemoveWithId(a + b, idOf, id) == [a[0]] + RemoveWithId(a[1..] + b, idOf, id);
      }
    } else {
      assert a + b == b;
    }
  }

  /** On one element, removal by id keeps it exactly when its id differs. */
  lemma RemoveOne<T>(x: T, idOf: T -> string, id: string)
    ensures RemoveWithId([x], idOf, id) == if idOf(x) == id then [] else [x]
  {
    assert [x][1..] == [];
  }

  /** A list without the id is left as it is. */
  lemma {:induction false} RemoveAbsentId<T>(s: seq<T>, idOf: T -> string, id: string)
    requires forall k :: 0 <= k < |s| ==> idOf(s[k]) != id
    ensures RemoveWithId(s, idOf, id) == s
  {
    if s != [] {
      RemoveAbsentId(s[1..], idOf, id);
      assert s == [s[0]] + s[1..];
    }
  }

  /** `map((x) => (x.id === id ? y : x))`. */
  function ReplaceWithId<T>(s: seq<T>, idOf: T -> string, id: string, y: T): (r: seq<T>)
    ensures |r| == |s|
    ensures forall k :: 0 <= k < |s| ==> r[k] == if idOf(s[k]) == id then y else s[k]
  {
    seq(|s|, k requires 0 <= k < |s| => if idOf(s[k]) == id then y else s[k])
  }

  /** `map((x) => (x.id === id ? f(x) : x))`. */
  function UpdateWithId<T>(s: seq<T>, idOf: T -> string, id: string, f: T -> T): (r: seq<T>)
    ensures |r| == |s|
    ensures forall k :: 0 <= k < |s| ==> r[k] == if idOf(s[k]) == id then f(s[k]) else s[k]
  {
    seq(|s|, k requires 0 <= k < |s| => if idOf(s[k]) == id then f(s[k]) else s[k])
  }
}
