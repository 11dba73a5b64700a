/** The order JavaScript sorts strings in: element by element, a prefix first. */
module Ordering {

  ghost predicate Injective<T(!new)>(rank: T -> int) { forall x, y :: rank(x) == rank(y) ==> x == y }

  predicate Below<T>(a: seq<T>, b: seq<T>, rank: T -> int) {
    b != [] && (a == [] || rank(a[0]) < rank(b[0]) || (rank(a[0]) == rank(b[0]) && Below(a[1..], b[1..], rank)))
  }

  lemma {:induction false} BelowTotal<T(!new)>(a: seq<T>, b: seq<T>, rank: T -> int)
    requires Injective(rank)
    ensures a == b || Below(a, b, rank) || Below(b, a, rank)
  {
    if a != [] && b != [] && rank(a[0]) == rank(b[0]) {
      BelowTotal(a[1..], b[1..], rank);
      assert a == [a[0]] + a[1..] && b == [b[0]] + b[1..];
    }
  }

  lemma {:induction false} BelowTransitive<T>(a: seq<T>, b: seq<T>, c: seq<T>, rank: T -> int)
    requires Below(a, b, rank) && Below(b, c, rank)
    ensures Below(a, c, rank)
  {
    if a != [] && rank(a[0]) == rank(b[0]) == rank(c[0]) { BelowTransitive(a[1..], b[1..], c[1..], rank); }
  }

  lemma {:induction false} BelowIrreflexive<T>(a: seq<T>, rank: T -> int)
    ensures !Below(a, a, rank)
  {
    if a != [] { BelowIrreflexive(a[1..], rank); }
  }

  predicate Ascending<T>(items: seq<seq<T>>, rank: T -> int) {
    forall i, j :: 0 <= i < j < |items| ==> Below(items[i], items[j], rank)
  }

  method Insert<T(!new)>(items: seq<seq<T>>, item: seq<T>, rank: T -> int) returns (r: seq<seq<T>>)
    requires Injective(rank) && Ascending(items, rank) && item !in items
    ensures Ascending(r, rank) && forall p :: p in r <==> p in items || p == item
  {
    var k := 0;
    while k < |items| && Below(items[k], item, rank)
      invariant k <= |items| && forall i :: 0 <= i < k ==> Below(items[i], item, rank)
    {
      k := k + 1;
    }
    if k < |items| { BelowTotal(items[k], item, rank); }
    forall j | k <= j < |items|
      ensures Below(item, items[j], rank)
    {
      if k < j { BelowTransitive(item, items[k], items[j], rank); }
    }
    r := items[..k] + [item] + items[k..];
    assert items == items[..k] + items[k..];
  }

  /** `[...items].sort()` */
  method Sort<T(!new, ==)>(items: set<seq<T>>, rank: T -> int) returns (r: seq<seq<T>>)
    requires Injective(rank)
    ensures Ascending(r, rank) && forall p :: p in r <==> p in items
  {
    r := [];
    var left := items;
    while left != {}
      invariant Ascending(r, rank) && left <= items && forall p :: p in r <==> p in items && p !in left
    {
      var item :| item in left;
      r := Insert(r, item, rank);
      left := left - {item};
    }
  }

  /** An ascending list names nothing twice, and is the only ascending list of its elements. */
  lemma NoDuplicates<T>(items: seq<seq<T>>, i: nat, j: nat, rank: T -> int)
    requires Ascending(items, rank) && i < j < |items|
    ensures items[i] != items[j]
  {
    BelowIrreflexive(items[i], rank);
  }

  lemma NotBefore<T>(items: seq<seq<T>>, i: nat, rank: T -> int)
    requires Ascending(items, rank) && i < |items|
    ensures items[i] !in items[..i]
  {
    BelowIrreflexive(items[i], rank);
  }
}
