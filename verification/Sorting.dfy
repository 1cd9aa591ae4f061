/** A stable sort by an order on the elements. */
module Sorting {

  function Insert<T(!new)>(s: seq<T>, x: T, atMost: (T, T) -> bool): (r: seq<T>)
    ensures |r| == |s| + 1 && forall y :: y in r <==> y in s || y == x
  {
    if s == [] || atMost(s[|s| - 1], x) then s + [x]
    else
      assert s == s[..|s| - 1] + [s[|s| - 1]];
      Insert(s[..|s| - 1], x, atMost) + [s[|s| - 1]]
  }

  function Sorted<T(!new)>(s: seq<T>, atMost: (T, T) -> bool): (r: seq<T>)
    ensures |r| == |s| && forall y :: y in r <==> y in s
  {
    if s == [] then []
    else
      assert s == s[..|s| - 1] + [s[|s| - 1]];
      Insert(Sorted(s[..|s| - 1], atMost), s[|s| - 1], atMost)
  }

  ghost predicate Ordered<T(!new)>(s: seq<T>, atMost: (T, T) -> bool) {
    forall i, j :: 0 <= i < j < |s| ==> atMost(s[i], s[j])
  }

  /** A total and transitive order. */
  ghost predicate IsOrder<T(!new)>(atMost: (T, T) -> bool) {
    && (forall x, y :: atMost(x, y) || atMost(y, x))
    && (forall x, y, z :: atMost(x, y) && atMost(y, z) ==> atMost(x, z))
  }

  lemma {:induction false} InsertOrders<T(!new)>(s: seq<T>, x: T, atMost: (T, T) -> bool)
    requires IsOrder(atMost) && Ordered(s, atMost)
    ensures Ordered(Insert(s, x, atMost), atMost)
  {
    if s != [] && !atMost(s[|s| - 1], x) {
      var rest, last := s[..|s| - 1], s[|s| - 1];
      InsertOrders(rest, x, atMost);
      var r := Insert(rest, x, atMost);
      forall i | 0 <= i < |r|
        ensures atMost(r[i], last)
      {
        assert r[i] in r;
      }
    } else if s != [] {
      forall i | 0 <= i < |s|
        ensures atMost(s[i], x)
      {
        assert i < |s| - 1 ==> atMost(s[i], s[|s| - 1]);
      }
    }
  }

  lemma {:induction false} SortedIsOrdered<T(!new)>(s: seq<T>, atMost: (T, T) -> bool)
    requires IsOrder(atMost)
    ensures Ordered(Sorted(s, atMost), atMost)
  {
    if s != [] {
      SortedIsOrdered(s[..|s| - 1], atMost);
      InsertOrders(Sorted(s[..|s| - 1], atMost), s[|s| - 1], atMost);
    }
  }

  /** Inserting and sorting neither lose nor repeat: what tells elements apart still does. */
  lemma {:induction false} InsertKeepsApart<T(!new), K(!new)>(s: seq<T>, x: T, atMost: (T, T) -> bool, key: T -> K)
    requires Apart(s, key) && forall y :: y in s ==> key(y) != key(x)
    ensures Apart(Insert(s, x, atMost), key)
  {
    if s != [] && !atMost(s[|s| - 1], x) {
      var rest := s[..|s| - 1];
      assert forall y :: y in rest ==> y in s;
      InsertKeepsApart(rest, x, atMost, key);
      var r := Insert(rest, x, atMost);
      forall i | 0 <= i < |r|
        ensures key(r[i]) != key(s[|s| - 1])
      {
        assert r[i] in r;
        if r[i] in rest {
          var j :| 0 <= j < |rest| && rest[j] == r[i];
          assert s[j] == r[i];
        }
      }
    } else {
      forall i | 0 <= i < |s|
        ensures key(s[i]) != key(x)
      {
        assert s[i] in s;
      }
    }
  }

  ghost predicate Apart<T(!new), K(!new)>(s: seq<T>, key: T -> K) {
    forall i, j :: 0 <= i < j < |s| ==> key(s[i]) != key(s[j])
  }

  lemma {:induction false} SortedKeepsApart<T(!new), K(!new)>(s: seq<T>, atMost: (T, T) -> bool, key: T -> K)
    requires Apart(s, key)
    ensures Apart(Sorted(s, atMost), key)
  {
    if s != [] {
      var rest := s[..|s| - 1];
      SortedKeepsApart(rest, atMost, key);
      forall y | y in Sorted(rest, atMost)
        ensures key(y) != key(s[|s| - 1])
      {
        assert y in rest;
        var j :| 0 <= j < |rest| && rest[j] == y;
        assert s[j] == y;
      }
      InsertKeepsApart(Sorted(rest, atMost), s[|s| - 1], atMost, key);
    }
  }
}
