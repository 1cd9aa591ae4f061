/** Counting the numbers below a bound that have a property. */
module Counting {

  function Tally(n: nat, f: nat -> bool): nat {
    if n == 0 then 0 else Tally(n - 1, f) + if f(n - 1) then 1 else 0
  }

  lemma {:induction false} CountLess(n: nat, f: nat -> bool, g: nat -> bool)
    requires forall i: nat :: i < n && f(i) ==> g(i)
    ensures Tally(n, f) <= Tally(n, g)
  {
    if n > 0 {
      CountLess(n - 1, f, g);
    }
  }

  lemma {:induction false} CountAll(n: nat, f: nat -> bool)
    ensures Tally(n, f) <= n
    ensures (forall i: nat :: i < n ==> f(i)) ==> Tally(n, f) == n
    ensures (forall i: nat :: i < n ==> !f(i)) ==> Tally(n, f) == 0
  {
    if n > 0 {
      CountAll(n - 1, f);
    }
  }

  /** A finite set of numbers has as many members as the count says. */
  lemma {:induction false} Card(s: set<nat>, n: nat, f: nat -> bool)
    requires forall i: nat :: i in s <==> i < n && f(i)
    ensures |s| == Tally(n, f)
  {
    if n == 0 {
      assert s == {};
    } else {
      Card(s - {n - 1}, n - 1, f);
    }
  }
}
