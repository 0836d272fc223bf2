/** Small value types and counting functions shared by the three models. */
module Kernel {
  datatype Option<+T> = None | Some(value: T)

  function Bit(b: bool): nat {
    if b then 1 else 0
  }

  /** The numbers 0, 1, ..., n-1. */
  function Below(n: nat): (r: set<nat>)
    ensures forall i :: i in r <==> 0 <= i < n
  {
    var q := seq(n, i => i);
    assert forall i :: 0 <= i < n ==> q[i] == i && i in q;
    set i | i in q
  }

  lemma {:induction false} BelowSize(n: nat)
    ensures |Below(n)| == n
  {
    if n > 0 {
      BelowSize(n - 1);
      assert Below(n) == Below(n - 1) + {n - 1};
    }
  }

  /** How many elements of q satisfy p. */
  function Count<T>(q: seq<T>, p: T -> bool): nat {
    if q == [] then 0 else Count(q[..|q| - 1], p) + Bit(p(q[|q| - 1]))
  }

  lemma CountAppend<T>(q: seq<T>, x: T, p: T -> bool)
    ensures Count(q + [x], p) == Count(q, p) + Bit(p(x))
  {
    assert (q + [x])[..|q|] == q;
  }

  lemma {:induction false} CountConcat<T>(a: seq<T>, b: seq<T>, p: T -> bool)
    ensures Count(a + b, p) == Count(a, p) + Count(b, p)
  {
    if b == [] {
      assert a + b == a;
    } else {
      CountConcat(a, b[..|b| - 1], p);
      assert (a + b)[..|a + b| - 1] == a + b[..|b| - 1];
    }
  }

  lemma CountPop<T>(q: seq<T>, p: T -> bool)
    requires q != []
    ensures Count(q, p) == Bit(p(q[0])) + Count(q[1..], p)
  {
    assert q == [q[0]] + q[1..];
    CountConcat([q[0]], q[1..], p);
    CountAppend([], q[0], p);
    assert [] + [q[0]] == [q[0]];
  }

  /** How often x occurs in q. */
  function Occurs<T(==)>(q: seq<T>, x: T): nat {
    if q == [] then 0 else Occurs(q[..|q| - 1], x) + Bit(q[|q| - 1] == x)
  }

  lemma OccursAppend<T>(q: seq<T>, y: T, x: T)
    ensures Occurs(q + [y], x) == Occurs(q, x) + Bit(y == x)
  {
    assert (q + [y])[..|q|] == q;
  }

  lemma {:induction false} OccursPop<T>(q: seq<T>, x: T)
    requires q != []
    ensures Occurs(q, x) == Bit(q[0] == x) + Occurs(q[1..], x)
  {
    if |q| == 1 {
      assert q[..0] == [];
    } else {
      OccursPop(q[..|q| - 1], x);
      assert q[..|q| - 1][1..] == q[1..][..|q| - 2];
    }
  }

  lemma {:induction false} OccursIffIn<T>(q: seq<T>, x: T)
    ensures x in q <==> Occurs(q, x) > 0
  {
    if q == [] {
    } else {
      OccursIffIn(q[..|q| - 1], x);
      assert q == q[..|q| - 1] + [q[|q| - 1]];
    }
  }

  lemma {:induction false} OccursConcat<T>(a: seq<T>, b: seq<T>, x: T)
    ensures Occurs(a + b, x) == Occurs(a, x) + Occurs(b, x)
  {
    if b == [] {
      assert a + b == a;
    } else {
      OccursConcat(a, b[..|b| - 1], x);
      assert (a + b)[..|a + b| - 1] == a + b[..|b| - 1];
    }
  }

  /** Taking out the element at position i. */
  lemma OccursDrop<T>(q: seq<T>, i: nat, x: T)
    requires i < |q|
    ensures Occurs(q, x) == Occurs(q[..i] + q[i + 1..], x) + Bit(q[i] == x)
  {
    assert q == q[..i] + q[i..];
    OccursConcat(q[..i], q[i..], x);
    OccursPop(q[i..], x);
    assert q[i..][1..] == q[i + 1..];
    OccursConcat(q[..i], q[i + 1..], x);
  }

  lemma {:induction false} OccursIsMultiplicity<T>(q: seq<T>, x: T)
    ensures multiset(q)[x] == Occurs(q, x)
  {
    if q == [] {
    } else {
      OccursIsMultiplicity(q[..|q| - 1], x);
      assert q == q[..|q| - 1] + [q[|q| - 1]];
    }
  }
}
