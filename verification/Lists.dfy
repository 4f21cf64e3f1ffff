/** Lists built by going through other lists. */
module Lists {

  /** f of every member, one after the other. */
  function Collect<T, U>(f: T -> seq<U>, s: seq<T>): seq<U> {
    if s == [] then [] else Collect(f, s[..|s| - 1]) + f(s[|s| - 1])
  }

  lemma {:induction false} Collected<T, U>(f: T -> seq<U>, s: seq<T>, v: U)
    ensures v in Collect(f, s) <==> exists x :: x in s && v in f(x)
  {
    if s != [] {
      var init, last := s[..|s| - 1], s[|s| - 1];
      Collected(f, init, v);
      assert forall x :: x in s <==> x in init || x == last;
    }
  }

  lemma {:induction false} CollectConcat<T, U>(f: T -> seq<U>, a: seq<T>, b: seq<T>)
    ensures Collect(f, a + b) == Collect(f, a) + Collect(f, b)
  {
    if b == [] {
      assert a + b == a;
    } else {
      CollectConcat(f, a, b[..|b| - 1]);
      assert (a + b)[..|a + b| - 1] == a + b[..|b| - 1];
    }
  }

  /** A member of a bag taken out of a list of its members. */
  lemma TakeOut<T>(a: seq<T>, b: seq<T>) returns (l: seq<T>, r: seq<T>)
    requires a != [] && multiset(a) == multiset(b)
    ensures b == l + [a[|a| - 1]] + r && multiset(a[..|a| - 1]) == multiset(l + r)
  {
    var n := a[|a| - 1];
    assert a == a[..|a| - 1] + [n];
    assert n in multiset(b);
    var j :| 0 <= j < |b| && b[j] == n;
    l, r := b[..j], b[j + 1..];
    assert b == l + [n] + r;
    assert multiset(a[..|a| - 1]) == multiset(a) - multiset{n};
  }

  lemma {:induction false} CollectIgnoresOrder<T, U>(f: T -> seq<U>, a: seq<T>, b: seq<T>)
    requires multiset(a) == multiset(b)
    ensures multiset(Collect(f, a)) == multiset(Collect(f, b))
  {
    if a == [] {
      assert |multiset(b)| == 0;
    } else {
      var l, r := TakeOut(a, b);
      CollectIgnoresOrder(f, a[..|a| - 1], l + r);
      var n := [a[|a| - 1]];
      CollectConcat(f, l, r);
      CollectConcat(f, l, n);
      CollectConcat(f, l + n, r);
      assert n[..0] == [];
    }
  }
}
