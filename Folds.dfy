/** The array combinators the analytics are written with: `reduce` into a
    running sum and `filter`. */
module Folds {

  /** `s.reduce((sum, x) => sum + f(x), 0)`. Real addition is exact, so the
      order in which the fold adds the terms does not matter. */
  function SumOf<T>(s: seq<T>, f: T -> real): real
  {
    if s == [] then 0.0 else f(s[0]) + SumOf(s[1..], f)
  }

  /** `s.filter(p)`: keeps exactly the elements satisfying `p`, each as often
      as it occurs in `s`, in their original order. */
  function Filter<T(!new)>(s: seq<T>, p: T -> bool): (r: seq<T>)
    ensures |r| <= |s|
    ensures forall i :: 0 <= i < |r| ==> p(r[i])
  {
    if s == [] then [] else (if p(s[0]) then [s[0]] else []) + Filter(s[1..], p)
  }

  /** `Filter` keeps each element satisfying `p` exactly as often as it occurs. */
  lemma {:induction false} FilterMultiset<T(!new)>(s: seq<T>, p: T -> bool)
    ensures forall x :: multiset(Filter(s, p))[x] == if p(x) then multiset(s)[x] else 0
  {
    if s != [] {
      assert s == [s[0]] + s[1..];
      FilterMultiset(s[1..], p);
    }
  }

  lemma {:induction false} SumAppend<T>(a: seq<T>, b: seq<T>, f: T -> real)
    ensures SumOf(a + b, f) == SumOf(a, f) + SumOf(b, f)
  {
    if a == [] {
      assert a + b == b;
    } else {
      assert (a + b)[0] == a[0] && (a + b)[1..] == a[1..] + b;
      SumAppend(a[1..], b, f);
    }
  }

  lemma {:induction false} FilterAppend<T(!new)>(a: seq<T>, b: seq<T>, p: T -> bool)
    ensures Filter(a + b, p) == Filter(a, p) + Filter(b, p)
  {
    if a == [] {
      assert a + b == b;
    } else {
      var head := if p(a[0]) then [a[0]] else [];
      assert (a + b)[0] == a[0] && (a + b)[1..] == a[1..] + b;
      calc {
        Filter(a + b, p);
        head + Filter(a[1..] + b, p);
        { FilterAppend(a[1..], b, p); }
        head + (Filter(a[1..], p) + Filter(b, p));
        (head + Filter(a[1..], p)) + Filter(b, p);
        Filter(a, p) + Filter(b, p);
      }
    }
  }

  /** Filtering out elements on which `f` vanishes does not change the sum. */
  lemma {:induction false} SumFilterVanishing<T(!new)>(s: seq<T>, p: T -> bool, f: T -> real)
    requires forall x :: !p(x) ==> f(x) == 0.0
    ensures SumOf(Filter(s, p), f) == SumOf(s, f)
  {
    if s != [] {
      SumFilterVanishing(s[1..], p, f);
      SumAppend(if p(s[0]) then [s[0]] else [], Filter(s[1..], p), f);
    }
  }

  /** Two filters with the same multiset of survivors keep the same count. */
  lemma FilterCountByMultiset<T(!new)>(a: seq<T>, b: seq<T>, p: T -> bool, q: T -> bool)
    requires forall x :: (if p(x) then multiset(a)[x] else 0) == (if q(x) then multiset(b)[x] else 0)
    ensures |Filter(a, p)| == |Filter(b, q)|
  {
    FilterMultiset(a, p);
    FilterMultiset(b, q);
    assert multiset(Filter(a, p)) == multiset(Filter(b, q));
    calc {
      |Filter(a, p)|;
      |multiset(Filter(a, p))|;
      |multiset(Filter(b, q))|;
      |Filter(b, q)|;
    }
  }
}
