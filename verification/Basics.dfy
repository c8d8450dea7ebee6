/** Options, and facts about finite sets and ordered lists that several modules use. */
module Basics {

  datatype Option<+T> = None | Some(value: T)

  /** The larger and the smaller of two integers. */
  function Max(a: int, b: int): int { if a >= b then a else b }

  function Min(a: int, b: int): int { if a <= b then a else b }

  /** A subset has no more members than its superset. */
  lemma SubsetSize<T>(a: set<T>, b: set<T>)
    requires a <= b
    ensures |a| <= |b|
  {
    assert b == a + (b - a);
  }

  /** Moving one element out of `todo` adds it to what `all` has left, if it belongs there. */
  lemma TakeOne<T>(all: set<T>, todo: set<T>, x: T)
    requires x in todo
    ensures |all - (todo - {x})| == |all - todo| + (if x in all then 1 else 0)
  {
    if x in all {
      assert all - (todo - {x}) == (all - todo) + {x};
    } else {
      assert all - (todo - {x}) == all - todo;
    }
  }

  ghost predicate Distinct<T>(s: seq<T>) {
    forall i, j :: 0 <= i < j < |s| ==> s[i] != s[j]
  }

  function Elements<T>(s: seq<T>): set<T> { set x | x in s }

  /** `s` without every occurrence of `x`, the rest in order: what deleting a key does to a
      dictionary's key order. */
  function Without<T(==,!new)>(s: seq<T>, x: T): (r: seq<T>)
    ensures forall y :: y in r <==> y in s && y != x
  {
    if s == [] then []
    else
      var rest := Without(s[..|s| - 1], x);
      var y := s[|s| - 1];
      if y == x then rest else rest + [y]
  }

  lemma {:induction false} WithoutDistinct<T(!new)>(s: seq<T>, x: T)
    requires Distinct(s)
    ensures Distinct(Without(s, x))
  {
    if s != [] {
      var init := s[..|s| - 1];
      WithoutDistinct(init, x);
      assert s[|s| - 1] !in init;
    }
  }

  /** `d` added up `k` times: a product, without the multiplication. */
  function Repeated(k: nat, d: int): int { if k == 0 then 0 else Repeated(k - 1, d) + d }

  lemma {:induction false} RepeatedProduct(k: nat, d: int)
    ensures Repeated(k, d) == k * d
  {
    if k > 0 {
      RepeatedProduct(k - 1, d);
      assert k * d == (k - 1) * d + d;
    }
  }

  lemma {:induction false} RepeatedRises(j: nat, k: nat, d: int)
    requires j <= k && d >= 0
    ensures Repeated(j, d) <= Repeated(k, d)
  {
    if j < k {
      RepeatedRises(j, k - 1, d);
    }
  }

  /** As many of `d` as fit are no more than the quotient. */
  lemma {:induction false} RepeatedFits(k: nat, d: int, span: int)
    requires d > 0 && Repeated(k, d) <= span
    ensures k <= span / d
  {
    RepeatedProduct(k, d);
    QuotientCovers(k, d, span);
  }

  lemma QuotientCovers(k: int, d: int, span: int)
    requires d > 0 && k * d <= span
    ensures k <= span / d
  {
    assert span == d * (span / d) + span % d;
    MultiplesApart(d, span / d, k);
  }

  /** Multiples of `d` are at least `d` apart. */
  lemma MultiplesApart(d: nat, x: int, y: int)
    ensures x < y ==> d * x + d <= d * y
  {
    if x < y {
      ProductNotNegative(d, y - x - 1);
      assert d * y == d * x + d + d * (y - x - 1);
    }
  }

  lemma ProductNotNegative(x: nat, y: nat)
    ensures x * y >= 0
  {
  }
}
