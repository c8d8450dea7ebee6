/** Reducing a window of samples to one value: mean, minimum, or a percentile by linear interpolation. */
module Reductions {
  import opened Basics
  import opened Policies

  function Sum(vs: seq<real>): real {
    if vs == [] then 0.0 else Sum(vs[..|vs| - 1]) + vs[|vs| - 1]
  }

  /** The total divided by the number, adding up first. */
  function AverageFrom(vs: seq<real>, rest: real, n: nat): real
    requires |vs| + n > 0
  {
    if vs == [] then rest / n as real else AverageFrom(vs[..|vs| - 1], vs[|vs| - 1] + rest, n + 1)
  }

  function Average(vs: seq<real>): real
    requires vs != []
  {
    AverageFrom(vs, 0.0, 0)
  }

  lemma {:induction false} AverageFromExact(vs: seq<real>, rest: real, n: nat)
    requires |vs| + n > 0
    ensures AverageFrom(vs, rest, n) == (Sum(vs) + rest) / (|vs| + n) as real
  {
    if vs != [] {
      AverageFromExact(vs[..|vs| - 1], vs[|vs| - 1] + rest, n + 1);
    }
  }

  lemma AverageExact(vs: seq<real>)
    requires vs != []
    ensures Average(vs) == Sum(vs) / |vs| as real
  {
    AverageFromExact(vs, 0.0, 0);
  }

  function Smallest(vs: seq<real>): real
    requires vs != []
  {
    if |vs| == 1 then vs[0]
    else
      var rest := Smallest(vs[..|vs| - 1]);
      if vs[|vs| - 1] < rest then vs[|vs| - 1] else rest
  }

  // --- sorting ---------------------------------------------------------------

  ghost predicate Ascending(vs: seq<real>) { forall i, j :: 0 <= i <= j < |vs| ==> vs[i] <= vs[j] }

  function Insert(vs: seq<real>, x: real): (r: seq<real>)
    ensures |r| == |vs| + 1
  {
    if vs == [] || vs[|vs| - 1] <= x then vs + [x]
    else Insert(vs[..|vs| - 1], x) + [vs[|vs| - 1]]
  }

  function Sort(vs: seq<real>): (r: seq<real>)
    ensures |r| == |vs|
  {
    if vs == [] then [] else Insert(Sort(vs[..|vs| - 1]), vs[|vs| - 1])
  }

  lemma {:induction false} InsertSame(vs: seq<real>, x: real)
    ensures multiset(Insert(vs, x)) == multiset(vs) + multiset{x}
  {
    if vs != [] && vs[|vs| - 1] > x {
      var init, last := vs[..|vs| - 1], vs[|vs| - 1];
      assert vs == init + [last];
      InsertSame(init, x);
    }
  }

  lemma {:induction false} InsertAscends(vs: seq<real>, x: real)
    requires Ascending(vs)
    ensures Ascending(Insert(vs, x))
    ensures forall i :: 0 <= i <= |vs| ==> Insert(vs, x)[i] <= if vs != [] && vs[|vs| - 1] > x then vs[|vs| - 1] else x
  {
    if vs != [] && vs[|vs| - 1] > x {
      InsertAscends(vs[..|vs| - 1], x);
    }
  }

  lemma {:induction false} SortExact(vs: seq<real>)
    ensures Ascending(Sort(vs)) && multiset(Sort(vs)) == multiset(vs)
  {
    if vs != [] {
      var init, last := vs[..|vs| - 1], vs[|vs| - 1];
      assert vs == init + [last];
      SortExact(init);
      InsertSame(Sort(init), last);
      InsertAscends(Sort(init), last);
    }
  }

  lemma LastAgrees(a: seq<real>, b: seq<real>)
    requires Ascending(a) && Ascending(b) && multiset(a) == multiset(b) && a != [] && b != []
    ensures a[|a| - 1] == b[|b| - 1]
  {
    assert a[|a| - 1] in multiset(b) && b[|b| - 1] in multiset(a);
  }

  /** Two ascending sequences with the same members are the same. */
  lemma {:induction false} AscendingUnique(a: seq<real>, b: seq<real>)
    requires Ascending(a) && Ascending(b) && multiset(a) == multiset(b)
    ensures a == b
  {
    SameSize(a, b);
    if a != [] {
      LastAgrees(a, b);
      SameInit(a, b);
      AscendingUnique(a[..|a| - 1], b[..|b| - 1]);
      assert a == a[..|a| - 1] + [a[|a| - 1]] && b == b[..|b| - 1] + [b[|b| - 1]];
    }
  }

  lemma SameSize(a: seq<real>, b: seq<real>)
    requires multiset(a) == multiset(b)
    ensures |a| == |b|
  {
    assert |multiset(a)| == |a| && |multiset(b)| == |b|;
  }

  lemma SameInit(a: seq<real>, b: seq<real>)
    requires a != [] && b != [] && multiset(a) == multiset(b) && a[|a| - 1] == b[|b| - 1]
    ensures multiset(a[..|a| - 1]) == multiset(b[..|b| - 1])
  {
    DropLast(a);
    DropLast(b);
  }

  lemma DropLast(a: seq<real>)
    requires a != []
    ensures multiset(a[..|a| - 1]) == multiset(a) - multiset{a[|a| - 1]}
  {
    assert a == a[..|a| - 1] + [a[|a| - 1]];
  }

  // --- order statistics ------------------------------------------------------

  /** How many values are below `x`. */
  function Below(vs: seq<real>, x: real): nat {
    if vs == [] then 0 else Below(vs[..|vs| - 1], x) + if vs[|vs| - 1] < x then 1 else 0
  }

  lemma {:induction false} BelowConcat(a: seq<real>, b: seq<real>, x: real)
    ensures Below(a + b, x) == Below(a, x) + Below(b, x)
  {
    if b == [] {
      assert a + b == a;
    } else {
      assert (a + b)[..|a + b| - 1] == a + b[..|b| - 1];
      BelowConcat(a, b[..|b| - 1], x);
    }
  }

  lemma {:induction false} BelowAtMost(vs: seq<real>, x: real)
    ensures Below(vs, x) <= |vs|
  {
    if vs != [] {
      BelowAtMost(vs[..|vs| - 1], x);
    }
  }

  lemma {:induction false} BelowInsert(vs: seq<real>, v: real, x: real)
    ensures Below(Insert(vs, v), x) == Below(vs, x) + if v < x then 1 else 0
  {
    if vs == [] || vs[|vs| - 1] <= v {
      assert (vs + [v])[..|vs|] == vs;
    } else {
      BelowInsert(vs[..|vs| - 1], v, x);
      var r := Insert(vs[..|vs| - 1], v);
      assert (r + [vs[|vs| - 1]])[..|r|] == r;
    }
  }

  lemma {:induction false} BelowSort(vs: seq<real>, x: real)
    ensures Below(Sort(vs), x) == Below(vs, x)
  {
    if vs != [] {
      BelowSort(vs[..|vs| - 1], x);
      BelowInsert(Sort(vs[..|vs| - 1]), vs[|vs| - 1], x);
    }
  }

  lemma {:induction false} BelowAscending(vs: seq<real>, x: real, k: nat)
    requires Ascending(vs) && k < |vs|
    ensures vs[k] < x <==> Below(vs, x) > k
  {
    var last := vs[|vs| - 1];
    BelowAtMost(vs[..|vs| - 1], x);
    if last < x {
      AllBelow(vs, x);
    } else if k < |vs| - 1 {
      BelowAscending(vs[..|vs| - 1], x, k);
    }
  }

  lemma {:induction false} AllBelow(vs: seq<real>, x: real)
    requires forall i :: 0 <= i < |vs| ==> vs[i] < x
    ensures Below(vs, x) == |vs|
  {
    if vs != [] {
      AllBelow(vs[..|vs| - 1], x);
    }
  }

  /** The `k`-th smallest value is below `x` exactly when more than `k` values are. */
  lemma OrderStatistic(vs: seq<real>, k: nat, x: real)
    requires k < |vs|
    ensures Sort(vs)[k] < x <==> Below(vs, x) > k
  {
    SortExact(vs);
    BelowSort(vs, x);
    BelowAscending(Sort(vs), x, k);
  }

  // --- percentiles -----------------------------------------------------------

  /** The rank in hundredths: `pct` for each step between the ordered values. */
  function Hundredths(pct: nat, n: nat): nat
    requires n > 0
  {
    RepeatedRises(0, n - 1, pct);
    Repeated(n - 1, pct)
  }

  lemma HundredthsProduct(pct: nat, n: nat)
    requires n > 0
    ensures Hundredths(pct, n) == pct * (n - 1)
  {
    RepeatedProduct(n - 1, pct);
  }

  lemma FloorOfHundredths(a: nat, x: real)
    requires x == a as real / 100.0
    ensures x.Floor == a / 100 && x - x.Floor as real == (a % 100) as real / 100.0
    ensures -((-x).Floor) == if a % 100 == 0 then a / 100 else a / 100 + 1
  {
    var q, r := a / 100, a % 100;
    assert a == 100 * q + r;
    assert x == q as real + r as real / 100.0;
  }

  lemma {:induction false} CastProduct(p: nat, m: nat)
    ensures p as real * m as real == (p * m) as real
  {
    if m > 0 {
      CastProduct(p, m - 1);
      assert p * m == p * (m - 1) + p;
      assert m as real == (m - 1) as real + 1.0;
      Distribute(p as real, (m - 1) as real);
    }
  }

  lemma Distribute(x: real, y: real)
    ensures x * (y + 1.0) == x * y + x
  {
  }

  lemma Reorder(x: real, y: real)
    ensures x / 100.0 * y == x * y / 100.0
  {
  }

  lemma RankInRange(pct: nat, n: nat)
    requires pct <= 100 && n > 0
    ensures var a := Hundredths(pct, n); 0 <= a / 100 < n && (a % 100 != 0 ==> a / 100 + 1 < n)
  {
    RepeatedUpTo(n - 1, pct, 100);
    RepeatedProduct(n - 1, 100);
  }

  lemma {:induction false} RepeatedUpTo(k: nat, c: int, d: int)
    requires c <= d
    ensures Repeated(k, c) <= Repeated(k, d)
  {
    if k > 0 {
      RepeatedUpTo(k - 1, c, d);
    }
  }

  /** In exact arithmetic the rank is the percentage of the steps, and its floor, its ceiling and the weight
      between them are those of integer division. */
  lemma RankExact(pct: nat, n: nat)
    requires pct <= 100 && n > 0
    ensures var rank := pct as real / 100.0 * (n - 1) as real;
            var r := RankOf(pct, n);
            && r.low == rank.Floor && r.high == -((-rank).Floor) && r.weight == rank - rank.Floor as real
  {
    var rank := pct as real / 100.0 * (n - 1) as real;
    Reorder(pct as real, (n - 1) as real);
    CastProduct(pct, n - 1);
    RepeatedProduct(n - 1, pct);
    FloorOfHundredths(Hundredths(pct, n), rank);
  }

  datatype Rank = Rank(low: nat, high: nat, weight: real)

  /** The two closest ranks among `n` ordered values, and how far the percentile lies towards the higher. */
  function RankOf(pct: nat, n: nat): (r: Rank)
    requires pct <= 100 && n > 0
    ensures r.high < n
  {
    RankInRange(pct, n);
    var a := Hundredths(pct, n);
    Rank(a / 100, if a % 100 == 0 then a / 100 else a / 100 + 1, (a % 100) as real / 100.0)
  }

  /** Interpolation between two ranks of ordered samples. */
  function Between(s: seq<real>, r: Rank): real
    requires r.low < |s| && r.high < |s|
  {
    if r.low == r.high then s[r.low] else s[r.low] + (s[r.high] - s[r.low]) * r.weight
  }

  /** The `pct`-th percentile: linear interpolation between the two closest ranks. */
  function Percentile(vs: seq<real>, pct: nat): real
    requires vs != [] && pct <= 100
  {
    var ordered := Sort(vs);
    if |ordered| == 1 then ordered[0]
    else
      Between(ordered, RankOf(pct, |ordered|))
  }

  /** Whether a rank of `a` hundredths can be interpolated among `n` values. */
  predicate RankFits(a: nat, n: nat) { a / 100 < n && (a % 100 != 0 ==> a / 100 + 1 < n) }

  /** Interpolation at a rank of `a` hundredths. */
  function At(s: seq<real>, a: nat): real
    requires RankFits(a, |s|)
  {
    if a % 100 == 0 then s[a / 100]
    else s[a / 100] + (s[a / 100 + 1] - s[a / 100]) * ((a % 100) as real / 100.0)
  }

  lemma BetweenAt(s: seq<real>, r: Rank, a: nat)
    requires r == Rank(a / 100, if a % 100 == 0 then a / 100 else a / 100 + 1, (a % 100) as real / 100.0)
             && r.high < |s|
    ensures RankFits(a, |s|) && Between(s, r) == At(s, a)
  {
  }

  lemma OneSample(pct: nat)
    ensures Hundredths(pct, 1) == 0
  {
  }

  lemma RankIs(pct: nat, n: nat, a: nat)
    requires pct <= 100 && n > 0 && a == Hundredths(pct, n)
    ensures RankOf(pct, n) == Rank(a / 100, if a % 100 == 0 then a / 100 else a / 100 + 1, (a % 100) as real / 100.0)
  {
  }

  lemma Interpolated(s: seq<real>, pct: nat, a: nat)
    requires s != [] && pct <= 100 && a == Hundredths(pct, |s|)
    ensures RankFits(a, |s|) && Between(s, RankOf(pct, |s|)) == At(s, a)
  {
    RankIs(pct, |s|, a);
    BetweenAt(s, RankOf(pct, |s|), a);
  }

  lemma PercentileIsBetween(vs: seq<real>, pct: nat)
    requires vs != [] && pct <= 100
    ensures Percentile(vs, pct) == Between(Sort(vs), RankOf(pct, |vs|))
  {
    if |vs| == 1 {
      OneSample(pct);
      RankIs(pct, 1, 0);
    }
  }

  lemma PercentileAt(vs: seq<real>, pct: nat)
    requires vs != [] && pct <= 100
    ensures RankFits(Hundredths(pct, |vs|), |vs|)
    ensures Percentile(vs, pct) == At(Sort(vs), Hundredths(pct, |vs|))
  {
    PercentileIsBetween(vs, pct);
    Interpolated(Sort(vs), pct, Hundredths(pct, |vs|));
  }

  /** A weighted mean of two numbers lies between them. */
  lemma MixBetween(lo: real, hi: real, f: real)
    requires 0.0 <= f <= 1.0 && lo <= hi
    ensures lo <= lo + (hi - lo) * f <= hi
  {
    Scale(hi - lo, 0.0, f);
    Scale(hi - lo, f, 1.0);
  }

  lemma MixSplit(lo: real, hi: real, f: real, g: real)
    requires g == 1.0 - f
    ensures lo + (hi - lo) * f == lo * g + hi * f
  {
    assert (hi - lo) * f == hi * f - lo * f;
    assert lo * g == lo * (1.0 - f) == lo - lo * f;
  }

  /** It grows with the two numbers. */
  lemma MixGrows(lo: real, hi: real, lo': real, hi': real, f: real)
    requires 0.0 <= f <= 1.0 && lo <= lo' && hi <= hi'
    ensures lo + (hi - lo) * f <= lo' + (hi' - lo') * f
  {
    var g := 1.0 - f;
    MixSplit(lo, hi, f, g);
    MixSplit(lo', hi', f, g);
    Grow(lo, lo', g);
    Grow(hi, hi', f);
    AddUp(lo + (hi - lo) * f, lo * g, hi * f, lo' + (hi' - lo') * f, lo' * g, hi' * f);
  }

  lemma AddUp(x: real, a: real, b: real, y: real, c: real, d: real)
    requires x == a + b && y == c + d && a <= c && b <= d
    ensures x <= y
  {
  }

  lemma Grow(x: real, y: real, f: real)
    requires x <= y && 0.0 <= f
    ensures x * f <= y * f
  {
    Scale(y - x, 0.0, f);
    assert (y - x) * f == y * f - x * f;
  }

  lemma Scale(x: real, f: real, g: real)
    requires 0.0 <= x && f <= g
    ensures x * f <= x * g
  {
  }

  lemma AtBetween(s: seq<real>, a: nat)
    requires Ascending(s) && RankFits(a, |s|)
    ensures s[a / 100] <= At(s, a) <= s[if a % 100 == 0 then a / 100 else a / 100 + 1]
  {
    if a % 100 != 0 {
      var (lo, hi, f) := (s[a / 100], s[a / 100 + 1], (a % 100) as real / 100.0);
      MixBetween(lo, hi, f);
    }
  }

  /** The percentile interpolates between the values at its two ranks. */
  lemma PercentileBetween(vs: seq<real>, pct: nat)
    requires vs != [] && pct <= 100
    ensures var r := RankOf(pct, |vs|);
            Percentile(vs, pct) == Between(Sort(vs), r) && Sort(vs)[r.low] <= Percentile(vs, pct)
  {
    var r := RankOf(pct, |vs|);
    SortExact(vs);
    BetweenAbove(Sort(vs), r);
    if |vs| == 1 {
      assert r.low == 0 && r.high == 0;
    }
  }

  lemma BetweenAbove(s: seq<real>, r: Rank)
    requires Ascending(s) && r.low <= r.high < |s| && 0.0 <= r.weight <= 1.0
    ensures s[r.low] <= Between(s, r)
  {
    if r.low != r.high {
      MixBetween(s[r.low], s[r.high], r.weight);
    }
  }

  lemma AtRises(s: seq<real>, a: nat, b: nat)
    requires Ascending(s) && a <= b && RankFits(a, |s|) && RankFits(b, |s|)
    ensures At(s, a) <= At(s, b)
  {
    AtBetween(s, a);
    AtBetween(s, b);
    if a / 100 < b / 100 {
      assert s[if a % 100 == 0 then a / 100 else a / 100 + 1] <= s[b / 100];
    } else if a % 100 != 0 {
      AtSameStep(s, a, b);
    }
  }

  lemma MixRises(lo: real, hi: real, f: real, g: real)
    requires lo <= hi && f <= g
    ensures lo + (hi - lo) * f <= lo + (hi - lo) * g
  {
    Scale(hi - lo, f, g);
  }

  lemma SameHundred(a: nat, b: nat)
    requires a <= b && a / 100 == b / 100
    ensures a % 100 <= b % 100
  {
  }

  lemma AtIs(s: seq<real>, a: nat, lo: real, hi: real)
    requires a / 100 + 1 < |s| && lo == s[a / 100] && hi == s[a / 100 + 1] && a % 100 != 0
    ensures At(s, a) == lo + (hi - lo) * ((a % 100) as real / 100.0)
  {
  }

  lemma AtSameStep(s: seq<real>, a: nat, b: nat)
    requires Ascending(s) && a <= b && a / 100 == b / 100 && a % 100 != 0 && a / 100 + 1 < |s|
    ensures At(s, a) <= At(s, b)
  {
    var (lo, hi) := (s[a / 100], s[a / 100 + 1]);
    SameHundred(a, b);
    MixRises(lo, hi, (a % 100) as real / 100.0, (b % 100) as real / 100.0);
    AtIs(s, a, lo, hi);
    AtIs(s, b, lo, hi);
  }

  lemma AtDominates(s: seq<real>, t: seq<real>, a: nat)
    requires Ascending(s) && Ascending(t) && |s| == |t| && RankFits(a, |s|)
    requires forall i :: 0 <= i < |s| ==> s[i] <= t[i]
    ensures At(s, a) <= At(t, a)
  {
    if a % 100 != 0 {
      var f := (a % 100) as real / 100.0;
      MixGrows(s[a / 100], s[a / 100 + 1], t[a / 100], t[a / 100 + 1], f);
    }
  }

  /** Percentiles are invariant under permutation of the samples. */
  lemma SortPermuted(vs: seq<real>, ws: seq<real>)
    requires multiset(vs) == multiset(ws)
    ensures Sort(vs) == Sort(ws)
  {
    SortExact(vs);
    SortExact(ws);
    AscendingUnique(Sort(vs), Sort(ws));
  }

  lemma {:induction false} SmallestExact(vs: seq<real>)
    requires vs != []
    ensures Smallest(vs) in vs && forall v :: v in vs ==> Smallest(vs) <= v
  {
    if |vs| > 1 {
      var init, last := vs[..|vs| - 1], vs[|vs| - 1];
      SmallestExact(init);
      assert vs == init + [last];
    }
  }

  lemma {:induction false} SortMembers(vs: seq<real>, v: real)
    ensures v in Sort(vs) <==> v in vs
  {
    SortExact(vs);
    assert v in Sort(vs) <==> v in multiset(Sort(vs));
    assert v in vs <==> v in multiset(vs);
  }

  /** The sorted sequence starts with the least value and ends with one no value exceeds. */
  lemma SortEnds(vs: seq<real>)
    requires vs != []
    ensures Sort(vs)[0] == Smallest(vs)
    ensures Sort(vs)[|vs| - 1] in vs && forall v :: v in vs ==> v <= Sort(vs)[|vs| - 1]
  {
    SortExact(vs);
    SmallestExact(vs);
    var s := Sort(vs);
    SortMembers(vs, s[0]);
    SortMembers(vs, s[|s| - 1]);
    SortMembers(vs, Smallest(vs));
    forall v | v in vs
      ensures v <= s[|s| - 1]
    {
      SortMembers(vs, v);
    }
  }

  /** The 0th percentile is the minimum, the 100th is the maximum, and each one lies between. */
  lemma PercentileEnds(vs: seq<real>, pct: nat)
    requires vs != [] && pct <= 100
    ensures Percentile(vs, 0) == Smallest(vs) <= Percentile(vs, pct) <= Percentile(vs, 100)
    ensures Percentile(vs, 100) in vs && forall v :: v in vs ==> v <= Percentile(vs, 100)
  {
    PercentileAt(vs, 0);
    PercentileAt(vs, 100);
    RepeatedProduct(|vs| - 1, 0);
    RepeatedProduct(|vs| - 1, 100);
    SortEnds(vs);
    PercentileRises(vs, 0, pct);
    PercentileRises(vs, pct, 100);
  }

  /** A higher percentile is no smaller. */
  lemma PercentileRises(vs: seq<real>, p: nat, q: nat)
    requires vs != [] && p <= q <= 100
    ensures Percentile(vs, p) <= Percentile(vs, q)
  {
    SortExact(vs);
    PercentileAt(vs, p);
    PercentileAt(vs, q);
    RepeatedUpTo(|vs| - 1, p, q);
    AtRises(Sort(vs), Hundredths(p, |vs|), Hundredths(q, |vs|));
  }

  lemma {:induction false} BelowDominated(vs: seq<real>, ws: seq<real>, x: real)
    requires |vs| == |ws| && forall i :: 0 <= i < |vs| ==> vs[i] <= ws[i]
    ensures Below(vs, x) >= Below(ws, x)
  {
    if vs != [] {
      BelowDominated(vs[..|vs| - 1], ws[..|ws| - 1], x);
    }
  }

  /** Raising samples lowers no percentile. */
  lemma PercentileMonotone(vs: seq<real>, ws: seq<real>, pct: nat)
    requires vs != [] && |vs| == |ws| && pct <= 100
    requires forall i :: 0 <= i < |vs| ==> vs[i] <= ws[i]
    ensures Percentile(vs, pct) <= Percentile(ws, pct)
  {
    SortExact(vs);
    SortExact(ws);
    var s, t := Sort(vs), Sort(ws);
    forall k | 0 <= k < |s|
      ensures s[k] <= t[k]
    {
      OrderStatistic(vs, k, s[k]);
      OrderStatistic(ws, k, s[k]);
      BelowDominated(vs, ws, s[k]);
    }
    PercentileAt(vs, pct);
    PercentileAt(ws, pct);
    AtDominates(s, t, Hundredths(pct, |vs|));
  }

  /** When the percentile reaches `w`, no more values are below `w` than its rank, rounded up. */
  lemma PercentileTail(vs: seq<real>, pct: nat, w: real)
    requires vs != [] && pct <= 100 && Percentile(vs, pct) >= w
    ensures |vs| - Below(vs, w) >= |vs| - (Hundredths(pct, |vs|) + 99) / 100
  {
    TailInHundredths(vs, pct, w);
    RoundedUp(Hundredths(pct, |vs|));
  }

  lemma RoundedUp(a: nat)
    ensures (a + 99) / 100 == if a % 100 == 0 then a / 100 else a / 100 + 1
  {
  }

  lemma TailInHundredths(vs: seq<real>, pct: nat, w: real)
    requires vs != [] && pct <= 100 && Percentile(vs, pct) >= w
    ensures var a := Hundredths(pct, |vs|); Below(vs, w) <= if a % 100 == 0 then a / 100 else a / 100 + 1
  {
    var a := Hundredths(pct, |vs|);
    SortExact(vs);
    PercentileAt(vs, pct);
    AtBetween(Sort(vs), a);
    OrderStatistic(vs, if a % 100 == 0 then a / 100 else a / 100 + 1, w);
  }

  // --- one value for a window ------------------------------------------------

  /** The reduction of a window; none when no sample carried the signal. */
  function Reduce(vs: seq<real>, agg: Agg): Option<real>
    requires agg.Pct? ==> agg.nn <= 100
  {
    if vs == [] then None
    else
      match agg
      case Avg => Some(Average(vs))
      case Least => Some(Smallest(vs))
      case Pct(nn) => Some(Percentile(vs, nn))
  }

  lemma {:induction false} SumInsert(vs: seq<real>, x: real)
    ensures Sum(Insert(vs, x)) == Sum(vs) + x
  {
    if vs == [] || vs[|vs| - 1] <= x {
      assert (vs + [x])[..|vs|] == vs;
    } else {
      SumInsert(vs[..|vs| - 1], x);
      var r := Insert(vs[..|vs| - 1], x);
      assert (r + [vs[|vs| - 1]])[..|r|] == r;
    }
  }

  lemma {:induction false} SumSort(vs: seq<real>)
    ensures Sum(Sort(vs)) == Sum(vs)
  {
    if vs != [] {
      SumSort(vs[..|vs| - 1]);
      SumInsert(Sort(vs[..|vs| - 1]), vs[|vs| - 1]);
    }
  }

  /** Every reduction depends on the samples only, not on their order. */
  lemma ReducePermuted(vs: seq<real>, ws: seq<real>, agg: Agg)
    requires multiset(vs) == multiset(ws) && (agg.Pct? ==> agg.nn <= 100)
    ensures Reduce(vs, agg) == Reduce(ws, agg)
  {
    assert |vs| == |multiset(vs)| == |ws|;
    SortPermuted(vs, ws);
    SumSort(vs);
    SumSort(ws);
    if vs != [] {
      SortEnds(vs);
      SortEnds(ws);
      AverageExact(vs);
      AverageExact(ws);
    }
  }

  /** `v` is interpolated linearly between the values of `s` around rank `rank`. */
  ghost predicate Interpolates(s: seq<real>, rank: real, v: real) {
    && 0 <= rank.Floor < |s|
    && if rank == rank.Floor as real then v == s[rank.Floor]
       else rank.Floor + 1 < |s| &&
            v == s[rank.Floor] + (s[rank.Floor + 1] - s[rank.Floor]) * (rank - rank.Floor as real)
  }

  /** The rank in hundredths, taken apart. */
  lemma RankParts(nn: nat, n: nat) returns (rank: real)
    requires nn <= 100 && n > 0
    ensures rank == nn as real / 100.0 * (n - 1) as real
    ensures var a := Hundredths(nn, n); rank.Floor == a / 100 && rank - rank.Floor as real == (a % 100) as real / 100.0
  {
    rank := nn as real / 100.0 * (n - 1) as real;
    RankExact(nn, n);
  }

  lemma PercentileExact(vs: seq<real>, nn: nat) returns (rank: real)
    requires vs != [] && nn <= 100
    ensures rank == nn as real / 100.0 * (|vs| - 1) as real && Interpolates(Sort(vs), rank, Percentile(vs, nn))
  {
    rank := RankParts(nn, |vs|);
    PercentileAt(vs, nn);
    AtInterpolates(Sort(vs), Hundredths(nn, |vs|), rank);
  }

  lemma AtInterpolates(s: seq<real>, a: nat, rank: real)
    requires RankFits(a, |s|) && rank.Floor == a / 100 && rank - rank.Floor as real == (a % 100) as real / 100.0
    ensures Interpolates(s, rank, At(s, a))
  {
  }

  /** `v` is the percentile of `vs`: interpolated among its values in ascending order. */
  ghost predicate IsPercentile(vs: seq<real>, nn: nat, v: real) {
    exists s :: Ascending(s) && multiset(s) == multiset(vs) &&
                Interpolates(s, nn as real / 100.0 * (|vs| - 1) as real, v)
  }

  lemma PercentileIs(vs: seq<real>, nn: nat)
    requires vs != [] && nn <= 100
    ensures IsPercentile(vs, nn, Percentile(vs, nn))
  {
    var rank := PercentileExact(vs, nn);
    SortExact(vs);
  }

  /** What each reduction is: no value for no samples, the sum over the number, the least sample, or the value
      interpolated at the percentage of the steps between the samples in ascending order. */
  lemma ReduceExact(vs: seq<real>, agg: Agg)
    requires agg.Pct? ==> agg.nn <= 100
    ensures Reduce(vs, agg).None? <==> vs == []
    ensures vs != [] ==>
              var v := Reduce(vs, agg).value;
              match agg
              case Avg => v == Sum(vs) / |vs| as real
              case Least => v in vs && forall x :: x in vs ==> v <= x
              case Pct(nn) => IsPercentile(vs, nn, v)
  {
    if vs != [] {
      match agg
      case Avg => AverageExact(vs);
      case Least => SmallestExact(vs);
      case Pct(nn) => PercentileIs(vs, nn);
    }
  }
}
