/** How the fleet value and the connectors' own values of one window are related: when the mean trigger
    implies the any trigger, and how few connectors can be hot when the fleet scales down. */
module Triggers {
  import opened Basics
  import opened Policies
  import opened Decider
  import opened Reductions
  import opened Aggregators

  /** The four reductions the scale decision reads. */
  function LoadOf(p: Policy, b: Buffers, order: seq<Id>, now: int): Load
    requires p.Valid()
  {
    Load(FleetValue(b, order, Cpu, now - p.cpu.window, p.cpu.agg),
         FleetValue(b, order, Throughput, now - p.throughput.window, p.throughput.agg),
         OwnValues(b, Elements(order), Cpu, now - p.cpu.window, p.cpu.agg),
         OwnValues(b, Elements(order), Throughput, now - p.throughput.window, p.throughput.agg))
  }

  /** Every connector with samples in the window has a value of its own below `w`. */
  ghost predicate AllBelow(b: Buffers, order: seq<Id>, signal: Signal, cutoff: int, agg: Agg, w: real)
    requires agg.Pct? ==> agg.nn <= 100
  {
    forall id :: id in order && Own(b, id, signal, cutoff) != [] ==> Reduce(Own(b, id, signal, cutoff), agg).value < w
  }

  // --- means ---------------------------------------------------------------------

  lemma {:induction false} SumConcat(a: seq<real>, b: seq<real>)
    ensures Sum(a + b) == Sum(a) + Sum(b)
  {
    if b == [] {
      assert a + b == a;
    } else {
      assert (a + b)[..|a + b| - 1] == a + b[..|b| - 1];
      SumConcat(a, b[..|b| - 1]);
    }
  }

  /** `w` added up `n` times. */
  function Times(n: nat, w: real): real { if n == 0 then 0.0 else Times(n - 1, w) + w }

  lemma {:induction false} TimesProduct(n: nat, w: real)
    ensures Times(n, w) == n as real * w
  {
    if n > 0 {
      TimesProduct(n - 1, w);
      Distribute(w, (n - 1) as real);
    }
  }

  lemma {:induction false} TimesAdd(m: nat, n: nat, w: real)
    ensures Times(m + n, w) == Times(m, w) + Times(n, w)
  {
    if n > 0 {
      TimesAdd(m, n - 1, w);
    }
  }

  lemma MeanBelow(vs: seq<real>, w: real)
    requires vs != []
    ensures Reduce(vs, Avg).value < w <==> Sum(vs) < Times(|vs|, w)
    ensures Reduce(vs, Avg).value <= w <==> Sum(vs) <= Times(|vs|, w)
  {
    var (n, m) := (|vs| as real, Average(vs));
    AverageExact(vs);
    TimesProduct(|vs|, w);
    assert Sum(vs) == n * m;
    if m < w {
      Strictly(m, w, n);
    } else if m > w {
      Strictly(w, m, n);
    }
  }

  lemma Strictly(x: real, y: real, n: real)
    requires x < y && n > 0.0
    ensures n * x < n * y
  {
    Positive(y - x, n);
    assert n * (y - x) == n * y - n * x;
  }

  lemma Positive(x: real, y: real)
    requires x > 0.0 && y > 0.0
    ensures y * x > 0.0
  {
  }

  /** As often as there are samples, the mean. */
  function Mass(own: seq<real>): real { if own == [] then 0.0 else |own| as real * Average(own) }

  lemma MassIsSum(own: seq<real>)
    ensures Mass(own) == Sum(own)
  {
    if own != [] {
      AverageExact(own);
    }
  }

  /** The connectors' own means added up, each as often as the connector has samples. */
  function WeightedMeans(b: Buffers, order: seq<Id>, cutoff: int): real {
    if order == [] then 0.0
    else WeightedMeans(b, order[..|order| - 1], cutoff) + Mass(Own(b, order[|order| - 1], Cpu, cutoff))
  }

  function SampleCount(b: Buffers, order: seq<Id>, cutoff: int): nat {
    if order == [] then 0
    else SampleCount(b, order[..|order| - 1], cutoff) + |Own(b, order[|order| - 1], Cpu, cutoff)|
  }

  lemma {:induction false} PoolTotal(b: Buffers, order: seq<Id>, cutoff: int)
    ensures var pool := Parts(b, order, Cpu, cutoff, Avg);
            Sum(pool) == WeightedMeans(b, order, cutoff) && |pool| == SampleCount(b, order, cutoff)
  {
    if order != [] {
      var init, own := order[..|order| - 1], Own(b, order[|order| - 1], Cpu, cutoff);
      PoolTotal(b, init, cutoff);
      SumConcat(Parts(b, init, Cpu, cutoff, Avg), own);
      MassIsSum(own);
    }
  }

  /** The fleet mean is the mean of the connectors' own means, weighted by their samples. */
  lemma PooledMean(b: Buffers, order: seq<Id>, cutoff: int)
    ensures var n := SampleCount(b, order, cutoff);
            FleetValue(b, order, Cpu, cutoff, Avg) ==
            if n == 0 then None else Some(WeightedMeans(b, order, cutoff) / n as real)
  {
    var pool := Parts(b, order, Cpu, cutoff, Avg);
    PoolTotal(b, order, cutoff);
    if pool != [] {
      AverageExact(pool);
    }
  }

  /** The rates of the listed connectors that report one, added up. */
  function TotalRate(rates: map<Id, real>, order: seq<Id>): real {
    if order == [] then 0.0
    else
      var id := order[|order| - 1];
      TotalRate(rates, order[..|order| - 1]) + if id in rates then rates[id] else 0.0
  }

  /** The listed connectors that report a rate. */
  function Reporters(rates: map<Id, real>, order: seq<Id>): set<Id> { set id | id in order && id in rates }

  lemma ReportersMore(rates: map<Id, real>, init: seq<Id>, last: Id)
    requires last !in init
    ensures |Reporters(rates, init + [last])| == |Reporters(rates, init)| + if last in rates then 1 else 0
  {
    if last in rates {
      assert Reporters(rates, init + [last]) == Reporters(rates, init) + {last};
    } else {
      assert Reporters(rates, init + [last]) == Reporters(rates, init);
    }
  }

  /** What one connector adds to the throughput mean is its own rate, if it has one. */
  lemma RatePart(b: Buffers, ids: set<Id>, id: Id, cutoff: int, agg: Agg)
    requires id in ids && (agg.Pct? ==> agg.nn <= 100)
    ensures var rates := OwnValues(b, ids, Throughput, cutoff, agg);
            Part(b, id, Throughput, cutoff, agg) == if id in rates then [rates[id]] else []
  {
  }

  /** What each listed connector adds is its rate, if it has one. */
  ghost predicate RateParts(b: Buffers, order: seq<Id>, cutoff: int, agg: Agg, rates: map<Id, real>)
    requires agg.Pct? ==> agg.nn <= 100
  {
    order != [] ==>
      var last := order[|order| - 1];
      && RateParts(b, order[..|order| - 1], cutoff, agg, rates)
      && Part(b, last, Throughput, cutoff, agg) == if last in rates then [rates[last]] else []
  }

  lemma {:induction false} AllRateParts(b: Buffers, ids: set<Id>, order: seq<Id>, cutoff: int, agg: Agg)
    requires Elements(order) <= ids && (agg.Pct? ==> agg.nn <= 100)
    ensures RateParts(b, order, cutoff, agg, OwnValues(b, ids, Throughput, cutoff, agg))
  {
    if order != [] {
      var init, last := order[..|order| - 1], order[|order| - 1];
      assert last in Elements(order);
      assert Elements(init) <= Elements(order);
      AllRateParts(b, ids, init, cutoff, agg);
      RatePart(b, ids, last, cutoff, agg);
    }
  }

  /** The rates gathered from the listed connectors are those that are reported. */
  ghost predicate Gathers(parts: seq<real>, rates: map<Id, real>, order: seq<Id>) {
    Sum(parts) == TotalRate(rates, order) && |parts| == |Reporters(rates, order)|
  }

  lemma OneMoreRate(parts: seq<real>, rates: map<Id, real>, init: seq<Id>, last: Id)
    requires Gathers(parts, rates, init) && last !in init
    ensures Gathers(parts + if last in rates then [rates[last]] else [], rates, init + [last])
  {
    ReportersMore(rates, init, last);
    PartTotal(parts, if last in rates then [rates[last]] else []);
    assert (init + [last])[..|init|] == init;
  }

  lemma GatherLast(b: Buffers, init: seq<Id>, last: Id, cutoff: int, agg: Agg, rates: map<Id, real>)
    requires (agg.Pct? ==> agg.nn <= 100) && last !in init
    requires Part(b, last, Throughput, cutoff, agg) == if last in rates then [rates[last]] else []
    requires Gathers(Parts(b, init, Throughput, cutoff, agg), rates, init)
    ensures Gathers(Parts(b, init + [last], Throughput, cutoff, agg), rates, init + [last])
  {
    OneMoreRate(Parts(b, init, Throughput, cutoff, agg), rates, init, last);
    PartsAppend(b, init, last, Throughput, cutoff, agg);
  }

  lemma {:induction false} PartsTotal(b: Buffers, order: seq<Id>, cutoff: int, agg: Agg, rates: map<Id, real>)
    requires Distinct(order) && (agg.Pct? ==> agg.nn <= 100) && RateParts(b, order, cutoff, agg, rates)
    ensures Gathers(Parts(b, order, Throughput, cutoff, agg), rates, order)
  {
    if order == [] {
      assert Reporters(rates, order) == {};
    } else {
      var init, last := order[..|order| - 1], order[|order| - 1];
      PartsTotal(b, init, cutoff, agg, rates);
      assert order == init + [last] && last !in init;
      GatherLast(b, init, last, cutoff, agg, rates);
    }
  }

  lemma PartTotal(parts: seq<real>, part: seq<real>)
    requires |part| <= 1
    ensures Sum(parts + part) == Sum(parts) + if part == [] then 0.0 else part[0]
  {
    SumConcat(parts, part);
    if part != [] {
      assert part[..0] == [];
    }
  }

  /** The fleet throughput is the mean of the connectors' own rates over those that report one. */
  lemma MeanRate(b: Buffers, order: seq<Id>, cutoff: int, agg: Agg)
    requires Distinct(order) && (agg.Pct? ==> agg.nn <= 100)
    ensures var rates := OwnValues(b, Elements(order), Throughput, cutoff, agg);
            FleetValue(b, order, Throughput, cutoff, agg) ==
            if rates == map[] then None else Some(TotalRate(rates, order) / |rates| as real)
  {
    var (parts, rates) := (Parts(b, order, Throughput, cutoff, agg),
                           OwnValues(b, Elements(order), Throughput, cutoff, agg));
    AllRateParts(b, Elements(order), order, cutoff, agg);
    PartsTotal(b, order, cutoff, agg, rates);
    assert Reporters(rates, order) == rates.Keys;
    if parts != [] {
      AverageExact(parts);
    }
  }

  /** A pool whose parts all average below `w` averages below `w`. */
  lemma {:induction false} PoolBelow(b: Buffers, order: seq<Id>, cutoff: int, w: real)
    requires AllBelow(b, order, Cpu, cutoff, Avg, w)
    ensures var pool := Parts(b, order, Cpu, cutoff, Avg); TotalBelow(pool, w)
  {
    if order != [] {
      var init, own := order[..|order| - 1], Own(b, order[|order| - 1], Cpu, cutoff);
      PoolBelow(b, init, cutoff, w);
      if own != [] {
        assert order[|order| - 1] in order;
        MeanBelow(own, w);
      }
      TotalConcat(Parts(b, init, Cpu, cutoff, Avg), own, w);
    }
  }

  /** The mean of `vs` is below `w`, if it has one. */
  ghost predicate TotalBelow(vs: seq<real>, w: real) {
    if vs == [] then Sum(vs) == Times(|vs|, w) else Sum(vs) < Times(|vs|, w)
  }

  lemma TotalConcat(one: seq<real>, two: seq<real>, w: real)
    requires TotalBelow(one, w) && TotalBelow(two, w)
    ensures TotalBelow(one + two, w)
  {
    SumConcat(one, two);
    TimesAdd(|one|, |two|, w);
  }

  lemma {:induction false} SumBelow(vs: seq<real>, w: real)
    requires forall i :: 0 <= i < |vs| ==> vs[i] < w
    ensures TotalBelow(vs, w)
  {
    if vs != [] {
      SumBelow(vs[..|vs| - 1], w);
      TimesAdd(|vs| - 1, 1, w);
      assert Times(1, w) == w;
    }
  }

  // --- members of the pool ---------------------------------------------------------

  lemma {:induction false} PartOf(b: Buffers, order: seq<Id>, signal: Signal, cutoff: int, agg: Agg, v: real)
    returns (id: Id)
    requires (agg.Pct? ==> agg.nn <= 100) && v in Parts(b, order, signal, cutoff, agg)
    ensures id in order && v in Part(b, id, signal, cutoff, agg)
  {
    var last := order[|order| - 1];
    if v in Part(b, last, signal, cutoff, agg) {
      id := last;
    } else {
      id := PartOf(b, order[..|order| - 1], signal, cutoff, agg, v);
    }
  }

  lemma {:induction false} InParts(b: Buffers, order: seq<Id>, signal: Signal, cutoff: int, agg: Agg, id: Id, v: real)
    requires (agg.Pct? ==> agg.nn <= 100) && id in order && v in Part(b, id, signal, cutoff, agg)
    ensures v in Parts(b, order, signal, cutoff, agg)
  {
    if id != order[|order| - 1] {
      InParts(b, order[..|order| - 1], signal, cutoff, agg, id, v);
    }
  }

  lemma PooledLeast(b: Buffers, order: seq<Id>, cutoff: int, agg: Agg, w: real)
    requires (agg == Agg.Least || agg == Pct(0)) && AllBelow(b, order, Cpu, cutoff, agg, w)
    requires Parts(b, order, Cpu, cutoff, agg) != []
    ensures Smallest(Parts(b, order, Cpu, cutoff, agg)) < w
  {
    var pool := Parts(b, order, Cpu, cutoff, agg);
    var id := PartOf(b, order, Cpu, cutoff, agg, pool[0]);
    var own := Own(b, id, Cpu, cutoff);
    PercentileEnds(own, 0);
    SmallestExact(own);
    InParts(b, order, Cpu, cutoff, agg, id, Smallest(own));
    SmallestExact(pool);
  }

  // --- percentiles of a pool -----------------------------------------------------------

  /** The percentile's rank moves by one for every `d` samples. */
  ghost predicate Divides(nn: nat, d: nat) { nn * d == 100 }

  /** The ranks when `q` whole steps of `d` samples and `r` more come before the last of `n`. */
  lemma RankInSteps(nn: nat, d: nat, n: nat, q: nat, r: nat)
    requires Divides(nn, d) && nn <= 100 && n - 1 == d * q + r && r < d
    ensures RankOf(nn, n) == Rank(q, if r == 0 then q else q + 1, r as real / d as real)
  {
    var s := HundredthsInSteps(nn, d, n, q, r);
    RankFrom(nn, n, q, s);
  }

  lemma HundredthsInSteps(nn: nat, d: nat, n: nat, q: nat, r: nat) returns (s: nat)
    requires Divides(nn, d) && nn <= 100 && n - 1 == d * q + r && r < d
    ensures Hundredths(nn, n) == 100 * q + s && s < 100 && (s == 0 <==> r == 0)
    ensures s as real / 100.0 == r as real / d as real
  {
    s := nn * r;
    DivisorBounds(nn, d);
    Steps(nn, d, q, r, n - 1);
    Share(nn, d, r);
    RepeatedProduct(n - 1, nn);
  }

  lemma RankFrom(nn: nat, n: nat, q: nat, s: nat)
    requires nn <= 100 && n > 0 && Hundredths(nn, n) == 100 * q + s && s < 100
    ensures RankOf(nn, n) == Rank(q, if s == 0 then q else q + 1, s as real / 100.0)
  {
    assert Hundredths(nn, n) / 100 == q && Hundredths(nn, n) % 100 == s;
  }

  lemma DivisorBounds(nn: nat, d: nat)
    requires Divides(nn, d)
    ensures 0 < d <= 100 && 0 < nn <= 100
  {
    ProductCovers(nn, d);
  }

  lemma ProductCovers(x: nat, y: nat)
    ensures x * y == 0 || (x > 0 && y > 0 && x * y >= x && x * y >= y)
  {
  }

  lemma Steps(nn: nat, d: nat, q: nat, r: nat, m: nat)
    requires Divides(nn, d) && m == d * q + r
    ensures nn * m == 100 * q + nn * r
  {
    assert nn * m == nn * (d * q) + nn * r;
    assert nn * (d * q) == nn * d * q;
  }

  lemma Share(nn: nat, d: nat, r: nat)
    requires Divides(nn, d) && r < d && 0 < nn
    ensures nn * r < 100 && (nn * r == 0 <==> r == 0)
    ensures (nn * r) as real / 100.0 == r as real / d as real
  {
    ProductCovers(nn, d - r);
    assert nn * (d - r) == nn * d - nn * r;
    ProductCovers(nn, r);
    assert (nn * r) * d == (nn * d) * r;
    ShareRatio(nn * r, d, r);
  }

  lemma ShareRatio(x: nat, d: nat, r: nat)
    requires d > 0 && x * d == 100 * r
    ensures x as real / 100.0 == r as real / d as real
  {
    CastProduct(x, d);
    SameRatio(x as real, r as real, d as real);
  }

  lemma SameRatio(x: real, r: real, d: real)
    requires d > 0.0 && x * d == 100.0 * r
    ensures x / 100.0 == r / d
  {
    var y := r / d;
    assert y * d == r;
    assert x * d == 100.0 * (y * d) == (100.0 * y) * d;
    assert (x - 100.0 * y) * d == 0.0;
  }

  /** The value `r` parts of `d` on from the `q`-th smallest. */
  function Mixed(s: seq<real>, q: nat, r: nat, d: nat): real
    requires q < |s| && (r > 0 ==> q + 1 < |s|) && d > 0
  {
    if r == 0 then s[q] else s[q] + (s[q + 1] - s[q]) * (r as real / d as real)
  }

  lemma RanksFit(d: nat, n: nat, q: nat, r: nat)
    requires d > 0 && n - 1 == d * q + r
    ensures q < n && (r > 0 ==> q + 1 < n)
  {
    ProductCovers(d, q);
  }

  lemma BetweenSteps(vs: seq<real>, nn: nat, d: nat, q: nat, r: nat) returns (k: Rank)
    requires Divides(nn, d) && nn <= 100 && d > 0 && |vs| - 1 == d * q + r && r < d
    ensures k == Rank(q, if r == 0 then q else q + 1, r as real / d as real) && k.high < |vs|
    ensures Percentile(vs, nn) == Between(Sort(vs), k) && Sort(vs)[q] <= Percentile(vs, nn)
  {
    k := RankOf(nn, |vs|);
    RankInSteps(nn, d, |vs|, q, r);
    PercentileBetween(vs, nn);
  }

  lemma PercentileInSteps(vs: seq<real>, nn: nat, d: nat, q: nat, r: nat)
    requires Divides(nn, d) && nn <= 100 && d > 0 && |vs| - 1 == d * q + r && r < d
    ensures q < |vs| && (r > 0 ==> q + 1 < |vs|)
    ensures Percentile(vs, nn) == Mixed(Sort(vs), q, r, d) && Sort(vs)[q] <= Percentile(vs, nn)
  {
    RanksFit(d, |vs|, q, r);
    var k := BetweenSteps(vs, nn, d, q, r);
    MixedIs(Sort(vs), k, q, r, d);
  }

  lemma MixedIs(s: seq<real>, k: Rank, q: nat, r: nat, d: nat)
    requires d > 0 && k == Rank(q, if r == 0 then q else q + 1, r as real / d as real) && k.high < |s|
    ensures Between(s, k) == Mixed(s, q, r, d)
  {
  }

  lemma Quotient(n: nat, d: nat) returns (q: nat, r: nat)
    requires n > 0 && d > 0
    ensures n - 1 == d * q + r && r < d
  {
    q, r := (n - 1) / d, (n - 1) % d;
  }

  /** How far the samples below `w`, times `d`, exceed all samples. */
  function Excess(vs: seq<real>, d: nat, w: real): int { d * Below(vs, w) - |vs| }

  lemma ExcessConcat(one: seq<real>, two: seq<real>, d: nat, w: real)
    ensures Excess(one + two, d, w) == Excess(one, d, w) + Excess(two, d, w)
  {
    BelowConcat(one, two, w);
    assert d * (Below(one, w) + Below(two, w)) == d * Below(one, w) + d * Below(two, w);
  }

  /** More than `q` steps are enough to cover `q` steps and a part of one more, and no fewer are. */
  lemma StepsCover(d: nat, q: int, r: int, k: int)
    requires 0 <= r < d
    ensures k > q <==> d * k >= d * q + r + 1
  {
    MultiplesApart(d, q, k);
    MultiplesApart(d, k, q);
  }

  /** A percentile below `w` puts at least one sample in every `d`, rounded up, below `w`. */
  lemma OwnExcess(vs: seq<real>, nn: nat, d: nat, w: real)
    requires Divides(nn, d) && vs != [] && nn <= 100 && Percentile(vs, nn) < w
    ensures Excess(vs, d, w) >= 0
  {
    DivisorBounds(nn, d);
    var q, r := Quotient(|vs|, d);
    PercentileInSteps(vs, nn, d, q, r);
    OrderStatistic(vs, q, w);
    StepsCover(d, q, r, Below(vs, w));
  }

  /** Each part's excess, and that of the whole, is at least nothing, and no part's is more than the whole's. */
  ghost predicate ExcessShared(b: Buffers, order: seq<Id>, cutoff: int, pool: seq<real>, d: nat, w: real) {
    && Excess(pool, d, w) >= 0
    && forall id :: id in order ==> 0 <= Excess(Own(b, id, Cpu, cutoff), d, w) <= Excess(pool, d, w)
  }

  lemma ExcessGrows(b: Buffers, order: seq<Id>, id: Id, cutoff: int, pool: seq<real>, d: nat, w: real)
    requires ExcessShared(b, order, cutoff, pool, d, w) && Excess(Own(b, id, Cpu, cutoff), d, w) >= 0
    ensures ExcessShared(b, order + [id], cutoff, pool + Own(b, id, Cpu, cutoff), d, w)
  {
    ExcessConcat(pool, Own(b, id, Cpu, cutoff), d, w);
  }

  lemma {:induction false} PoolExcess(b: Buffers, order: seq<Id>, cutoff: int, nn: nat, d: nat, w: real)
    requires Divides(nn, d) && nn <= 100 && AllBelow(b, order, Cpu, cutoff, Pct(nn), w)
    ensures ExcessShared(b, order, cutoff, Parts(b, order, Cpu, cutoff, Pct(nn)), d, w)
  {
    if order != [] {
      var init, last := order[..|order| - 1], order[|order| - 1];
      assert last in order && order == init + [last];
      PoolExcess(b, init, cutoff, nn, d, w);
      if Own(b, last, Cpu, cutoff) != [] {
        OwnExcess(Own(b, last, Cpu, cutoff), nn, d, w);
      }
      ExcessGrows(b, init, last, cutoff, Parts(b, init, Cpu, cutoff, Pct(nn)), d, w);
    }
  }

  /** Around `w`, the sorted samples split at the number below it. */
  lemma Split(vs: seq<real>, w: real, v: real)
    requires v in vs
    ensures var k := Below(vs, w);
            && k <= |vs|
            && (v < w ==> k > 0 && v <= Sort(vs)[k - 1] < w)
            && (v >= w ==> k < |vs| && v >= Sort(vs)[k] >= w)
  {
    var k := Below(vs, w);
    BelowAtMost(vs, w);
    SortExact(vs);
    SortMembers(vs, v);
    var j :| 0 <= j < |vs| && Sort(vs)[j] == v;
    OrderStatistic(vs, j, w);
    if v < w {
      OrderStatistic(vs, k - 1, w);
      assert Sort(vs)[j] <= Sort(vs)[k - 1];
    } else {
      OrderStatistic(vs, k, w);
      assert Sort(vs)[k] <= Sort(vs)[j];
    }
  }

  lemma MixBelow(lo: real, hi: real, f: real, w: real)
    requires lo < w && hi < w && 0.0 <= f <= 1.0
    ensures lo + (hi - lo) * f < w
  {
    var m := if lo <= hi then hi else lo;
    MixGrows(lo, hi, m, m, f);
  }

  /** Enough samples below `w` keep the percentile below it. */
  lemma LowRanks(vs: seq<real>, nn: nat, d: nat, q: nat, r: nat, w: real)
    requires Divides(nn, d) && nn <= 100 && d > 0 && |vs| - 1 == d * q + r && r < d
    requires Below(vs, w) > if r == 0 then q else q + 1
    ensures Percentile(vs, nn) < w
  {
    PercentileInSteps(vs, nn, d, q, r);
    OrderStatistic(vs, q, w);
    if r > 0 {
      OrderStatistic(vs, q + 1, w);
    }
    MixedBelow(Sort(vs), q, r, d, w);
  }

  lemma MixedBelow(s: seq<real>, q: nat, r: nat, d: nat, w: real)
    requires q < |s| && r < d && s[q] < w && (r > 0 ==> q + 1 < |s| && s[q + 1] < w)
    ensures Mixed(s, q, r, d) < w
  {
    if r > 0 {
      Fractions(r, r, d);
      MixBelow(s[q], s[q + 1], r as real / d as real, w);
    }
  }

  lemma ExcessCovers(vs: seq<real>, d: nat, w: real, q: nat, r: nat)
    requires Excess(vs, d, w) >= 0 && |vs| - 1 == d * q + r && r < d
    ensures Below(vs, w) > q
  {
    StepsCover(d, q, r, Below(vs, w));
  }

  /** The rank of a connector no further ahead than the pool. */
  lemma OwnSteps(pool: seq<real>, own: seq<real>, d: nat, w: real, q: nat, r: nat) returns (q': nat, r': nat)
    requires own != [] && |pool| - 1 == d * q + r && 0 < r < d
    requires 0 <= Excess(own, d, w) <= Excess(pool, d, w) && Below(pool, w) == q + 1
    ensures |own| - 1 == d * q' + r' && r <= r' < d && q' + 1 < |own| && Below(own, w) == q' + 1
  {
    var k := Below(own, w) - 1;
    OwnRank(d, |pool|, q, r, |own|, k, |own| - 1 - d * k);
    q', r' := k, |own| - 1 - d * k;
  }

  /** A connector that holds the pool's largest sample below `w`, and is no more than the pool ahead of its
      share below `w`, has a percentile at least as high as the pool's. */
  lemma TightPart(pool: seq<real>, own: seq<real>, nn: nat, d: nat, w: real, q: nat, r: nat)
    requires Divides(nn, d) && nn <= 100 && own != []
    requires |pool| - 1 == d * q + r && 0 < r < d && q + 1 < |pool|
    requires 0 <= Excess(own, d, w) <= Excess(pool, d, w) && Below(pool, w) == q + 1
    requires (forall v :: v in own ==> v in pool) && Sort(pool)[q] in own
    ensures Percentile(own, nn) >= Percentile(pool, nn)
  {
    var q', r' := OwnSteps(pool, own, d, w, q, r);
    PercentileInSteps(pool, nn, d, q, r);
    PercentileInSteps(own, nn, d, q', r');
    LastBelow(pool, own, w);
    SortExact(pool);
    MixedGrows(Sort(pool), q, r, Sort(own), q', r', d);
  }

  lemma MixedGrows(s: seq<real>, q: nat, r: nat, t: seq<real>, q': nat, r': nat, d: nat)
    requires 0 < r <= r' < d && q + 1 < |s| && q' + 1 < |t|
    requires s[q] == t[q'] && s[q] <= s[q + 1] <= t[q' + 1]
    ensures Mixed(s, q, r, d) <= Mixed(t, q', r', d)
  {
    PartMix(s[q], s[q + 1], t[q' + 1], r, r', d);
  }

  lemma PartMix(lo: real, hi: real, hi': real, r: nat, r': nat, d: nat)
    requires 0 < d && r <= r' < d && lo <= hi <= hi'
    ensures lo + (hi - lo) * (r as real / d as real) <= lo + (hi' - lo) * (r' as real / d as real)
  {
    var (f, f') := (r as real / d as real, r' as real / d as real);
    Fractions(r, r', d);
    Scale(hi' - lo, f, f');
    MixGrows(lo, hi, lo, hi', f);
  }

  lemma Fractions(r: nat, r': nat, d: nat)
    requires 0 < d && r <= r' < d
    ensures 0.0 <= r as real / d as real <= r' as real / d as real <= 1.0
  {
  }

  /** The rank of a connector no further ahead than the pool. */
  lemma OwnRank(d: nat, n: nat, q: nat, r: nat, n': nat, q': int, r': int)
    requires n - 1 == d * q + r && 0 < r < d && n' > 0 && n' - 1 == d * q' + r'
    requires 0 <= d * (q' + 1) - n' <= d * (q + 1) - n
    ensures q' >= 0 && r <= r' < d && q' + 1 < n'
  {
    assert d * (q' + 1) == d * q' + d && d * (q + 1) == d * q + d;
    MultiplesApart(d, q', 0);
    ProductCovers(d, if q' >= 0 then q' else 0);
  }

  /** Their largest samples below `w` agree, and the pool's next sample is no larger. */
  lemma LastBelow(pool: seq<real>, own: seq<real>, w: real)
    requires (forall v :: v in own ==> v in pool)
    requires 0 < Below(pool, w) < |pool| && 0 < Below(own, w) < |own| && Sort(pool)[Below(pool, w) - 1] in own
    ensures Sort(own)[Below(own, w) - 1] == Sort(pool)[Below(pool, w) - 1]
    ensures Sort(own)[Below(own, w)] >= Sort(pool)[Below(pool, w)]
  {
    var (k, k') := (Below(pool, w), Below(own, w));
    OrderStatistic(pool, k - 1, w);
    OrderStatistic(own, k' - 1, w);
    OrderStatistic(own, k', w);
    Split(own, w, Sort(pool)[k - 1]);
    SortMembers(own, Sort(own)[k' - 1]);
    Split(pool, w, Sort(own)[k' - 1]);
    SortMembers(own, Sort(own)[k']);
    Split(pool, w, Sort(own)[k']);
  }

  lemma TightConnector(b: Buffers, order: seq<Id>, cutoff: int, nn: nat, d: nat, w: real, q: nat, r: nat)
    requires Divides(nn, d) && nn <= 100 && AllBelow(b, order, Cpu, cutoff, Pct(nn), w)
    requires var pool := Parts(b, order, Cpu, cutoff, Pct(nn));
             |pool| - 1 == d * q + r && 0 < r < d && q + 1 < |pool| && Below(pool, w) == q + 1
    ensures Percentile(Parts(b, order, Cpu, cutoff, Pct(nn)), nn) < w
  {
    var pool := Parts(b, order, Cpu, cutoff, Pct(nn));
    SortMembers(pool, Sort(pool)[q]);
    var id := PartOf(b, order, Cpu, cutoff, Pct(nn), Sort(pool)[q]);
    var own := Own(b, id, Cpu, cutoff);
    forall v | v in own
      ensures v in pool
    {
      InParts(b, order, Cpu, cutoff, Pct(nn), id, v);
    }
    PoolExcess(b, order, cutoff, nn, d, w);
    TightPart(pool, own, nn, d, w, q, r);
  }

  /** When the percentile divides a hundred evenly, a pool whose connectors are all below `w` is below it. */
  lemma PooledPercentile(b: Buffers, order: seq<Id>, cutoff: int, nn: nat, d: nat, w: real)
    requires Divides(nn, d) && nn <= 100 && AllBelow(b, order, Cpu, cutoff, Pct(nn), w)
    requires Parts(b, order, Cpu, cutoff, Pct(nn)) != []
    ensures Percentile(Parts(b, order, Cpu, cutoff, Pct(nn)), nn) < w
  {
    var pool := Parts(b, order, Cpu, cutoff, Pct(nn));
    DivisorBounds(nn, d);
    var q, r := Quotient(|pool|, d);
    PoolExcess(b, order, cutoff, nn, d, w);
    ExcessCovers(pool, d, w, q, r);
    RanksFit(d, |pool|, q, r);
    if r > 0 && Below(pool, w) == q + 1 {
      TightConnector(b, order, cutoff, nn, d, w, q, r);
    } else {
      LowRanks(pool, nn, d, q, r, w);
    }
  }

  // --- mean implies any ------------------------------------------------------------------

  /** The CPU aggregations whose fleet value cannot reach a watermark that no connector reaches. */
  predicate FleetReflects(agg: Agg) { agg.Pct? ==> agg.nn == 0 || (agg.nn <= 100 && 100 % agg.nn == 0) }

  lemma FleetCpuBelow(b: Buffers, order: seq<Id>, cutoff: int, agg: Agg, w: real)
    requires FleetReflects(agg) && AllBelow(b, order, Cpu, cutoff, agg, w)
             && FleetValue(b, order, Cpu, cutoff, agg).Some?
    ensures FleetValue(b, order, Cpu, cutoff, agg).value < w
  {
    var pool := Parts(b, order, Cpu, cutoff, agg);
    if agg == Avg {
      PoolBelow(b, order, cutoff, w);
      MeanBelow(pool, w);
    } else if agg == Agg.Least || agg == Pct(0) {
      PooledLeast(b, order, cutoff, agg, w);
      PercentileEnds(pool, 0);
    } else {
      PooledPercentile(b, order, cutoff, agg.nn, 100 / agg.nn, w);
    }
  }

  lemma FleetThroughputBelow(b: Buffers, order: seq<Id>, cutoff: int, agg: Agg, w: real)
    requires (agg.Pct? ==> agg.nn <= 100) && AllBelow(b, order, Throughput, cutoff, agg, w)
    requires FleetValue(b, order, Throughput, cutoff, agg).Some?
    ensures FleetValue(b, order, Throughput, cutoff, agg).value < w
  {
    var parts := Parts(b, order, Throughput, cutoff, agg);
    forall i | 0 <= i < |parts|
      ensures parts[i] < w
    {
      var id := PartOf(b, order, Throughput, cutoff, agg, parts[i]);
    }
    SumBelow(parts, w);
    MeanBelow(parts, w);
  }

  /** A rate in bytes per second that is so many megabits per second. */
  function MbpsToBps(mbps: real): real { mbps * 125000.0 }

  lemma RatesAgree(bps: real, mbps: real)
    ensures BpsToMbps(bps) >= mbps <==> bps >= MbpsToBps(mbps)
    ensures BpsToMbps(bps) <= mbps <==> bps <= MbpsToBps(mbps)
  {
  }

  lemma NotHot(p: Policy, cpuBy: map<Id, real>, throughputBy: map<Id, real>, id: Id)
    requires HotIds(p, cpuBy, throughputBy) == {}
    ensures !CpuHot(p, cpuBy, id) && !ThroughputHot(p, throughputBy, id)
  {
    assert id !in HotIds(p, cpuBy, throughputBy);
  }

  lemma CpuAllBelow(p: Policy, b: Buffers, order: seq<Id>, cutoff: int, throughputBy: map<Id, real>)
    requires p.Valid() && HotIds(p, OwnValues(b, Elements(order), Cpu, cutoff, p.cpu.agg), throughputBy) == {}
    ensures AllBelow(b, order, Cpu, cutoff, p.cpu.agg, p.cpu.high)
  {
    forall id | id in order && Own(b, id, Cpu, cutoff) != []
      ensures Reduce(Own(b, id, Cpu, cutoff), p.cpu.agg).value < p.cpu.high
    {
      NotHot(p, OwnValues(b, Elements(order), Cpu, cutoff, p.cpu.agg), throughputBy, id);
    }
  }

  lemma ThroughputAllBelow(p: Policy, b: Buffers, order: seq<Id>, cutoff: int, cpuBy: map<Id, real>)
    requires p.Valid() && HotIds(p, cpuBy, OwnValues(b, Elements(order), Throughput, cutoff, p.throughput.agg)) == {}
    ensures AllBelow(b, order, Throughput, cutoff, p.throughput.agg, MbpsToBps(p.throughput.high))
  {
    forall id | id in order && Own(b, id, Throughput, cutoff) != []
      ensures Reduce(Own(b, id, Throughput, cutoff), p.throughput.agg).value < MbpsToBps(p.throughput.high)
    {
      NotHot(p, cpuBy, OwnValues(b, Elements(order), Throughput, cutoff, p.throughput.agg), id);
      RatesAgree(Reduce(Own(b, id, Throughput, cutoff), p.throughput.agg).value, p.throughput.high);
    }
  }

  /** If the mean trigger fires, the any trigger would: some connector is individually hot. */
  ghost predicate MeanMeansAny(p: Policy, load: Load) {
    IsHighLoad(p, load.cpu, load.throughput) ==> HotIds(p, load.cpuBy, load.throughputBy) != {}
  }

  lemma NotHigh(p: Policy, cpu: Option<real>, throughput: Option<real>)
    requires cpu.Some? ==> cpu.value < p.cpu.high
    requires throughput.Some? ==> BpsToMbps(throughput.value) < p.throughput.high
    ensures !IsHighLoad(p, cpu, throughput)
  {
  }

  lemma CpuFleetLow(p: Policy, b: Buffers, order: seq<Id>, cutoff: int, throughputBy: map<Id, real>)
    requires p.Valid() && FleetReflects(p.cpu.agg)
    requires HotIds(p, OwnValues(b, Elements(order), Cpu, cutoff, p.cpu.agg), throughputBy) == {}
    ensures var v := FleetValue(b, order, Cpu, cutoff, p.cpu.agg); v.Some? ==> v.value < p.cpu.high
  {
    CpuAllBelow(p, b, order, cutoff, throughputBy);
    if FleetValue(b, order, Cpu, cutoff, p.cpu.agg).Some? {
      FleetCpuBelow(b, order, cutoff, p.cpu.agg, p.cpu.high);
    }
  }

  lemma ThroughputFleetLow(p: Policy, b: Buffers, order: seq<Id>, cutoff: int, cpuBy: map<Id, real>)
    requires p.Valid()
    requires HotIds(p, cpuBy, OwnValues(b, Elements(order), Throughput, cutoff, p.throughput.agg)) == {}
    ensures var v := FleetValue(b, order, Throughput, cutoff, p.throughput.agg);
            v.Some? ==> BpsToMbps(v.value) < p.throughput.high
  {
    var v := FleetValue(b, order, Throughput, cutoff, p.throughput.agg);
    ThroughputAllBelow(p, b, order, cutoff, cpuBy);
    if v.Some? {
      FleetThroughputBelow(b, order, cutoff, p.throughput.agg, MbpsToBps(p.throughput.high));
      RatesAgree(v.value, p.throughput.high);
    }
  }

  lemma MeanImpliesAny(p: Policy, b: Buffers, order: seq<Id>, now: int)
    requires p.Valid() && FleetReflects(p.cpu.agg)
    ensures MeanMeansAny(p, LoadOf(p, b, order, now))
  {
    var load := LoadOf(p, b, order, now);
    if HotIds(p, load.cpuBy, load.throughputBy) == {} {
      CpuFleetLow(p, b, order, now - p.cpu.window, load.throughputBy);
      ThroughputFleetLow(p, b, order, now - p.throughput.window, load.cpuBy);
      NotHigh(p, load.cpu, load.throughput);
    }
  }
}
