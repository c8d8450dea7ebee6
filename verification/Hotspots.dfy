/** Where the mean trigger and the any trigger part, and how few connectors are hot when the fleet shrinks. */
module Hotspots {
  import opened Basics
  import opened Policies
  import opened Decider
  import opened Reductions
  import opened Aggregators
  import opened Triggers

  // --- CPU percentiles that do not divide a hundred ------------------------------------

  /** One idle sample and `m` at `w`, all within any window that ends at 0. */
  function OneIdle(id: Id, m: nat, w: real): seq<Sample> {
    seq(m + 1, i => Sample(id, 0, Some(if i == 0 then 0.0 else w), None))
  }

  function Connectors(nn: nat): (order: seq<Id>)
    ensures |order| == nn && forall i :: 0 <= i < nn ==> order[i] == i
  {
    seq(nn, i => i)
  }

  /** `nn` connectors alike. */
  function AlikeBuffers(nn: nat, m: nat, w: real): Buffers { map id | 0 <= id < nn :: OneIdle(id, m, w) }

  lemma {:induction false} WindowAll(samples: seq<Sample>, cutoff: int)
    requires forall s :: s in samples ==> s.ts >= cutoff && s.cpu.Some?
    ensures var vs := Windowed(samples, Cpu, cutoff);
            |vs| == |samples| && forall i :: 0 <= i < |vs| ==> vs[i] == samples[i].cpu.value
  {
    if samples != [] {
      assert samples[|samples| - 1] in samples;
      WindowAll(samples[..|samples| - 1], cutoff);
    }
  }

  lemma {:induction false} BelowOne(vs: seq<real>, w: real)
    requires vs != [] && vs[0] < w && forall i :: 0 < i < |vs| ==> vs[i] >= w
    ensures Below(vs, w) == 1
  {
    if |vs| > 1 {
      BelowOne(vs[..|vs| - 1], w);
    }
  }

  lemma OwnAlike(nn: nat, m: nat, w: real, id: Id, cutoff: int)
    requires id < nn && cutoff <= 0 && w > 0.0
    ensures var vs := Own(AlikeBuffers(nn, m, w), id, Cpu, cutoff);
            && |vs| == m + 1 && vs[0] == 0.0 && (forall i :: 0 < i <= m ==> vs[i] == w) && Below(vs, w) == 1
  {
    WindowAll(OneIdle(id, m, w), cutoff);
    BelowOne(Own(AlikeBuffers(nn, m, w), id, Cpu, cutoff), w);
  }

  /** Each connector's own percentile stays below `w`: its rank falls between the idle sample and the rest. */
  lemma OwnPercentileLow(vs: seq<real>, nn: nat, m: nat, w: real)
    requires |vs| == m + 1 && vs[0] == 0.0 && (forall i :: 0 < i <= m ==> vs[i] == w) && w > 0.0 && nn <= 100
    requires 0 < Repeated(m, nn) < 100
    ensures Percentile(vs, nn) < w
  {
    PercentileAt(vs, nn);
    SortExact(vs);
    SortEnds(vs);
    SmallestExact(vs);
    var s, a := Sort(vs), Hundredths(nn, |vs|);
    assert a == Repeated(m, nn) && a / 100 == 0 && a % 100 == a;
    assert vs[0] in vs && s[0] == 0.0 && s[1] <= s[m] <= w;
    PartOfFull(s[1], w, a);
    assert s[0] + (s[1] - s[0]) * (a as real / 100.0) == s[1] * (a as real / 100.0);
  }

  lemma PartOfFull(x: real, w: real, a: nat)
    requires 0.0 <= x <= w && 0.0 < w && a < 100
    ensures x * (a as real / 100.0) < w
  {
    var f := a as real / 100.0;
    assert f <= 0.99;
    Scale(w, f, 0.99);
    Grow(x, w, f);
    var part := w * 0.99;
    assert x * f <= w * f <= part < w;
  }

  /** Connectors with `size` samples each, one of them below `w`. */
  lemma {:induction false} UniformPool(b: Buffers, order: seq<Id>, w: real, size: nat, cutoff: int, agg: Agg)
    requires (agg.Pct? ==> agg.nn <= 100) && forall i :: 0 <= i < |order| ==>
               |Own(b, order[i], Cpu, cutoff)| == size && Below(Own(b, order[i], Cpu, cutoff), w) == 1
    ensures var pool := Parts(b, order, Cpu, cutoff, agg);
            Below(pool, w) == |order| && |pool| == Repeated(|order|, size)
  {
    if order != [] {
      var init, last := order[..|order| - 1], order[|order| - 1];
      UniformPool(b, init, w, size, cutoff, agg);
      BelowConcat(Parts(b, init, Cpu, cutoff, agg), Own(b, last, Cpu, cutoff), w);
    }
  }

  lemma PoolAlike(nn: nat, m: nat, w: real, cutoff: int, agg: Agg)
    requires cutoff <= 0 && w > 0.0 && (agg.Pct? ==> agg.nn <= 100)
    ensures var pool := Parts(AlikeBuffers(nn, m, w), Connectors(nn), Cpu, cutoff, agg);
            Below(pool, w) == nn && |pool| == Repeated(nn, m + 1)
  {
    forall i | 0 <= i < nn
      ensures |Own(AlikeBuffers(nn, m, w), Connectors(nn)[i], Cpu, cutoff)| == m + 1
      ensures Below(Own(AlikeBuffers(nn, m, w), Connectors(nn)[i], Cpu, cutoff), w) == 1
    {
      OwnAlike(nn, m, w, i, cutoff);
    }
    UniformPool(AlikeBuffers(nn, m, w), Connectors(nn), w, m + 1, cutoff, agg);
  }

  /** More than a hundred samples, `nn` of them idle: the pool's rank is past the idle ones. */
  lemma PoolPercentileHigh(pool: seq<real>, nn: nat, w: real)
    requires nn <= 100 && |pool| > 100 && Below(pool, w) <= nn
    ensures Percentile(pool, nn) >= w
  {
    var a := Hundredths(nn, |pool|);
    PercentileAt(pool, nn);
    SortExact(pool);
    AtBetween(Sort(pool), a);
    RepeatedRises(100, |pool| - 1, nn);
    RepeatedProduct(100, nn);
    OrderStatistic(pool, a / 100, w);
  }

  /** `m` busy samples to each idle one put every connector's own rank short of them, and the pool's past the
      idle ones. */
  ghost predicate Parting(nn: nat, m: nat) { 0 < Repeated(m, nn) < 100 && Repeated(m, nn) + nn > 100 }

  lemma PartingProducts(nn: nat, m: nat)
    requires Parting(nn, m)
    ensures Repeated(nn, m + 1) > 100
  {
    RepeatedProduct(m, nn);
    RepeatedProduct(nn, m + 1);
    assert nn * (m + 1) == m * nn + nn;
  }

  /** As many busy samples as times `nn` fits in a hundred. */
  lemma BusyShare(nn: nat) returns (m: nat)
    requires 0 < nn <= 100 && 100 % nn != 0
    ensures Parting(nn, m)
  {
    m := 100 / nn;
    RepeatedProduct(m, nn);
    assert 100 == nn * m + 100 % nn;
  }

  /** Neither signal of `id` is over its watermark. */
  ghost predicate Cold(p: Policy, cpuBy: map<Id, real>, throughputBy: map<Id, real>, id: Id) {
    !CpuHot(p, cpuBy, id) && !ThroughputHot(p, throughputBy, id)
  }

  lemma HighYetCold(p: Policy, load: Load, cpu: Option<real>, throughput: Option<real>, cpuBy: map<Id, real>,
                    throughputBy: map<Id, real>)
    requires load == Load(cpu, throughput, cpuBy, throughputBy)
    requires cpu.Some? && cpu.value >= p.cpu.high && forall id :: Cold(p, cpuBy, throughputBy, id)
    ensures !MeanMeansAny(p, load)
  {
    forall id
      ensures id !in HotIds(p, cpuBy, throughputBy)
    {
      assert Cold(p, cpuBy, throughputBy, id);
    }
  }

  lemma Disagree(p: Policy, b: Buffers, order: seq<Id>, cpuCutoff: int, rateCutoff: int)
    requires p.Valid() && cpuCutoff == 0 - p.cpu.window && rateCutoff == 0 - p.throughput.window
    requires var v := FleetValue(b, order, Cpu, cpuCutoff, p.cpu.agg); v.Some? && v.value >= p.cpu.high
    requires forall id :: Cold(p, OwnValues(b, Elements(order), Cpu, cpuCutoff, p.cpu.agg),
                               OwnValues(b, Elements(order), Throughput, rateCutoff, p.throughput.agg), id)
    ensures !MeanMeansAny(p, LoadOf(p, b, order, 0))
  {
    HighYetCold(p, LoadOf(p, b, order, 0), FleetValue(b, order, Cpu, cpuCutoff, p.cpu.agg),
                FleetValue(b, order, Throughput, rateCutoff, p.throughput.agg),
                OwnValues(b, Elements(order), Cpu, cpuCutoff, p.cpu.agg),
                OwnValues(b, Elements(order), Throughput, rateCutoff, p.throughput.agg));
  }

  /** With a CPU percentile that neither is zero nor divides a hundred, this load fires the mean trigger while
      no connector is hot. */
  lemma PercentileParts(p: Policy) returns (b: Buffers, order: seq<Id>)
    requires p.Valid() && !FleetReflects(p.cpu.agg)
    ensures Distinct(order) && !MeanMeansAny(p, LoadOf(p, b, order, 0))
  {
    var m := BusyShare(p.cpu.agg.nn);
    var cpuCutoff, rateCutoff := 0 - p.cpu.window, 0 - p.throughput.window;
    b, order := AlikeFacts(p, p.cpu.agg.nn, m, cpuCutoff, rateCutoff);
    Disagree(p, b, order, cpuCutoff, rateCutoff);
  }

  lemma AlikeFacts(p: Policy, nn: nat, m: nat, cpuCutoff: int, rateCutoff: int) returns (b: Buffers, order: seq<Id>)
    requires p.Valid() && p.cpu.agg == Pct(nn) && nn > 0 && Parting(nn, m) && cpuCutoff <= 0
    ensures Distinct(order)
    ensures var v := FleetValue(b, order, Cpu, cpuCutoff, p.cpu.agg); v.Some? && v.value >= p.cpu.high
    ensures forall id :: Cold(p, OwnValues(b, Elements(order), Cpu, cpuCutoff, p.cpu.agg),
                              OwnValues(b, Elements(order), Throughput, rateCutoff, p.throughput.agg), id)
  {
    b, order := AlikeBuffers(nn, m, p.cpu.high), Connectors(nn);
    AlikeHigh(nn, m, p.cpu.high, cpuCutoff);
    AlikeCold(p, nn, m, cpuCutoff, rateCutoff);
  }

  lemma AlikeCold(p: Policy, nn: nat, m: nat, cpuCutoff: int, rateCutoff: int)
    requires p.Valid() && p.cpu.agg == Pct(nn) && Parting(nn, m) && cpuCutoff <= 0
    ensures var b, ids := AlikeBuffers(nn, m, p.cpu.high), Elements(Connectors(nn));
            forall id :: Cold(p, OwnValues(b, ids, Cpu, cpuCutoff, p.cpu.agg),
                              OwnValues(b, ids, Throughput, rateCutoff, p.throughput.agg), id)
  {
    var b, ids := AlikeBuffers(nn, m, p.cpu.high), Elements(Connectors(nn));
    forall id
      ensures Cold(p, OwnValues(b, ids, Cpu, cpuCutoff, p.cpu.agg),
                   OwnValues(b, ids, Throughput, rateCutoff, p.throughput.agg), id)
    {
      AlikeCpuCold(p, nn, m, p.cpu.high, cpuCutoff, id);
      AlikeSilent(p, nn, m, p.cpu.high, rateCutoff, id);
    }
  }

  lemma AlikeHigh(nn: nat, m: nat, w: real, cutoff: int)
    requires 0 < nn <= 100 && Parting(nn, m) && w > 0.0 && cutoff <= 0
    ensures var v := FleetValue(AlikeBuffers(nn, m, w), Connectors(nn), Cpu, cutoff, Pct(nn)); v.Some? && v.value >= w
  {
    PartingProducts(nn, m);
    PoolAlike(nn, m, w, cutoff, Pct(nn));
    FleetHigh(AlikeBuffers(nn, m, w), Connectors(nn), nn, w, cutoff);
  }

  lemma FleetHigh(b: Buffers, order: seq<Id>, nn: nat, w: real, cutoff: int)
    requires nn <= 100
    requires var pool := Parts(b, order, Cpu, cutoff, Pct(nn)); |pool| > 100 && Below(pool, w) <= nn
    ensures var v := FleetValue(b, order, Cpu, cutoff, Pct(nn)); v.Some? && v.value >= w
  {
    PoolPercentileHigh(Parts(b, order, Cpu, cutoff, Pct(nn)), nn, w);
  }

  lemma AlikeCpuCold(p: Policy, nn: nat, m: nat, w: real, cutoff: int, id: Id)
    requires p.Valid() && p.cpu.agg == Pct(nn) && w == p.cpu.high && Parting(nn, m) && cutoff <= 0
    ensures !CpuHot(p, OwnValues(AlikeBuffers(nn, m, w), Elements(Connectors(nn)), Cpu, cutoff, Pct(nn)), id)
  {
    if id in Connectors(nn) {
      OwnAlike(nn, m, w, id, cutoff);
      OwnPercentileLow(Own(AlikeBuffers(nn, m, w), id, Cpu, cutoff), nn, m, w);
    }
  }

  lemma AlikeSilent(p: Policy, nn: nat, m: nat, w: real, cutoff: int, id: Id)
    requires p.Valid()
    ensures !ThroughputHot(p, OwnValues(AlikeBuffers(nn, m, w), Elements(Connectors(nn)), Throughput, cutoff,
                                        p.throughput.agg), id)
  {
    NoRates(BufferOf(AlikeBuffers(nn, m, w), id), cutoff);
  }

  lemma {:induction false} NoRates(samples: seq<Sample>, cutoff: int)
    requires forall s :: s in samples ==> s.bps.None?
    ensures Windowed(samples, Throughput, cutoff) == []
  {
    if samples != [] {
      assert samples[|samples| - 1] in samples;
      NoRates(samples[..|samples| - 1], cutoff);
    }
  }

  /** For every valid policy: the mean trigger implies the any trigger on every sample history if and only if
      CPU is aggregated by mean, by minimum, or by a percentile that is zero or divides a hundred. The
      throughput aggregation does not matter. */
  lemma MeanImpliesAnyExact(p: Policy)
    requires p.Valid()
    ensures FleetReflects(p.cpu.agg) <==>
            forall b: Buffers, order: seq<Id>, now: int :: Distinct(order) ==> MeanMeansAny(p, LoadOf(p, b, order, now))
  {
    if FleetReflects(p.cpu.agg) {
      forall b: Buffers, order: seq<Id>, now: int | Distinct(order)
        ensures MeanMeansAny(p, LoadOf(p, b, order, now))
      {
        MeanImpliesAny(p, b, order, now);
      }
    } else {
      var b, order := PercentileParts(p);
    }
  }

  // --- the hot connectors of a scale-down --------------------------------------------------

  /** Connectors that report, and those of them at `h` or above. */
  function Reporting(b: Buffers, order: seq<Id>, cutoff: int): set<Id> {
    set id | id in order && Own(b, id, Throughput, cutoff) != []
  }

  function AtLeast(b: Buffers, order: seq<Id>, cutoff: int, agg: Agg, h: real): set<Id>
    requires agg.Pct? ==> agg.nn <= 100
  {
    set id | id in order && Own(b, id, Throughput, cutoff) != [] &&
             Reduce(Own(b, id, Throughput, cutoff), agg).value >= h
  }

  ghost predicate NoNegativeRates(b: Buffers) {
    forall id, s :: id in b && s in b[id] && s.bps.Some? ==> s.bps.value >= 0.0
  }

  lemma {:induction false} WindowNotNegative(samples: seq<Sample>, cutoff: int)
    requires forall s :: s in samples && s.bps.Some? ==> s.bps.value >= 0.0
    ensures forall v :: v in Windowed(samples, Throughput, cutoff) ==> v >= 0.0
  {
    if samples != [] {
      assert samples[|samples| - 1] in samples;
      WindowNotNegative(samples[..|samples| - 1], cutoff);
    }
  }

  lemma {:induction false} SumNotNegative(vs: seq<real>)
    requires forall i :: 0 <= i < |vs| ==> vs[i] >= 0.0
    ensures Sum(vs) >= 0.0
  {
    if vs != [] {
      SumNotNegative(vs[..|vs| - 1]);
    }
  }

  lemma ReduceNotNegative(vs: seq<real>, agg: Agg)
    requires vs != [] && (agg.Pct? ==> agg.nn <= 100) && forall v :: v in vs ==> v >= 0.0
    ensures Reduce(vs, agg).value >= 0.0
  {
    SmallestExact(vs);
    assert forall i :: 0 <= i < |vs| ==> vs[i] in vs;
    match agg
    case Avg =>
      SumNotNegative(vs);
      AverageExact(vs);
    case Least =>
    case Pct(nn) => PercentileEnds(vs, nn);
  }

  /** The reduced rates add up to at least `h` for each connector at `h` or above. */
  ghost predicate HotCovered(parts: seq<real>, hot: set<Id>, all: set<Id>, h: real) {
    Sum(parts) >= Times(|hot|, h) && |parts| == |all|
  }

  lemma OneMore(parts: seq<real>, hot: set<Id>, all: set<Id>, h: real, id: Id, v: real)
    requires HotCovered(parts, hot, all, h) && v >= 0.0 && id !in all && hot <= all
    ensures HotCovered(parts + [v], hot + (if v >= h then {id} else {}), all + {id}, h)
  {
    SumConcat(parts, [v]);
    assert Sum([v]) == v;
    TimesAdd(|hot|, 1, h);
    assert Times(1, h) == h;
  }

  lemma RateNotNegative(b: Buffers, id: Id, cutoff: int, agg: Agg)
    requires NoNegativeRates(b) && (agg.Pct? ==> agg.nn <= 100) && Own(b, id, Throughput, cutoff) != []
    ensures Reduce(Own(b, id, Throughput, cutoff), agg).value >= 0.0
  {
    WindowNotNegative(BufferOf(b, id), cutoff);
    ReduceNotNegative(Own(b, id, Throughput, cutoff), agg);
  }

  lemma HotGrows(b: Buffers, order: seq<Id>, id: Id, cutoff: int, agg: Agg, h: real)
    requires agg.Pct? ==> agg.nn <= 100
    ensures var own := Own(b, id, Throughput, cutoff);
            var hot, all := AtLeast(b, order, cutoff, agg, h), Reporting(b, order, cutoff);
            if own == []
            then AtLeast(b, order + [id], cutoff, agg, h) == hot && Reporting(b, order + [id], cutoff) == all
            else
              && AtLeast(b, order + [id], cutoff, agg, h) == hot + (if Reduce(own, agg).value >= h then {id} else {})
              && Reporting(b, order + [id], cutoff) == all + {id}
  {
  }

  ghost predicate Covered(b: Buffers, order: seq<Id>, cutoff: int, agg: Agg, h: real) {
    && (agg.Pct? ==> agg.nn <= 100)
    && HotCovered(Parts(b, order, Throughput, cutoff, agg), AtLeast(b, order, cutoff, agg, h),
                  Reporting(b, order, cutoff), h)
  }

  lemma HotStep(b: Buffers, order: seq<Id>, id: Id, cutoff: int, agg: Agg, h: real)
    requires id !in order && NoNegativeRates(b) && (agg.Pct? ==> agg.nn <= 100) && Covered(b, order, cutoff, agg, h)
    ensures Covered(b, order + [id], cutoff, agg, h)
  {
    HotGrows(b, order, id, cutoff, agg, h);
    assert (order + [id])[..|order|] == order;
    var own := Own(b, id, Throughput, cutoff);
    var parts := Parts(b, order, Throughput, cutoff, agg);
    if own == [] {
      assert parts + [] == parts;
    } else {
      RateNotNegative(b, id, cutoff, agg);
      OneMore(parts, AtLeast(b, order, cutoff, agg, h), Reporting(b, order, cutoff), h, id, Reduce(own, agg).value);
    }
  }

  lemma NoneCovered(b: Buffers, cutoff: int, agg: Agg, h: real)
    requires agg.Pct? ==> agg.nn <= 100
    ensures Covered(b, [], cutoff, agg, h)
  {
    assert AtLeast(b, [], cutoff, agg, h) == {} && Reporting(b, [], cutoff) == {};
  }

  lemma {:induction false} BuildUp(keep: seq<Id> -> bool, order: seq<Id>)
    requires Distinct(order) && keep([]) && forall s, x :: keep(s) && x !in s ==> keep(s + [x])
    ensures keep(order)
  {
    if order != [] {
      BuildUp(keep, order[..|order| - 1]);
      assert order == order[..|order| - 1] + [order[|order| - 1]];
    }
  }

  lemma HotShare(b: Buffers, order: seq<Id>, cutoff: int, agg: Agg, h: real)
    requires Distinct(order) && NoNegativeRates(b) && (agg.Pct? ==> agg.nn <= 100)
    ensures Covered(b, order, cutoff, agg, h)
  {
    var keep := (s: seq<Id>) => Covered(b, s, cutoff, agg, h);
    forall s: seq<Id>, x: Id | keep(s) && x !in s
      ensures keep(s + [x])
    {
      HotStep(b, s, x, cutoff, agg, h);
    }
    NoneCovered(b, cutoff, agg, h);
    BuildUp(keep, order);
  }

  /** The connectors whose throughput is over the high watermark. */
  function ThroughputHotIds(p: Policy, throughputBy: map<Id, real>): set<Id> {
    set id | id in throughputBy && ThroughputHot(p, throughputBy, id)
  }

  lemma HotIdsAre(p: Policy, b: Buffers, order: seq<Id>, cutoff: int)
    requires p.Valid()
    ensures var rates := OwnValues(b, Elements(order), Throughput, cutoff, p.throughput.agg);
            && ThroughputHotIds(p, rates) == AtLeast(b, order, cutoff, p.throughput.agg, MbpsToBps(p.throughput.high))
            && rates.Keys == Reporting(b, order, cutoff)
  {
    var rates := OwnValues(b, Elements(order), Throughput, cutoff, p.throughput.agg);
    forall id | id in rates
      ensures ThroughputHot(p, rates, id) <==> rates[id] >= MbpsToBps(p.throughput.high)
    {
      RatesAgree(rates[id], p.throughput.high);
    }
  }

  /** The reported rates of a low fleet average no more than the low watermark. */
  lemma LowMean(p: Policy, b: Buffers, order: seq<Id>, cutoff: int)
    requires p.Valid()
    requires var v := FleetValue(b, order, Throughput, cutoff, p.throughput.agg);
             v.Some? && BpsToMbps(v.value) <= p.throughput.low
    ensures var parts := Parts(b, order, Throughput, cutoff, p.throughput.agg);
            parts != [] && Sum(parts) <= Times(|parts|, MbpsToBps(p.throughput.low))
  {
    var v := FleetValue(b, order, Throughput, cutoff, p.throughput.agg);
    RatesAgree(v.value, p.throughput.low);
    MeanBelow(Parts(b, order, Throughput, cutoff, p.throughput.agg), MbpsToBps(p.throughput.low));
  }

  lemma ScaleRates(k: nat, n: nat, high: real, low: real)
    requires 0.0 <= low < high && Times(k, MbpsToBps(high)) <= Times(n, MbpsToBps(low)) && 0 < n
    ensures k as real * high <= n as real * low && k < n
  {
    var (x, y) := (k as real * high, n as real * low);
    TimesProduct(k, MbpsToBps(high));
    TimesProduct(n, MbpsToBps(low));
    assert k as real * MbpsToBps(high) == x * 125000.0 && n as real * MbpsToBps(low) == y * 125000.0;
    Strictly(low, high, n as real);
    if k >= n {
      Grow(n as real, k as real, high);
    }
  }

  /** When the fleet mean is low, `k` hot connectors among `n` that report carry `k` times the high watermark,
      so they are fewer than all. */
  lemma FewHot(p: Policy, b: Buffers, order: seq<Id>, cutoff: int)
    requires p.Valid() && Distinct(order) && NoNegativeRates(b)
    requires var v := FleetValue(b, order, Throughput, cutoff, p.throughput.agg);
             v.Some? && BpsToMbps(v.value) <= p.throughput.low
    ensures var rates := OwnValues(b, Elements(order), Throughput, cutoff, p.throughput.agg);
            FewAmong(p, |ThroughputHotIds(p, rates)|, |rates|)
  {
    var rates := OwnValues(b, Elements(order), Throughput, cutoff, p.throughput.agg);
    LowMean(p, b, order, cutoff);
    HotIdsAre(p, b, order, cutoff);
    HotShare(b, order, cutoff, p.throughput.agg, MbpsToBps(p.throughput.high));
    FewCovered(p, Parts(b, order, Throughput, cutoff, p.throughput.agg), ThroughputHotIds(p, rates), rates.Keys);
    assert |rates| == |rates.Keys|;
  }

  lemma FewCovered(p: Policy, parts: seq<real>, hot: set<Id>, all: set<Id>)
    requires p.Valid() && HotCovered(parts, hot, all, MbpsToBps(p.throughput.high))
    requires parts != [] && Sum(parts) <= Times(|parts|, MbpsToBps(p.throughput.low))
    ensures FewAmong(p, |hot|, |all|)
  {
    ScaleRates(|hot|, |all|, p.throughput.high, p.throughput.low);
  }

  ghost predicate FewAmong(p: Policy, k: nat, n: nat) {
    k as real * p.throughput.high <= n as real * p.throughput.low && k < n
  }

  /** `k` of `count` are none, or less than the fraction. */
  ghost predicate NoQuorum(p: Policy, k: nat, count: nat) { k == 0 || k as real < p.quorumFraction * count as real }

  lemma DownMeansLow(p: Policy, load: Load, count: nat, lastUp: Option<int>, lastDown: Option<int>, now: int,
                     pending: bool)
    requires p.Valid() && DecideScale(p, load, count, lastUp, lastDown, now, pending).direction == Down
    ensures load.throughput.Some? ==> BpsToMbps(load.throughput.value) <= p.throughput.low
    ensures p.trigger == Any ==> |HotIds(p, load.cpuBy, load.throughputBy)| == 0
    ensures p.trigger == Quorum ==> NoQuorum(p, |HotIds(p, load.cpuBy, load.throughputBy)|, count)
  {
    if p.trigger == Quorum {
      QuorumExact(p, load, count);
    }
  }

  /** The throughput-hot connectors of a scale-down: with samples that are not negative, `k` of them among `n`
      that report satisfy `k * high <= n * low`, so some connector is not hot; in `any` mode none is hot by
      either signal, and in `quorum` mode none or less than the fraction of the fleet. */
  lemma FewHotOnScaleDown(p: Policy, b: Buffers, order: seq<Id>, now: int, count: nat, lastUp: Option<int>,
                          lastDown: Option<int>, pending: bool)
    requires p.Valid() && Distinct(order) && NoNegativeRates(b)
    requires DecideScale(p, LoadOf(p, b, order, now), count, lastUp, lastDown, now, pending).direction == Down
    ensures var load := LoadOf(p, b, order, now);
            && (load.throughput.Some? ==> FewAmong(p, |ThroughputHotIds(p, load.throughputBy)|, |load.throughputBy|))
            && (p.trigger == Any ==> |HotIds(p, load.cpuBy, load.throughputBy)| == 0)
            && (p.trigger == Quorum ==> NoQuorum(p, |HotIds(p, load.cpuBy, load.throughputBy)|, count))
  {
    var load := LoadOf(p, b, order, now);
    DownMeansLow(p, load, count, lastUp, lastDown, now, pending);
    if load.throughput.Some? {
      FewHot(p, b, order, now - p.throughput.window);
    }
  }
}
