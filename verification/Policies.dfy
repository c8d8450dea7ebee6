/** The autoscaling policy and its arithmetic rules: watermarks, cooldowns, floor, ceiling, step. */
module Policies {
  import opened Basics

  /** How per-connector crossings combine into one scale-up decision. */
  datatype Trigger = Any | Mean | Quorum

  /** Window aggregation: mean, minimum, or the `nn`-th percentile. */
  datatype Agg = Avg | Least | Pct(nn: nat)

  datatype MetricRule = MetricRule(high: real, low: real, window: int, agg: Agg)

  /** Durations and timestamps are integers in one common unit. */
  datatype Policy = Policy(
    minConnectors: int,
    maxConnectors: int,
    scaleStep: int,
    cpu: MetricRule,
    throughput: MetricRule,
    trigger: Trigger,
    quorumFraction: real,
    upCooldown: int,
    downCooldown: int,
    drainGrace: int,
    maxRestarts: nat,
    restartWindow: int,
    startupGrace: int,
    unhealthyThreshold: int,
    replaceTimeout: int)
  {
    /** What configuration validation guarantees. */
    predicate Valid() {
      && 2 <= minConnectors <= maxConnectors
      && 1 <= scaleStep
      && 0.0 <= cpu.low < cpu.high <= 100.0
      && 0.0 <= throughput.low < throughput.high
      && 1 <= cpu.window && 1 <= throughput.window
      && (cpu.agg.Pct? ==> cpu.agg.nn <= 100)
      && (throughput.agg.Pct? ==> throughput.agg.nn <= 100)
      && 0.0 < quorumFraction <= 1.0
      && 0 <= upCooldown && 0 <= downCooldown && 0 <= drainGrace
      && 1 <= maxRestarts && 1 <= restartWindow
      && 0 <= startupGrace && 0 <= unhealthyThreshold && 1 <= replaceTimeout
    }
  }

  /** Bytes per second to megabits per second. */
  function BpsToMbps(bps: real): real { bps * 8.0 / 1000000.0 }

  /** Some present fleet signal is at or above its high watermark. */
  predicate IsHighLoad(p: Policy, cpu: Option<real>, throughput: Option<real>) {
    || (cpu.Some? && cpu.value >= p.cpu.high)
    || (throughput.Some? && BpsToMbps(throughput.value) >= p.throughput.high)
  }

  /** At least one fleet signal is present and every present one is at or below its low watermark. */
  predicate IsLowLoad(p: Policy, cpu: Option<real>, throughput: Option<real>) {
    && (cpu.Some? ==> cpu.value <= p.cpu.low)
    && (throughput.Some? ==> BpsToMbps(throughput.value) <= p.throughput.low)
    && (cpu.Some? || throughput.Some?)
  }

  predicate ThroughputHot(p: Policy, throughputBy: map<nat, real>, id: nat) {
    id in throughputBy && BpsToMbps(throughputBy[id]) >= p.throughput.high
  }

  predicate CpuHot(p: Policy, cpuBy: map<nat, real>, id: nat) {
    id in cpuBy && cpuBy[id] >= p.cpu.high
  }

  /** The connectors individually at or above a high watermark. */
  function HotIds(p: Policy, cpuBy: map<nat, real>, throughputBy: map<nat, real>): set<nat> {
    set id | id in cpuBy.Keys + throughputBy.Keys &&
             (CpuHot(p, cpuBy, id) || ThroughputHot(p, throughputBy, id))
  }

  /** The highest of the reported values, and none when there is none. */
  ghost predicate IsHottest(values: map<nat, real>, hottest: Option<real>) {
    match hottest
    case None => values == map[]
    case Some(v) => v in values.Values && forall id :: id in values ==> values[id] <= v
  }

  /** Counts the hot connectors one by one over the union of both maps, and returns the highest CPU value
      beside the count. */
  method CountOverHighWatermark(p: Policy, cpuBy: map<nat, real>, throughputBy: map<nat, real>)
    returns (count: nat, hottest: Option<real>)
    ensures count == |HotIds(p, cpuBy, throughputBy)|
    ensures IsHottest(cpuBy, hottest)
    ensures hottest.Some? && hottest.value >= p.cpu.high ==> count > 0
  {
    var todo := cpuBy.Keys + throughputBy.Keys;
    count := 0;
    ghost var hot := HotIds(p, cpuBy, throughputBy);
    assert hot - todo == {};
    while todo != {}
      invariant count == |hot - todo|
      decreases todo
    {
      var id :| id in todo;
      TakeOne(hot, todo, id);
      if CpuHot(p, cpuBy, id) || ThroughputHot(p, throughputBy, id) {
        count := count + 1;
      }
      todo := todo - {id};
    }
    assert hot - {} == hot;
    hottest := Hottest(cpuBy);
    if hottest.Some? && hottest.value >= p.cpu.high {
      var id :| id in cpuBy && cpuBy[id] == hottest.value;
      assert id in hot;
    }
  }

  method Hottest(values: map<nat, real>) returns (hottest: Option<real>)
    ensures IsHottest(values, hottest)
  {
    var todo := values.Keys;
    hottest := None;
    while todo != {}
      invariant todo <= values.Keys && (hottest.None? ==> todo == values.Keys)
      invariant hottest.Some? ==> hottest.value in values.Values
      invariant hottest.Some? ==> forall id :: id in values && id !in todo ==> values[id] <= hottest.value
      decreases todo
    {
      var id :| id in todo;
      if hottest.None? || values[id] > hottest.value {
        hottest := Some(values[id]);
      }
      todo := todo - {id};
    }
    assert hottest.None? ==> values.Keys == {};
  }

  /** Time left on a cooldown; zero when it has elapsed or was never armed. */
  function CooldownRemaining(last: Option<int>, cooldown: int, now: int): int {
    match last
    case None => 0
    case Some(t) => Max(0, cooldown - (now - t))
  }

  /** How many connectors a scale-up adds: one step, never past the ceiling. */
  function ScaleUpCount(p: Policy, current: int): (k: int)
    ensures p.scaleStep >= 1 ==> 0 <= k && (k == 0 <==> current >= p.maxConnectors)
    ensures k > 0 ==> k <= p.scaleStep && current + k <= p.maxConnectors
  {
    if current >= p.maxConnectors then 0 else Min(p.scaleStep, p.maxConnectors - current)
  }

  /** How many connectors a scale-down removes: one step, never past the floor. */
  function ScaleDownCount(p: Policy, current: int): (k: int)
    ensures p.scaleStep >= 1 ==> 0 <= k && (k == 0 <==> current <= p.minConnectors)
    ensures k > 0 ==> k <= p.scaleStep && current - k >= p.minConnectors
  {
    if current <= p.minConnectors then 0 else Min(p.scaleStep, current - p.minConnectors)
  }

  /** How many connectors restore the floor at once. */
  function FloorFillCount(p: Policy, current: int): (k: int)
    ensures p.minConnectors <= p.maxConnectors && current < p.minConnectors ==> current + k == p.minConnectors
    ensures current >= p.minConnectors ==> k == 0
  {
    if current >= p.minConnectors then 0 else Min(p.minConnectors, p.maxConnectors) - current
  }
}
