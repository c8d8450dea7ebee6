/** The two decisions in the terms of their inputs alone: the readings, the reports, the timers and the policy. */
module Criteria {
  import opened Basics
  import opened Policies
  import opened Decider

  // --- when to scale ---------------------------------------------------------------

  /** The connectors whose own CPU, or whose own throughput in megabits, reaches the high watermark. */
  ghost function Over(p: Policy, load: Load): set<Id> {
    set id | id in load.cpuBy.Keys + load.throughputBy.Keys &&
             (|| (id in load.cpuBy && load.cpuBy[id] >= p.cpu.high)
              || (id in load.throughputBy && load.throughputBy[id] * 8.0 >= p.throughput.high * 1000000.0))
  }

  /** In `mean` mode a fleet value at its high watermark, in `any` mode one connector over its own, in `quorum` mode
      at least one and at least the fraction of the fleet. */
  ghost predicate Fires(p: Policy, load: Load, count: int) {
    match p.trigger
    case Mean =>
      || (load.cpu.Some? && load.cpu.value >= p.cpu.high)
      || (load.throughput.Some? && load.throughput.value * 8.0 >= p.throughput.high * 1000000.0)
    case Any => Over(p, load) != {}
    case Quorum => |Over(p, load)| >= 1 && |Over(p, load)| as real >= p.quorumFraction * count as real
  }

  /** Some fleet value is present, and none is above its low watermark. */
  ghost predicate Idle(p: Policy, load: Load) {
    && (load.cpu.Some? || load.throughput.Some?)
    && (load.cpu.Some? ==> load.cpu.value <= p.cpu.low)
    && (load.throughput.Some? ==> load.throughput.value * 8.0 <= p.throughput.low * 1000000.0)
  }

  ghost predicate Elapsed(last: Option<int>, cooldown: int, now: int) {
    last.Some? ==> now - last.value >= cooldown
  }

  lemma OverExact(p: Policy, load: Load)
    ensures HotIds(p, load.cpuBy, load.throughputBy) == Over(p, load)
  {
    forall id
      ensures id in load.throughputBy ==>
                (ThroughputHot(p, load.throughputBy, id) <==>
                   load.throughputBy[id] * 8.0 >= p.throughput.high * 1000000.0)
    {
    }
  }

  /** The scale-up trigger in each mode. */
  lemma TriggerExact(p: Policy, load: Load, count: int)
    ensures Triggered(p, load, count) <==> Fires(p, load, count)
  {
    OverExact(p, load);
    if p.trigger == Quorum {
      QuorumExact(p, load, count);
    } else if p.trigger == Any {
      assert |Over(p, load)| >= 1 <==> Over(p, load) != {};
    }
  }

  lemma LowExact(p: Policy, load: Load)
    ensures IsLowLoad(p, load.cpu, load.throughput) <==> Idle(p, load)
  {
  }

  /** A decision to grow: what is missing below the floor, at once and whatever else is going on; or else a step
      no further than the ceiling, with no replace pending, the trigger firing and the cooldown over. */
  ghost predicate Grows(p: Policy, load: Load, count: int, lastUp: Option<int>, now: int, replacing: bool, k: int) {
    if count < p.minConnectors then k == p.minConnectors - count
    else
      && !replacing && Fires(p, load, count) && count < p.maxConnectors && Elapsed(lastUp, p.upCooldown, now)
      && k == Min(p.scaleStep, p.maxConnectors - count)
  }

  /** A decision to shrink: a step no further than the floor, with no replace pending, the trigger silent, the
      load low and the cooldown over. */
  ghost predicate Shrinks(p: Policy, load: Load, count: int, lastDown: Option<int>, now: int, replacing: bool, k: int) {
    && count > p.minConnectors && !replacing && !Fires(p, load, count) && Idle(p, load)
    && Elapsed(lastDown, p.downCooldown, now) && k == Min(p.scaleStep, count - p.minConnectors)
  }

  /** The scale decision, case by case. */
  lemma DecisionExact(p: Policy, load: Load, count: nat, lastUp: Option<int>, lastDown: Option<int>, now: int,
                      replacing: bool, k: int)
    requires p.Valid() && k > 0
    ensures var d := DecideScale(p, load, count, lastUp, lastDown, now, replacing);
            && (d == Decision(Up, k) <==> Grows(p, load, count, lastUp, now, replacing, k))
            && (d == Decision(Down, k) <==> Shrinks(p, load, count, lastDown, now, replacing, k))
            && (d.direction == Stay <==> d.count <= 0) && (d.direction == Stay ==> d.count == 0)
  {
    TriggerExact(p, load, count);
    LowExact(p, load);
  }

  // --- whom to remediate --------------------------------------------------------------

  /** Twingate reports the connector dead in one of three ways, or its own health check fails. */
  ghost predicate ReportsIll(c: Conn) {
    || c.state == Some(DeadNoHeartbeat) || c.state == Some(DeadHeartbeatTooOld) || c.state == Some(DeadNoRelays)
    || c.docker == Some(Unhealthy)
  }

  /** Never heard from, not failing its health check, and first seen less than the grace ago. */
  ghost predicate ComingUp(p: Policy, c: Conn, seenAt: Option<int>, now: int) {
    && c.state == Some(DeadNoHeartbeat) && !c.hasHeartbeat && c.docker != Some(Unhealthy)
    && p.startupGrace > 0 && seenAt.Some? && now - seenAt.value < p.startupGrace
  }

  ghost function TimeOf(timers: map<Id, int>, id: Id): Option<int> { if id in timers then Some(timers[id]) else None }

  /** Every gate between a report and an action. */
  ghost predicate GatesOpen(p: Policy, c: Conn, seenAt: Option<int>, illSince: Option<int>, replacing: bool, now: int) {
    && !c.cordoned && !replacing && ReportsIll(c) && !ComingUp(p, c, seenAt, now)
    && (p.unhealthyThreshold > 0 ==> illSince.Some? && now - illSince.value >= p.unhealthyThreshold)
  }

  lemma RemediableExact(p: Policy, c: Conn, g: Gates, now: int)
    requires p.Valid()
    ensures Remediable(p, c, g, now) <==>
            GatesOpen(p, c, TimeOf(g.firstSeen, c.id), TimeOf(g.firstUnhealthy, c.id), c.id in g.replacing, now)
  {
    if c.state.Some? {
      assert c.state.value != Alive <==>
             c.state.value == DeadNoHeartbeat || c.state.value == DeadHeartbeatTooOld || c.state.value == DeadNoRelays;
    }
  }

  /** A listed connector gets an action exactly when every gate is open, and which one follows its restarts. */
  lemma ActionExact(p: Policy, conns: seq<Conn>, counts: map<Id, nat>, g: Gates, now: int, c: Conn, kind: Kind)
    requires p.Valid() && DistinctIds(conns) && c in conns
    ensures HealthAction(c.id, kind) in HealthActions(p, conns, counts, g, now) <==>
            && GatesOpen(p, c, TimeOf(g.firstSeen, c.id), TimeOf(g.firstUnhealthy, c.id), c.id in g.replacing, now)
            && (kind == ReplaceNew <==> c.id in counts && counts[c.id] >= p.maxRestarts)
  {
    var plan := HealthActions(p, conns, counts, g, now);
    RemediableExact(p, c, g, now);
    ActionsJustified(p, conns, counts, g, now);
    if HealthAction(c.id, kind) in plan {
      assert Justified(p, conns, counts, g, now, HealthAction(c.id, kind));
    }
    if Remediable(p, c, g, now) {
      NoneOverlooked(p, conns, counts, g, now, c);
      var a :| a in plan && a.id == c.id;
      assert Justified(p, conns, counts, g, now, a) && a == HealthAction(c.id, a.kind);
    }
  }
}
