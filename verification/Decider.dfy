/** Scale and health decisions: pure given the signals, the persisted timers and the observed fleet. */
module Decider {
  import opened Basics
  import opened Policies

  type Id = nat

  datatype TwingateState = Alive | DeadNoHeartbeat | DeadHeartbeatTooOld | DeadNoRelays

  datatype DockerHealth = Healthy | Unhealthy | Starting

  /** One connector as discovery reports it. */
  datatype Conn = Conn(
    id: Id,
    state: Option<TwingateState>,
    hasHeartbeat: bool,
    docker: Option<DockerHealth>,
    cordoned: bool)

  function Ids(conns: seq<Conn>): set<Id> { set c | c in conns :: c.id }

  ghost predicate DistinctIds(conns: seq<Conn>) {
    forall i, j :: 0 <= i < j < |conns| ==> conns[i].id != conns[j].id
  }

  // --- scaling ---------------------------------------------------------------

  /** The windowed signals of one cycle: fleet values and per-connector values. */
  datatype Load = Load(
    cpu: Option<real>,
    throughput: Option<real>,
    cpuBy: map<Id, real>,
    throughputBy: map<Id, real>)

  datatype Direction = Up | Down | Stay

  datatype Decision = Decision(direction: Direction, count: int)

  /** Smallest integer at or above `x`. */
  function Ceil(x: real): int { -((-x).Floor) }

  function QuorumThreshold(p: Policy, count: int): int {
    Max(1, Ceil(p.quorumFraction * count as real))
  }

  /** The scale-up trigger, by mode. */
  predicate Triggered(p: Policy, load: Load, count: int) {
    match p.trigger
    case Mean => IsHighLoad(p, load.cpu, load.throughput)
    case Any => |HotIds(p, load.cpuBy, load.throughputBy)| >= 1
    case Quorum => |HotIds(p, load.cpuBy, load.throughputBy)| >= QuorumThreshold(p, count)
  }

  /** One scale decision: floor fill, then replace suppression, then scale-up before scale-down. */
  function DecideScale(p: Policy, load: Load, count: int, lastUp: Option<int>, lastDown: Option<int>,
                       now: int, replacePending: bool): Decision
  {
    var fill := FloorFillCount(p, count);
    if fill > 0 then Decision(Up, fill)
    else if replacePending then Decision(Stay, 0)
    else if Triggered(p, load, count) then
      var k := ScaleUpCount(p, count);
      if k == 0 || CooldownRemaining(lastUp, p.upCooldown, now) > 0 then Decision(Stay, 0)
      else Decision(Up, k)
    else if IsLowLoad(p, load.cpu, load.throughput) then
      var k := ScaleDownCount(p, count);
      if k == 0 || CooldownRemaining(lastDown, p.downCooldown, now) > 0 then Decision(Stay, 0)
      else Decision(Down, k)
    else Decision(Stay, 0)
  }

  lemma CeilExact(x: real, n: int)
    ensures n >= Ceil(x) <==> n as real >= x
  {
    var m := (-x).Floor;
    assert m as real <= -x < m as real + 1.0;
    if n >= -m {
      assert n as real >= (-m) as real;
    } else {
      assert n as real <= (-m - 1) as real;
    }
  }

  /** A quorum is at least one hot connector, and at least the fraction of the fleet. */
  lemma QuorumExact(p: Policy, load: Load, count: int)
    requires p.trigger == Quorum
    ensures var k := |HotIds(p, load.cpuBy, load.throughputBy)|;
            Triggered(p, load, count) <==> k >= 1 && k as real >= p.quorumFraction * count as real
  {
    CeilExact(p.quorumFraction * count as real, |HotIds(p, load.cpuBy, load.throughputBy)|);
  }

  /** The same decision taken step by step, counting the hot connectors. */
  method Decide(p: Policy, load: Load, count: int, lastUp: Option<int>, lastDown: Option<int>, now: int,
                replacePending: bool)
    returns (d: Decision)
    ensures d == DecideScale(p, load, count, lastUp, lastDown, now, replacePending)
  {
    var fill := FloorFillCount(p, count);
    if fill > 0 {
      return Decision(Up, fill);
    }
    if replacePending {
      return Decision(Stay, 0);
    }
    var high;
    match p.trigger {
      case Mean => high := IsHighLoad(p, load.cpu, load.throughput);
      case Any =>
        var hot, _ := CountOverHighWatermark(p, load.cpuBy, load.throughputBy);
        high := hot >= 1;
      case Quorum =>
        var hot, _ := CountOverHighWatermark(p, load.cpuBy, load.throughputBy);
        high := hot >= QuorumThreshold(p, count);
    }
    if high {
      var k := ScaleUpCount(p, count);
      if k == 0 || CooldownRemaining(lastUp, p.upCooldown, now) > 0 {
        return Decision(Stay, 0);
      }
      return Decision(Up, k);
    }
    if IsLowLoad(p, load.cpu, load.throughput) {
      var k := ScaleDownCount(p, count);
      if k == 0 || CooldownRemaining(lastDown, p.downCooldown, now) > 0 {
        return Decision(Stay, 0);
      }
      return Decision(Down, k);
    }
    return Decision(Stay, 0);
  }

  /** The safety rails of a decision: a scale-down stops at the floor, never overlaps a replace, waits
      out its cooldown and sees no trigger; a scale-up stops at the ceiling, or restores the floor
      exactly, and only then skips the cooldown. */
  lemma DecisionRails(p: Policy, load: Load, count: int, lastUp: Option<int>, lastDown: Option<int>,
                      now: int, replacePending: bool)
    requires p.Valid() && count >= 0
    ensures var d := DecideScale(p, load, count, lastUp, lastDown, now, replacePending);
            && d.count >= 0
            && (d.direction == Stay <==> d.count == 0)
            && (d.direction == Down ==>
                  && !replacePending && d.count <= p.scaleStep && count - d.count >= p.minConnectors
                  && !Triggered(p, load, count)
                  && (lastDown.Some? ==> now - lastDown.value >= p.downCooldown))
            && (d.direction == Up && count < p.minConnectors ==> count + d.count == p.minConnectors)
            && (d.direction == Up && count >= p.minConnectors ==>
                  && !replacePending && d.count <= p.scaleStep && count + d.count <= p.maxConnectors
                  && (lastUp.Some? ==> now - lastUp.value >= p.upCooldown))
            && (count < p.minConnectors ==> d.direction == Up)
  {
  }

  // --- health ----------------------------------------------------------------

  /** Twingate reports a dead state, or the container health check fails. */
  predicate IsUnhealthy(c: Conn) {
    || (c.state.Some? && c.state.value != Alive)
    || c.docker == Some(Unhealthy)
  }

  /** Continuously unhealthy for the threshold; a zero threshold disables the gate. */
  predicate UnhealthyLongEnough(p: Policy, c: Conn, firstUnhealthy: map<Id, int>, now: int) {
    || p.unhealthyThreshold <= 0
    || (c.id in firstUnhealthy && now - firstUnhealthy[c.id] >= p.unhealthyThreshold)
  }

  /** Never heartbeated, not failing its health check, and first seen less than the grace ago. */
  predicate InStartupGrace(p: Policy, c: Conn, firstSeen: map<Id, int>, now: int) {
    && p.startupGrace > 0
    && c.state == Some(DeadNoHeartbeat)
    && !c.hasHeartbeat
    && c.docker != Some(Unhealthy)
    && c.id in firstSeen
    && now - firstSeen[c.id] < p.startupGrace
  }

  datatype Kind = RestartInPlace | ReplaceNew

  datatype HealthAction = HealthAction(id: Id, kind: Kind)

  /** The per-run memory that gates remediation. */
  datatype Gates = Gates(firstSeen: map<Id, int>, firstUnhealthy: map<Id, int>, replacing: set<Id>)

  /** Every gate that must open before a connector is remediated. */
  predicate Remediable(p: Policy, c: Conn, g: Gates, now: int) {
    && !c.cordoned
    && c.id !in g.replacing
    && IsUnhealthy(c)
    && !InStartupGrace(p, c, g.firstSeen, now)
    && UnhealthyLongEnough(p, c, g.firstUnhealthy, now)
  }

  function CountOf(counts: map<Id, nat>, id: Id): nat {
    if id in counts then counts[id] else 0
  }

  /** What one connector gets: nothing, a restart, or past the restart budget a replace. */
  function Verdict(p: Policy, c: Conn, counts: map<Id, nat>, g: Gates, now: int): seq<HealthAction> {
    if !Remediable(p, c, g, now) then []
    else [HealthAction(c.id, if CountOf(counts, c.id) >= p.maxRestarts then ReplaceNew else RestartInPlace)]
  }

  function HealthActions(p: Policy, conns: seq<Conn>, counts: map<Id, nat>, g: Gates, now: int): seq<HealthAction> {
    if conns == [] then []
    else
      HealthActions(p, conns[..|conns| - 1], counts, g, now) + Verdict(p, conns[|conns| - 1], counts, g, now)
  }

  /** Appends one action per remediable connector, in fleet order. */
  method DecideHealth(p: Policy, conns: seq<Conn>, counts: map<Id, nat>, g: Gates, now: int)
    returns (actions: seq<HealthAction>)
    ensures actions == HealthActions(p, conns, counts, g, now)
  {
    actions := [];
    for i := 0 to |conns|
      invariant actions == HealthActions(p, conns[..i], counts, g, now)
    {
      var c := conns[i];
      assert conns[..i + 1][..i] == conns[..i];
      if c.cordoned || c.id in g.replacing || !IsUnhealthy(c) {
        continue;
      }
      if InStartupGrace(p, c, g.firstSeen, now) || !UnhealthyLongEnough(p, c, g.firstUnhealthy, now) {
        continue;
      }
      if CountOf(counts, c.id) >= p.maxRestarts {
        actions := actions + [HealthAction(c.id, ReplaceNew)];
      } else {
        actions := actions + [HealthAction(c.id, RestartInPlace)];
      }
    }
    assert conns[..|conns|] == conns;
  }

  /** The action `a` answers a connector of the fleet whose every gate is open, and is a replace exactly
      when that connector's restart budget is spent. */
  ghost predicate Justified(p: Policy, conns: seq<Conn>, counts: map<Id, nat>, g: Gates, now: int, a: HealthAction) {
    exists c :: c in conns && c.id == a.id && Remediable(p, c, g, now) &&
                (a.kind == ReplaceNew <==> CountOf(counts, a.id) >= p.maxRestarts)
  }

  lemma {:induction false} ActionsJustified(p: Policy, conns: seq<Conn>, counts: map<Id, nat>, g: Gates, now: int)
    ensures forall a :: a in HealthActions(p, conns, counts, g, now) ==> Justified(p, conns, counts, g, now, a)
  {
    if conns != [] {
      var init, last := conns[..|conns| - 1], conns[|conns| - 1];
      ActionsJustified(p, init, counts, g, now);
      forall a | a in HealthActions(p, conns, counts, g, now)
        ensures Justified(p, conns, counts, g, now, a)
      {
        if a in HealthActions(p, init, counts, g, now) {
          assert Justified(p, init, counts, g, now, a);
        } else {
          assert last in conns;
        }
      }
    }
  }

  ghost predicate DistinctTargets(acts: seq<HealthAction>) {
    forall i, j :: 0 <= i < j < |acts| ==> acts[i].id != acts[j].id
  }

  /** No connector gets two actions in one cycle. */
  lemma {:induction false} OneActionEach(p: Policy, conns: seq<Conn>, counts: map<Id, nat>, g: Gates, now: int)
    requires DistinctIds(conns)
    ensures DistinctTargets(HealthActions(p, conns, counts, g, now))
  {
    if conns != [] {
      var init, last := conns[..|conns| - 1], conns[|conns| - 1];
      OneActionEach(p, init, counts, g, now);
      ActionsJustified(p, init, counts, g, now);
      var before := HealthActions(p, init, counts, g, now);
      forall i | 0 <= i < |before|
        ensures before[i].id != last.id
      {
        assert before[i] in before && Justified(p, init, counts, g, now, before[i]);
      }
    }
  }

  /** Every connector whose gates are all open is acted on. */
  lemma {:induction false} NoneOverlooked(p: Policy, conns: seq<Conn>, counts: map<Id, nat>, g: Gates, now: int,
                                          c: Conn)
    requires c in conns && Remediable(p, c, g, now)
    ensures exists a :: a in HealthActions(p, conns, counts, g, now) && a.id == c.id
  {
    var init, last := conns[..|conns| - 1], conns[|conns| - 1];
    var before := HealthActions(p, init, counts, g, now);
    if c == last {
      assert Verdict(p, last, counts, g, now)[0] in HealthActions(p, conns, counts, g, now);
    } else {
      NoneOverlooked(p, init, counts, g, now, c);
      var a :| a in before && a.id == c.id;
      assert a in HealthActions(p, conns, counts, g, now);
    }
  }
}
