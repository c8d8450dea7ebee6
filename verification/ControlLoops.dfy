/** The control loop as an object: each method of one lock-held section is proved to do exactly what the matching
    step of the fleet state machine says, so every property of runs holds of sequences of its calls. */
module ControlLoops {
  import opened Basics
  import opened Policies
  import opened Decider
  import opened Fleet
  import opened Effects
  import opened Steps
  import opened Aggregators
  import opened Triggers
  import opened StateStores
  import opened Platforms
  import FleetTeardown

  class ControlLoop {
    const policy: Policy
    const store: StateStore
    const platform: Platform
    const aggregator: Aggregator
    /** Old connector to its replacement in flight, and the order in which they were registered. */
    var pending: map<Id, Pending>
    var order: seq<Id>
    /** Drains in flight, by start time. */
    var draining: map<Id, int>
    var firstSeen: map<Id, int>
    var firstUnhealthy: map<Id, int>
    ghost var clock: int
    ghost var trace: seq<Event>
    ghost var sightings: seq<Sighting>
    ghost var boot: nat

    /** The state of the fleet state machine that this object and its collaborators are in. */
    ghost function State(): World
      reads this, store, platform
    {
      World(platform.Contents(), store.Contents(), Memory(pending, order, draining, firstSeen, firstUnhealthy),
            trace, sightings, boot, clock)
    }

    ghost predicate Valid()
      reads this, store, platform
    {
      Sound(State())
    }

    /** A new manager process, knowing nothing but what the store and the platform hold; `past` is the world
        that the previous one left. */
    constructor (policy: Policy, store: StateStore, platform: Platform, aggregator: Aggregator, ghost past: World)
      requires past.cloud == platform.Contents() && past.store == store.Contents()
      ensures this.policy == policy && this.store == store && this.platform == platform && this.aggregator == aggregator
      ensures State() == Reboot(past)
    {
      this.policy, this.store, this.platform, this.aggregator := policy, store, platform, aggregator;
      pending, order, draining, firstSeen, firstUnhealthy := map[], [], map[], map[], map[];
      clock, trace, sightings, boot := past.clock, past.trace, past.sightings, |past.sightings|;
    }

    // --- provision and drain ---------------------------------------------------------

    /** Create, mint, start: a failure at any step is recorded and yields none. */
    method ProvisionOne(at: int, f: Faults) returns (id: Option<Id>)
      modifies this`trace, store, platform
      ensures (State(), id) == Fleet.ProvisionOne(old(State()), at, f)
    {
      id := platform.CreateConnector(f);
      if id.None? {
        store.RecordAction(Row(at, Provision, None, false));
        return None;
      }
      trace := trace + [Created(id.value, at)];
      var minted := platform.GenerateTokens(id.value, f);
      if !minted {
        store.RecordAction(Row(at, Provision, None, false));
        return None;
      }
      var started := platform.StartContainer(id.value, f);
      if !started {
        store.RecordAction(Row(at, Provision, None, false));
        return None;
      }
      trace := trace + [Started(id.value, at)];
      store.RecordAction(Row(at, Provision, id, true));
    }

    /** Stop routing now; the rest of the drain follows in the background. */
    method DeprovisionOne(id: Id, subject: Id, at: int, f: Faults, ghost cause: Cause) returns (ok: bool)
      modifies this`trace, this`draining, store, platform
      ensures (State(), ok) == Fleet.DeprovisionOne(old(State()), id, subject, at, f, cause)
    {
      ok := platform.DeleteConnector(id, subject, f);
      if !ok {
        store.RecordAction(Row(at, Deprovision, Some(id), false));
        return;
      }
      draining := draining[id := at];
      trace := trace + [Deleted(id, at, cause)];
    }

    /** The drain's slot is released whether or not the container could be removed. */
    method FinishDrain(id: Id, at: int, works: bool)
      requires id in draining
      modifies this`trace, this`draining, store, platform
      ensures State() == Fleet.FinishDrain(old(State()), id, at, works)
    {
      var started := draining[id];
      var removed := platform.RemoveContainer(id, works);
      store.RecordAction(Row(started, Deprovision, Some(id), removed));
      if removed {
        store.SetCordon(id, false);
        trace := trace + [Removed(id, at)];
      }
      draining := draining - {id};
    }

    // --- timers ------------------------------------------------------------------------

    method UpdateFirstSeen(fleet: seq<Conn>, now: int)
      modifies this`firstSeen
      ensures firstSeen == Timers(old(firstSeen), Ids(fleet), now)
    {
      var present := Ids(fleet);
      var todo := present;
      while todo != {}
        invariant todo <= present
        invariant firstSeen == old(firstSeen) + (map id | id in present - todo && id !in old(firstSeen) :: now)
        decreases todo
      {
        var id :| id in todo;
        if id !in firstSeen {
          firstSeen := firstSeen[id := now];
        }
        todo := todo - {id};
      }
      var gone := firstSeen.Keys - present;
      firstSeen := firstSeen - gone;
    }

    method UpdateFirstUnhealthy(fleet: seq<Conn>, now: int)
      requires DistinctIds(fleet)
      modifies this`firstUnhealthy
      ensures firstUnhealthy == Timers(old(firstUnhealthy), UnhealthyIds(fleet), now)
    {
      for i := 0 to |fleet|
        invariant forall id :: id in firstUnhealthy <==>
          id in UnhealthyIds(fleet[..i]) || (id in old(firstUnhealthy) && id !in Ids(fleet[..i]))
        invariant forall id :: id in firstUnhealthy ==>
          firstUnhealthy[id] == if id in old(firstUnhealthy) then old(firstUnhealthy)[id] else now
      {
        var c := fleet[i];
        assert fleet[..i + 1] == fleet[..i] + [c];
        NotYet(fleet, i);
        if IsUnhealthy(c) {
          if c.id !in firstUnhealthy {
            firstUnhealthy := firstUnhealthy[c.id := now];
          }
        } else {
          firstUnhealthy := firstUnhealthy - {c.id};
        }
      }
      assert fleet[..|fleet|] == fleet;
      var gone := firstUnhealthy.Keys - Ids(fleet);
      firstUnhealthy := firstUnhealthy - gone;
    }

    // --- scaling -----------------------------------------------------------------------

    /** Collects both ends of every pending replace, then takes the first eligible connectors. */
    method PickVictims(conns: seq<Conn>, count: nat, now: int) returns (victims: seq<Conn>)
      requires OrderOk(State())
      ensures victims == Fleet.PickVictims(policy, State().mem, conns, count, now)
    {
      var protected: set<Id> := {};
      for i := 0 to |order|
        invariant protected == ProtectedBy(pending, order[..i])
      {
        assert order[..i + 1] == order[..i] + [order[i]];
        assert order[i] in order;
        protected := protected + {order[i], pending[order[i]].newId};
      }
      assert order[..|order|] == order;
      ProtectedAll(State().mem);
      var eligible: seq<Conn> := [];
      for i := 0 to |conns|
        invariant eligible == Eligible(policy, State().mem, conns[..i], now)
      {
        assert conns[..i + 1][..i] == conns[..i];
        var c := conns[i];
        if !c.cordoned && c.id !in protected
           && !(policy.startupGrace > 0 && c.id in firstSeen && now - firstSeen[c.id] < policy.startupGrace) {
          eligible := eligible + [c];
        }
      }
      assert conns[..|conns|] == conns;
      victims := eligible[..Min(count, |eligible|)];
    }

    method ScaleUp(count: nat, at: int, f: Faults) returns (provisioned: nat)
      modifies this`trace, store, platform
      ensures (State(), provisioned) == ProvisionMany(old(State()), at, f, count)
    {
      provisioned := 0;
      for k := 0 to count
        invariant (State(), provisioned) == ProvisionMany(old(State()), at, f, k)
      {
        var id := ProvisionOne(at, f);
        if id.Some? {
          provisioned := provisioned + 1;
        }
      }
    }

    method DrainAll(victims: seq<Conn>, at: int, f: Faults, ghost cause: Cause) returns (started: nat)
      modifies this`trace, this`draining, store, platform
      ensures (State(), started) == DeprovisionAll(old(State()), victims, at, f, cause)
    {
      started := 0;
      for i := 0 to |victims|
        invariant (State(), started) == DeprovisionAll(old(State()), victims[..i], at, f, cause)
      {
        assert victims[..i + 1][..i] == victims[..i];
        var ok := DeprovisionOne(victims[i].id, victims[i].id, at, f, cause);
        if ok {
          started := started + 1;
        }
      }
      assert victims[..|victims|] == victims;
    }

    /** Only an effective action arms the cooldown. */
    method ActScale(d: Decision, conns: seq<Conn>, at: int, f: Faults)
      requires d.count >= 0 && OrderOk(State())
      modifies this`trace, this`draining, store, platform
      ensures State() == Fleet.ActScale(policy, old(State()), d, conns, at, f)
    {
      if d.direction == Up {
        var provisioned := ScaleUp(d.count, at, f);
        if provisioned > 0 {
          store.SetCooldown(true, at);
          trace := trace + [ScaledUp(at, provisioned, |conns| < policy.minConnectors)];
        }
      } else if d.direction == Down {
        var victims := PickVictims(conns, d.count, at);
        var removed := DrainAll(victims, at, f, ByScaleDown);
        if removed > 0 {
          store.SetCooldown(false, at);
          trace := trace + [ScaledDown(at, removed)];
        }
      }
    }

    // --- replaces ------------------------------------------------------------------------

    /** The replacement first; only then is the replace registered. */
    method BeginReplace(oldId: Id, at: int, f: Faults, manual: bool) returns (ok: bool)
      modifies this`trace, this`pending, this`order, store, platform
      ensures (State(), ok) == Fleet.BeginReplace(old(State()), oldId, at, f, manual)
    {
      var id := ProvisionOne(at, f);
      if id.None? {
        return false;
      }
      if oldId !in pending {
        order := order + [oldId];
      }
      pending := pending[oldId := Pending(id.value, at)];
      trace := trace + [ReplaceBegun(oldId, id.value, at, manual)];
      return true;
    }

    method Forget(oldId: Id)
      modifies this`pending, this`order
      ensures State() == DropPending(old(State()), oldId)
    {
      pending := pending - {oldId};
      order := Without(order, oldId);
    }

    method AdvanceOne(oldId: Id, conns: seq<Conn>, at: int, f: Faults)
      requires oldId in pending
      modifies this`trace, this`pending, this`order, this`draining, store, platform
      ensures State() == AdvanceReplace(policy, old(State()), conns, oldId, at, f)
    {
      var pend := pending[oldId];
      if oldId !in Ids(conns) {
        Forget(oldId);
        return;
      }
      if pend.newId in HealthyIds(conns) {
        var removed := DeprovisionOne(oldId, oldId, at, f, ByReplace(pend.newId));
        if removed {
          Forget(oldId);
        }
        store.RecordAction(Row(at, Replace, Some(oldId), removed));
        return;
      }
      if at - pend.startedAt >= policy.replaceTimeout {
        if pend.newId in Ids(conns) {
          var ok := DeprovisionOne(pend.newId, oldId, at, f, ByTimeout(oldId));
        }
        Forget(oldId);
      }
    }

    /** Visits the replaces that were pending when it began, in registration order. */
    method ProcessPendingReplaces(conns: seq<Conn>, at: int, f: Faults)
      modifies this`trace, this`pending, this`order, this`draining, store, platform
      ensures State() == ReplacePhase(policy, old(State()), conns, at, f)
    {
      var keys := order;
      for i := 0 to |keys|
        invariant State() == AdvanceReplaces(policy, old(State()), conns, keys[..i], at, f)
      {
        assert keys[..i + 1][..i] == keys[..i];
        if keys[i] in pending {
          AdvanceOne(keys[i], conns, at, f);
        }
      }
      assert keys[..|keys|] == keys;
    }

    // --- health --------------------------------------------------------------------------

    /** A restart attempt is recorded whether or not it works. */
    method RestartOne(id: Id, at: int, f: Faults)
      modifies store
      ensures State() == Remediate(old(State()), HealthAction(id, RestartInPlace), at, f)
    {
      var ok := platform.RestartContainer(id, f);
      store.RecordAction(Row(at, Restart, Some(id), ok));
    }

    method DecideHealth(conns: seq<Conn>, now: int) returns (actions: seq<HealthAction>)
      ensures actions == HealthPlan(policy, State(), conns, now)
    {
      var counts: map<Id, nat> := map[];
      for i := 0 to |conns|
        invariant counts == RestartCounts(policy, store.history, conns[..i], now)
      {
        assert conns[..i + 1] == conns[..i] + [conns[i]];
        if !conns[i].cordoned {
          var n := store.CountRecentRestarts(conns[i].id, now - policy.restartWindow);
          counts := counts[conns[i].id := n];
        }
      }
      assert conns[..|conns|] == conns;
      actions := Decider.DecideHealth(policy, conns, counts, Gates(firstSeen, firstUnhealthy, pending.Keys), now);
    }

    method ActHealth(actions: seq<HealthAction>, at: int, f: Faults)
      modifies this`trace, this`pending, this`order, store, platform
      ensures State() == RemediateAll(old(State()), actions, at, f)
    {
      for i := 0 to |actions|
        invariant State() == RemediateAll(old(State()), actions[..i], at, f)
      {
        assert actions[..i + 1][..i] == actions[..i];
        if actions[i].kind == RestartInPlace {
          RestartOne(actions[i].id, at, f);
        } else {
          var ok := BeginReplace(actions[i].id, at, f, false);
        }
      }
      assert actions[..|actions|] == actions;
    }

    // --- the lock-held sections ------------------------------------------------------------

    /** Marks cordons on what the platform and Twingate report. */
    method MarkCordons(reports: seq<Conn>) returns (fleet: seq<Conn>)
      ensures fleet == Discover(reports, store.cordons)
    {
      fleet := [];
      for i := 0 to |reports|
        invariant fleet == Discover(reports[..i], store.cordons)
      {
        assert reports[..i + 1][..i] == reports[..i];
        fleet := fleet + [reports[i].(cordoned := reports[i].id in store.cordons)];
      }
      assert reports[..|reports|] == reports;
    }

    method NotDraining(fleet: seq<Conn>) returns (conns: seq<Conn>)
      ensures conns == Active(fleet, draining)
    {
      conns := [];
      for i := 0 to |fleet|
        invariant conns == Active(fleet[..i], draining)
      {
        assert fleet[..i + 1][..i] == fleet[..i];
        conns := conns + if fleet[i].id in draining then [] else [fleet[i]];
      }
      assert fleet[..|fleet|] == fleet;
    }

    /** The fleet value of one signal over its own window. */
    method ReduceSignal(ids: seq<Id>, signal: Signal, rule: MetricRule, now: int) returns (fleet: Option<real>)
      requires Enumerates(ids, Elements(ids)) && (rule.agg.Pct? ==> rule.agg.nn <= 100)
      ensures fleet == FleetValue(aggregator.samples, ids, signal, now - rule.window, rule.agg)
    {
      fleet := aggregator.Reduce(ids, signal, rule.window, rule.agg, now);
    }

    /** The four windowed signals of the listed connectors. */
    method ReduceLoad(conns: seq<Conn>, now: int) returns (load: Load)
      requires policy.Valid() && DistinctIds(conns)
      ensures load == LoadOf(policy, aggregator.samples, IdList(conns), now)
    {
      var ids := IdList(conns);
      IdsOnce(conns);
      var cpu := ReduceSignal(ids, Cpu, policy.cpu, now);
      var throughput := ReduceSignal(ids, Throughput, policy.throughput, now);
      var cpuBy := aggregator.ReducePerConnector(ids, Cpu, policy.cpu.window, policy.cpu.agg, now);
      var throughputBy := aggregator.ReducePerConnector(ids, Throughput, policy.throughput.window,
                                                        policy.throughput.agg, now);
      load := Load(cpu, throughput, cpuBy, throughputBy);
    }

    /** Discovery's bookkeeping: the timers, and the sighting. */
    method Look(fleet: seq<Conn>, at: int)
      requires DistinctIds(fleet)
      modifies this`firstSeen, this`firstUnhealthy, this`sightings
      ensures State() == Observe(old(State()), fleet, at)
    {
      UpdateFirstSeen(fleet, at);
      UpdateFirstUnhealthy(fleet, at);
      sightings := sightings + [Sighting(at, Ids(fleet), UnhealthyIds(fleet), HealthyIds(fleet))];
    }

    method ScaleNow(conns: seq<Conn>, load: Load, at: int, f: Faults)
      requires policy.Valid() && OrderOk(State())
      modifies this`trace, this`draining, store, platform
      ensures State() == ScalePhase(policy, old(State()), conns, load, at, f)
    {
      DecisionRails(policy, load, |conns|, store.lastUp, store.lastDown, at, pending != map[]);
      var d := Decide(policy, load, |conns|, store.lastUp, store.lastDown, at, pending != map[]);
      ActScale(d, conns, at, f);
    }

    /** Scale, advance the replaces, remediate, all on one list. */
    method ActOn(conns: seq<Conn>, load: Load, at: int, f: Faults)
      requires policy.Valid() && OrderOk(State())
      modifies this`trace, this`pending, this`order, this`draining, store, platform
      ensures State() == Act(policy, old(State()), conns, load, at, f)
    {
      ScaleNow(conns, load, at, f);
      ProcessPendingReplaces(conns, at, f);
      var actions := DecideHealth(conns, at);
      ActHealth(actions, at, f);
    }

    /** Discovery: the bookkeeping, and the connectors not in mid-drain. */
    method Survey(at: int, reports: seq<Conn>) returns (conns: seq<Conn>)
      requires DistinctIds(reports)
      modifies this`clock, this`firstSeen, this`firstUnhealthy, this`sightings
      ensures State() == Observe(Tick(old(State()), at), FleetOf(old(State()), reports), at)
      ensures conns == ActiveOf(old(State()), reports) && DistinctIds(conns)
    {
      clock := at;
      DiscoverExact(reports, store.cordons);
      var fleet := MarkCordons(reports);
      ActiveExact(fleet, draining);
      Look(fleet, at);
      conns := NotDraining(fleet);
    }

    method CollectSamples(batch: seq<Sample>, at: int)
      requires aggregator.Valid()
      modifies aggregator
      ensures aggregator.Valid()
      ensures aggregator.samples == Pruned(Ingested(old(aggregator.samples), batch), at - aggregator.retention)
    {
      aggregator.Ingest(batch);
      aggregator.Prune(at);
    }

    method CycleOn(at: int, reports: seq<Conn>, batch: seq<Sample>, f: Faults)
      requires policy.Valid() && aggregator.Valid() && OrderOk(State()) && DistinctIds(reports)
      modifies this, store, platform, aggregator
      ensures aggregator.Valid()
      ensures aggregator.samples == Pruned(Ingested(old(aggregator.samples), batch), at - aggregator.retention)
      ensures var load := LoadOf(policy, aggregator.samples, IdList(ActiveOf(old(State()), reports)), at);
              State() == CycleStep(policy, old(State()), at, reports, load, f)
    {
      var conns := Survey(at, reports);
      CollectSamples(batch, at);
      var load := ReduceLoad(conns, at);
      ActOn(conns, load, at, f);
    }

    /** One cycle. When discovery fails nothing else happens. */
    method RunCycle(at: int, reports: Option<seq<Conn>>, batch: seq<Sample>, f: Faults)
      requires policy.Valid() && Valid() && aggregator.Valid() && clock <= at
      requires reports.Some? ==> Accurate(State(), reports.value)
      modifies this, store, platform, aggregator
      ensures Valid() && aggregator.Valid()
      ensures reports.None? ==> State() == Tick(old(State()), at) && aggregator.samples == old(aggregator.samples)
      ensures reports.Some? ==>
                && aggregator.samples == Pruned(Ingested(old(aggregator.samples), batch), at - aggregator.retention)
                && var load := LoadOf(policy, aggregator.samples, IdList(ActiveOf(old(State()), reports.value)), at);
                   State() == CycleStep(policy, old(State()), at, reports.value, load, f)
    {
      if reports.None? {
        clock := at;
      } else {
        CycleOn(at, reports.value, batch, f);
        CycleSound(policy, old(State()), at, reports.value,
                   LoadOf(policy, aggregator.samples, IdList(ActiveOf(old(State()), reports.value)), at), f);
      }
    }

    // --- overrides -------------------------------------------------------------------------

    method AddOne(conns: seq<Conn>, at: int, f: Faults) returns (ok: bool)
      modifies this`trace, store, platform
      ensures (State(), ok) == if |conns| >= policy.maxConnectors then (old(State()), false)
                               else match Fleet.ProvisionOne(old(State()), at, f)
                                 case (after, None) => (after, false)
                                 case (after, Some(_)) => (ArmUp(after, at), true)
    {
      if |conns| >= policy.maxConnectors {
        return false;
      }
      var id := ProvisionOne(at, f);
      if id.Some? {
        store.SetCooldown(true, at);
      }
      return id.Some?;
    }

    /** The floor is checked against the raw count, replaces in flight included. */
    method DropOne(conns: seq<Conn>, at: int, f: Faults) returns (ok: bool)
      requires OrderOk(State())
      modifies this`trace, this`draining, store, platform
      ensures var victims := Fleet.PickVictims(policy, old(State()).mem, conns, 1, at);
              if |conns| <= policy.minConnectors || victims == [] then (State(), ok) == (old(State()), false)
              else
                var (after, gone) := Fleet.DeprovisionOne(old(State()), victims[0].id, victims[0].id, at, f, ByManual);
                (State(), ok) == (if gone then ArmDown(after, at) else after, gone)
    {
      if |conns| <= policy.minConnectors {
        return false;
      }
      var victims := PickVictims(conns, 1, at);
      if victims == [] {
        return false;
      }
      ok := DeprovisionOne(victims[0].id, victims[0].id, at, f, ByManual);
      if ok {
        store.SetCooldown(false, at);
      }
    }

    method ManualScale(up: bool, at: int, reports: seq<Conn>, f: Faults) returns (ok: bool)
      requires Valid() && Accurate(State(), reports) && clock <= at
      modifies this`clock, this`trace, this`draining, store, platform
      ensures Valid()
      ensures up ==> (State(), ok) == ManualUp(policy, Tick(old(State()), at), at, reports, f)
      ensures !up ==> (State(), ok) == ManualDown(policy, Tick(old(State()), at), at, reports, f)
    {
      clock := at;
      OverrideSound(policy, old(State()), at, reports, f);
      var fleet := MarkCordons(reports);
      var conns := NotDraining(fleet);
      if up {
        ok := AddOne(conns, at, f);
      } else {
        ok := DropOne(conns, at, f);
      }
    }

    method ManualReplace(id: Id, at: int, reports: seq<Conn>, f: Faults) returns (ok: bool)
      requires Valid() && Accurate(State(), reports) && clock <= at
      modifies this`clock, this`trace, this`pending, this`order, store, platform
      ensures Valid()
      ensures (State(), ok) == Fleet.ManualReplace(Tick(old(State()), at), id, at, reports, f)
    {
      clock := at;
      assert Good(x => true, old(State()));
      Do(policy, x => true, old(State()), Pass(at));
      HandReplaceKeeps(policy, x => true, State(), id, reports, f);
      var fleet := MarkCordons(reports);
      if id !in Ids(fleet) || id in pending {
        return false;
      }
      ok := BeginReplace(id, at, f, true);
    }

    method ManualCordon(id: Id, cordoned: bool, at: int, reports: seq<Conn>) returns (ok: bool)
      requires Valid() && Accurate(State(), reports) && clock <= at
      modifies this`clock, store
      ensures Valid()
      ensures (State(), ok) == Fleet.ManualCordon(Tick(old(State()), at), id, cordoned, at, reports)
    {
      clock := at;
      var fleet := MarkCordons(reports);
      if cordoned && id !in Ids(fleet) {
        return false;
      }
      store.SetCordon(id, cordoned);
      store.RecordAction(Row(at, if cordoned then Cordon else Uncordon, Some(id), true));
      return true;
    }

    // --- shutdown --------------------------------------------------------------------------

    /** The end of one background drain, once its grace is over. */
    method DrainTail(id: Id, at: int, works: bool)
      requires Valid() && clock <= at && id in draining && draining[id] + policy.drainGrace <= at
      modifies this`clock, this`trace, this`draining, store, platform
      ensures Valid() && State() == Fleet.FinishDrain(Tick(old(State()), at), id, at, works)
    {
      clock := at;
      TailSound(policy, old(State()), id, at, works);
      FinishDrain(id, at, works);
    }

    /** The drains in flight when it is called finish one at a time, each under the lock, in whatever order;
        `works` says which containers can be removed. */
    method AwaitPendingDrains(at: int, works: Id -> bool)
      requires Valid() && clock <= at && forall id :: id in draining ==> draining[id] + policy.drainGrace <= at
      modifies this`clock, this`trace, this`draining, store, platform
      ensures Valid() && draining == map[]
      ensures platform.containers == Undrainable(old(platform.containers), old(draining), draining, works)
      ensures platform.logical == old(platform.logical)
    {
      var tasks := draining.Keys;
      while tasks != {}
        invariant Valid() && clock <= at && tasks == draining.Keys
        invariant forall id :: id in draining ==> id in old(draining) && draining[id] + policy.drainGrace <= at
        invariant platform.containers == Undrainable(old(platform.containers), old(draining), draining, works)
        invariant platform.logical == old(platform.logical)
        decreases tasks
      {
        var id :| id in tasks;
        DrainTail(id, at, works(id));
        tasks := tasks - {id};
      }
      assert draining.Keys == {};
    }

    /** Drains every active connector, whatever the floor. */
    method StartTeardown(at: int, reports: seq<Conn>, f: Faults) returns (started: nat)
      requires Valid() && Accurate(State(), reports) && clock <= at
      modifies this`clock, this`trace, this`draining, store, platform
      ensures Valid() && clock == at
      ensures (State(), started) == TeardownStart(Tick(old(State()), at), at, reports, f)
    {
      clock := at;
      assert Good(x => true, old(State()));
      Do(policy, x => true, old(State()), Pass(at));
      TeardownKeeps(policy, x => true, State(), reports, f);
      var fleet := MarkCordons(reports);
      var conns := NotDraining(fleet);
      started := DrainAll(conns, at, f, ByTeardown);
    }

    /** Starts the drains and returns only once none is in flight. What remains are the containers that no
        drain was started for and those that could not be removed. */
    method TeardownFleet(at: int, reports: seq<Conn>, f: Faults, end: int, works: Id -> bool) returns (started: nat)
      requires Valid() && Accurate(State(), reports) && clock <= at
      requires at + policy.drainGrace <= end && policy.drainGrace >= 0
      requires forall id :: id in draining ==> draining[id] + policy.drainGrace <= end
      modifies this`clock, this`trace, this`draining, store, platform
      ensures Valid() && draining == map[]
      ensures started == TeardownStart(Tick(old(State()), at), at, reports, f).1
      ensures platform.containers ==
              set id | id in old(platform.containers) && (FleetTeardown.LeftOut(old(State()), f, id) || !works(id))
    {
      started := StartTeardown(at, reports, f);
      TeardownBegun(policy, old(State()), at, reports, f, end);
      AwaitPendingDrains(end, works);
    }
  }

  lemma NotYet(fleet: seq<Conn>, i: nat)
    requires DistinctIds(fleet) && i < |fleet|
    ensures fleet[i].id !in Ids(fleet[..i])
  {
  }

  function ProtectedBy(pending: map<Id, Pending>, keys: seq<Id>): set<Id>
    requires forall k :: k in keys ==> k in pending
  {
    Elements(keys) + set k | k in keys :: pending[k].newId
  }

  lemma ProtectedAll(m: Memory)
    requires forall o :: o in m.order <==> o in m.pending
    ensures ProtectedBy(m.pending, m.order) == Protected(m)
  {
  }

  function IdList(conns: seq<Conn>): (ids: seq<Id>)
    ensures |ids| == |conns| && forall i :: 0 <= i < |ids| ==> ids[i] == conns[i].id
  {
    seq(|conns|, i requires 0 <= i < |conns| => conns[i].id)
  }

  lemma IdsOnce(conns: seq<Conn>)
    requires DistinctIds(conns)
    ensures Enumerates(IdList(conns), Elements(IdList(conns)))
  {
  }

  lemma CycleSound(p: Policy, w: World, at: int, reports: seq<Conn>, load: Load, f: Faults)
    requires p.Valid() && Sound(w) && Accurate(w, reports) && w.clock <= at
    ensures Sound(CycleStep(p, w, at, reports, load, f))
  {
    assert Good(x => true, w);
    CycleKeeps(p, x => true, w, at, reports, load, f);
  }

  lemma OverrideSound(p: Policy, w: World, at: int, reports: seq<Conn>, f: Faults)
    requires Sound(w) && w.clock <= at && Accurate(w, reports)
    ensures var now := Tick(w, at);
            Sound(now) && Sound(ManualUp(p, now, at, reports, f).0) && Sound(ManualDown(p, now, at, reports, f).0)
  {
    var now, inv := Tick(w, at), (x: World) => true;
    assert Good(inv, w) && Keeps(p, inv);
    Do(p, inv, w, Pass(at));
    HandUpKeeps(p, inv, now, reports, f);
    HandDownKeeps(p, inv, now, reports, f);
  }

  /** Every drain teardown starts begins now. */
  lemma {:induction false} TeardownTimes(w: World, victims: seq<Conn>, at: int, f: Faults)
    ensures var v := DeprovisionAll(w, victims, at, f, ByTeardown).0;
            forall id :: id in v.mem.draining ==>
              v.mem.draining[id] == at || (id in w.mem.draining && v.mem.draining[id] == w.mem.draining[id])
  {
    if victims != [] {
      TeardownTimes(w, victims[..|victims| - 1], at, f);
    }
  }

  /** The containers left once the drains `before` have shrunk to `after`. */
  function Undrainable(containers: set<Id>, before: map<Id, int>, after: map<Id, int>, works: Id -> bool): set<Id> {
    set id | id in containers && (id !in before || id in after || !works(id))
  }

  lemma TailSound(p: Policy, w: World, id: Id, at: int, works: bool)
    requires Sound(w) && w.clock <= at && id in w.mem.draining && w.mem.draining[id] + p.drainGrace <= at
    ensures Sound(Fleet.FinishDrain(Tick(w, at), id, at, works))
  {
    SoundKept(p, w, Pass(at));
    SoundKept(p, Tick(w, at), Drained(id, works));
  }

  lemma TeardownBegun(p: Policy, w: World, at: int, reports: seq<Conn>, f: Faults, end: int)
    requires Sound(w) && Accurate(w, reports) && w.clock <= at && at + p.drainGrace <= end
    requires forall id :: id in w.mem.draining ==> w.mem.draining[id] + p.drainGrace <= end
    ensures var v := TeardownStart(Tick(w, at), at, reports, f).0;
            && v.cloud.containers == w.cloud.containers
            && (forall id :: id in v.mem.draining <==> id in w.cloud.containers && !FleetTeardown.LeftOut(w, f, id))
            && (forall id :: id in v.mem.draining ==> v.mem.draining[id] + p.drainGrace <= end)
  {
    var now := Tick(w, at);
    FleetTeardown.TeardownDrains(p, now, at, reports, f);
    TeardownTimes(now, ActiveOf(now, reports), at, f);
  }
}
