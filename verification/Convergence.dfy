/** How fast the active count reaches a bound: the floor is restored at once, persistent load drives the count to
    the floor or the ceiling step by step, and when a scale-down is blocked. */
module Convergence {
  import opened Basics
  import opened Policies
  import opened Decider
  import opened Fleet
  import opened Effects
  import opened Steps
  import opened Completions
  import opened Remedies
  import opened Floor

  /** Containers that are not draining: what the autoscaler counts. */
  function ActiveSet(w: World): set<Id> { set id | id in w.cloud.containers && id !in w.mem.draining }

  lemma CountIsActive(w: World, conns: seq<Conn>)
    requires DistinctIds(conns) && Undrained(w, conns)
    ensures |conns| == |ActiveSet(w)|
  {
    DistinctCount(conns);
    assert Ids(conns) == ActiveSet(w);
  }

  // --- one calm cycle ------------------------------------------------------------

  /** No replace is pending and no listed connector is due for one. Restarts in place may be. */
  ghost predicate Calm(p: Policy, w: World, at: int, reports: seq<Conn>) {
    && w.mem.pending == map[] && w.mem.order == []
    && forall c :: c in ActiveOf(w, reports) ==> !BudgetSpent(p, w, GatesNow(w, reports, at), c, at)
  }

  /** Restarting in place changes neither the inventories, nor the memory, nor the cooldowns. */
  ghost predicate OnlyRows(w: World, v: World) {
    && v.cloud == w.cloud && v.mem == w.mem && v.clock == w.clock
    && v.store == w.store.(history := v.store.history)
  }

  lemma {:induction false} RestartsOnlyRows(w: World, actions: seq<HealthAction>, at: int, f: Faults)
    requires forall a :: a in actions ==> a.kind == RestartInPlace
    ensures OnlyRows(w, RemediateAll(w, actions, at, f))
  {
    if actions != [] {
      RestartsOnlyRows(w, actions[..|actions| - 1], at, f);
      assert actions[|actions| - 1] in actions;
    }
  }

  lemma CalmPlan(p: Policy, w: World, v: World, at: int, reports: seq<Conn>)
    requires Accurate(w, reports) && Calm(p, w, at, reports) && Prelude(SeenWorld(w, at, reports), v)
    ensures forall a :: a in HealthPlan(p, v, ActiveOf(w, reports), at) ==> a.kind == RestartInPlace
  {
    var conns := ActiveOf(w, reports);
    var counts := RestartCounts(p, v.store.history, conns, at);
    ActionsJustified(p, conns, counts, GatesOf(v.mem), at);
    forall a | a in HealthPlan(p, v, conns, at)
      ensures a.kind == RestartInPlace
    {
      assert Justified(p, conns, counts, GatesOf(v.mem), at, a);
      var c :| c in conns && c.id == a.id;
      PlanNow(p, w, v, at, reports, c);
      assert a == HealthAction(c.id, a.kind);
    }
  }

  /** A calm cycle does what its scale phase does. */
  lemma CalmCycle(p: Policy, w: World, at: int, reports: seq<Conn>, load: Load, f: Faults)
    requires Accurate(w, reports) && Calm(p, w, at, reports)
    ensures OnlyRows(ScalePhase(p, SeenWorld(w, at, reports), ActiveOf(w, reports), load, at, f),
                     CycleStep(p, w, at, reports, load, f))
  {
    var conns := ActiveOf(w, reports);
    var seen := SeenWorld(w, at, reports);
    var scaled := ScalePhase(p, seen, conns, load, at, f);
    ScalePrelude(p, seen, conns, load, at, f);
    ScaleOnlyScales(p, seen, conns, load, at, f);
    assert ReplacePhase(p, scaled, conns, at, f) == scaled;
    CalmPlan(p, w, scaled, at, reports);
    RestartsOnlyRows(scaled, HealthPlan(p, scaled, conns, at), at, f);
  }

  /** Looking changes neither the inventories, nor the drains, nor the cooldowns. */
  lemma SeenSame(w: World, at: int, reports: seq<Conn>)
    ensures var seen := SeenWorld(w, at, reports);
            && seen.cloud == w.cloud && seen.store == w.store && ActiveSet(seen) == ActiveSet(w)
            && seen.mem.draining == w.mem.draining && seen.mem.pending == w.mem.pending
    ensures InventoryOk(w) && w.clock <= at ==> InventoryOk(SeenWorld(w, at, reports))
  {
  }

  // --- growing -------------------------------------------------------------------

  /** The attempts among the next `k` that bring up nothing. */
  function Failing(f: Faults, first: Id, k: nat): set<Id> { set id | id in f.provision && first <= id < first + k }

  lemma OneMoreAttempt(f: Faults, first: Id, k: nat)
    ensures |Failing(f, first, k + 1)| == |Failing(f, first, k)| + if first + k in f.provision then 1 else 0
  {
    if first + k in f.provision {
      assert Failing(f, first, k + 1) == Failing(f, first, k) + {first + k};
    } else {
      assert Failing(f, first, k + 1) == Failing(f, first, k);
    }
  }

  lemma {:induction false} GrowExact(w: World, at: int, f: Faults, k: nat)
    requires InventoryOk(w)
    ensures var (v, n) := ProvisionMany(w, at, f, k);
            && InventoryOk(v) && v.cloud.nextId == w.cloud.nextId + k
            && n == k - |Failing(f, w.cloud.nextId, k)| && |ActiveSet(v)| == |ActiveSet(w)| + n
  {
    if k > 0 {
      GrowExact(w, at, f, k - 1);
      GrowOneExact(ProvisionMany(w, at, f, k - 1).0, at, f);
      OneMoreAttempt(f, w.cloud.nextId, k - 1);
    } else {
      assert Failing(f, w.cloud.nextId, 0) == {};
    }
  }

  lemma GrowOneExact(w: World, at: int, f: Faults)
    requires InventoryOk(w)
    ensures var v := ProvisionOne(w, at, f).0;
            && InventoryOk(v) && v.cloud.nextId == w.cloud.nextId + 1
            && |ActiveSet(v)| == |ActiveSet(w)| + if w.cloud.nextId in f.provision then 0 else 1
  {
    var v := ProvisionOne(w, at, f).0;
    if w.cloud.nextId in f.provision {
      assert ActiveSet(v) == ActiveSet(w);
    } else {
      assert ActiveSet(v) == ActiveSet(w) + {w.cloud.nextId};
    }
  }

  lemma ScaleUpExact(p: Policy, w: World, d: Decision, conns: seq<Conn>, at: int, f: Faults)
    requires InventoryOk(w) && d.direction == Up && d.count >= 0
    ensures |ActiveSet(ActScale(p, w, d, conns, at, f))| ==
            |ActiveSet(w)| + d.count - |Failing(f, w.cloud.nextId, d.count)|
  {
    GrowExact(w, at, f, d.count);
    var v := ProvisionMany(w, at, f, d.count).0;
    assert ActiveSet(ActScale(p, w, d, conns, at, f)) == ActiveSet(v);
  }

  /** The count once the load has asked for more: the floor is restored whether or not the cooldown is over. */
  function Grown(p: Policy, n: int, cool: bool): int {
    if n < p.minConnectors then p.minConnectors
    else if cool then Max(n, Min(p.maxConnectors, n + p.scaleStep))
    else n
  }

  /** What the decision adds when it may add at all. Below the floor it may whatever else is going on. */
  lemma UpDecision(p: Policy, load: Load, n: nat, lastUp: Option<int>, lastDown: Option<int>, at: int, replacing: bool)
    requires p.Valid()
    requires n < p.minConnectors || (!replacing && Triggered(p, load, n))
    ensures var d := DecideScale(p, load, n, lastUp, lastDown, at, replacing);
            && d.count >= 0 && d.direction != Down && (d.direction == Stay ==> d.count == 0)
            && n + d.count == Grown(p, n, CooldownRemaining(lastUp, p.upCooldown, at) == 0)
  {
  }

  /** From `n` active connectors, attempts to reach `target` have left `v` short by those that failed. */
  ghost predicate GrownTo(v: World, n: int, target: int, first: Id, f: Faults) {
    n <= target && |ActiveSet(v)| == target - |Failing(f, first, target - n)|
  }

  lemma UpPhase(p: Policy, w: World, conns: seq<Conn>, load: Load, at: int, f: Faults)
    requires p.Valid() && InventoryOk(w) && DistinctIds(conns) && Undrained(w, conns)
    requires |conns| < p.minConnectors || (w.mem.pending == map[] && Triggered(p, load, |conns|))
    ensures GrownTo(ScalePhase(p, w, conns, load, at, f), |conns|,
                    Grown(p, |conns|, CooldownRemaining(w.store.lastUp, p.upCooldown, at) == 0), w.cloud.nextId, f)
  {
    CountIsActive(w, conns);
    UpDecision(p, load, |conns|, w.store.lastUp, w.store.lastDown, at, w.mem.pending != map[]);
    var d := ScaleDecision(p, w, conns, load, at);
    if d.direction == Up {
      ScaleUpExact(p, w, d, conns, at, f);
    } else {
      assert Failing(f, w.cloud.nextId, 0) == {};
    }
  }

  /** What the cycle works on: the list matches the world it has just looked at. */
  lemma SeenList(w: World, at: int, reports: seq<Conn>)
    requires Accurate(w, reports)
    ensures DistinctIds(ActiveOf(w, reports)) && Undrained(SeenWorld(w, at, reports), ActiveOf(w, reports))
    ensures |ActiveOf(w, reports)| == |ActiveSet(w)|
  {
    ActiveOfExact(w, reports);
    CountIsActive(w, ActiveOf(w, reports));
  }

  /** The scale phase on the list of the cycle, the count taken as the world has it. */
  lemma SeenUp(p: Policy, w: World, at: int, reports: seq<Conn>, load: Load, f: Faults)
    requires p.Valid() && InventoryOk(w) && Accurate(w, reports) && w.clock <= at
    requires var n := |ActiveSet(w)|;
             n < p.minConnectors || (w.mem.pending == map[] && Triggered(p, load, n))
    ensures GrownTo(ScalePhase(p, SeenWorld(w, at, reports), ActiveOf(w, reports), load, at, f), |ActiveSet(w)|,
                    Grown(p, |ActiveSet(w)|, CooldownRemaining(w.store.lastUp, p.upCooldown, at) == 0),
                    w.cloud.nextId, f)
  {
    SeenSame(w, at, reports);
    SeenList(w, at, reports);
    UpPhase(p, SeenWorld(w, at, reports), ActiveOf(w, reports), load, at, f);
  }

  /** The fleet after a calm cycle that decides to grow. */
  lemma UpCycle(p: Policy, w: World, at: int, reports: seq<Conn>, load: Load, f: Faults)
    requires p.Valid() && InventoryOk(w) && Accurate(w, reports) && Calm(p, w, at, reports) && w.clock <= at
    requires |ActiveSet(w)| < p.minConnectors || Triggered(p, load, |ActiveSet(w)|)
    ensures GrownTo(CycleStep(p, w, at, reports, load, f), |ActiveSet(w)|,
                    Grown(p, |ActiveSet(w)|, CooldownRemaining(w.store.lastUp, p.upCooldown, at) == 0),
                    w.cloud.nextId, f)
  {
    CalmCycle(p, w, at, reports, load, f);
    SeenUp(p, w, at, reports, load, f);
    SameActive(ScalePhase(p, SeenWorld(w, at, reports), ActiveOf(w, reports), load, at, f),
               CycleStep(p, w, at, reports, load, f));
  }

  /** With no provision failing the target is reached. */
  lemma FullyGrown(v: World, n: int, target: int, first: Id, f: Faults)
    requires GrownTo(v, n, target, first, f) && f.provision == map[]
    ensures |ActiveSet(v)| == target
  {
    assert Failing(f, first, target - n) == {};
  }

  lemma SameActive(w: World, v: World)
    requires OnlyRows(w, v)
    ensures ActiveSet(v) == ActiveSet(w)
  {
  }

  /** Below the floor one cycle tries to bring up exactly what is missing, whatever the load, the health of the
      fleet and the replaces in flight, and however recent the last scale-up. Before it advances any replace
      it is short of the floor by exactly the attempts that failed. */
  lemma FloorFilledAtOnce(p: Policy, w: World, at: int, reports: seq<Conn>, load: Load, f: Faults)
    requires p.Valid() && InventoryOk(w) && Accurate(w, reports) && w.clock <= at
    requires |ActiveSet(w)| < p.minConnectors
    ensures GrownTo(ScalePhase(p, SeenWorld(w, at, reports), ActiveOf(w, reports), load, at, f), |ActiveSet(w)|,
                    p.minConnectors, w.cloud.nextId, f)
  {
    SeenUp(p, w, at, reports, load, f);
  }

  /** When no replace is pending or due either, that is how the whole cycle leaves the fleet. */
  lemma CalmFloorFill(p: Policy, w: World, at: int, reports: seq<Conn>, load: Load, f: Faults)
    requires p.Valid() && InventoryOk(w) && Accurate(w, reports) && Calm(p, w, at, reports) && w.clock <= at
    requires |ActiveSet(w)| < p.minConnectors
    ensures GrownTo(CycleStep(p, w, at, reports, load, f), |ActiveSet(w)|, p.minConnectors, w.cloud.nextId, f)
  {
    UpCycle(p, w, at, reports, load, f);
  }

  // --- shrinking -----------------------------------------------------------------

  /** The ids of the victims that can be taken: the others' deletions fail. */
  function Removable(victims: seq<Conn>, logical: set<Id>, f: Faults): set<Id> {
    set c | c in victims && c.id in logical && c.id !in f.delete :: c.id
  }

  /** Whom a cycle that scales down takes: the first eligible connectors in discovery order are tried, as many
      as the step asks for, and those with a logical connector to delete begin to drain. */
  function Taken(p: Policy, w: World, at: int, reports: seq<Conn>, f: Faults): set<Id>
    requires p.Valid()
  {
    var k := ScaleDownCount(p, |ActiveSet(w)|);
    Removable(PickVictims(p, SeenWorld(w, at, reports).mem, ActiveOf(w, reports), k, at), w.cloud.logical, f)
  }

  /** There are as many eligible connectors as the step asks for, and the first that many can be deleted. */
  ghost predicate Enough(p: Policy, w: World, at: int, reports: seq<Conn>, f: Faults)
    requires p.Valid()
  {
    var eligible := Eligible(p, SeenWorld(w, at, reports).mem, ActiveOf(w, reports), at);
    var k := ScaleDownCount(p, |ActiveSet(w)|);
    k <= |eligible| && forall i :: 0 <= i < k ==> eligible[i].id in w.cloud.logical && eligible[i].id !in f.delete
  }

  lemma {:induction false} RemovableCount(victims: seq<Conn>, logical: set<Id>, f: Faults)
    requires DistinctIds(victims)
    ensures |Removable(victims, logical, f)| <= |victims|
    ensures |Removable(victims, logical, f)| == |victims| <==>
            forall i :: 0 <= i < |victims| ==> victims[i].id in logical && victims[i].id !in f.delete
  {
    if victims == [] {
      assert Removable(victims, logical, f) == {};
    } else {
      var init, last := victims[..|victims| - 1], victims[|victims| - 1];
      RemovableCount(init, logical, f);
      assert victims == init + [last];
      RemovableLast(init, last, logical, f);
      assert forall i :: 0 <= i < |init| ==> victims[i] == init[i];
    }
  }

  lemma RemovableLast(init: seq<Conn>, last: Conn, logical: set<Id>, f: Faults)
    requires DistinctIds(init + [last])
    ensures |Removable(init + [last], logical, f)| ==
            |Removable(init, logical, f)| + if last.id in logical && last.id !in f.delete then 1 else 0
  {
    assert (init + [last])[|init|] == last;
    forall c | c in init
      ensures c.id != last.id
    {
      var i :| 0 <= i < |init| && init[i] == c;
      assert (init + [last])[i] == c;
    }
    if last.id in logical && last.id !in f.delete {
      assert Removable(init + [last], logical, f) == Removable(init, logical, f) + {last.id};
    } else {
      assert Removable(init + [last], logical, f) == Removable(init, logical, f);
    }
  }

  lemma {:induction false} EligibleDistinct(p: Policy, m: Memory, conns: seq<Conn>, now: int)
    requires DistinctIds(conns)
    ensures DistinctIds(Eligible(p, m, conns, now))
  {
    if conns != [] {
      var init, last := conns[..|conns| - 1], conns[|conns| - 1];
      EligibleDistinct(p, m, init, now);
      EligibleExact(p, m, init, now);
      var before := Eligible(p, m, init, now);
      forall i | 0 <= i < |before|
        ensures before[i].id != last.id
      {
        assert before[i] in init;
      }
    }
  }

  lemma FirstRemovable(eligible: seq<Conn>, k: nat, logical: set<Id>, f: Faults)
    requires DistinctIds(eligible)
    ensures var taken := Removable(eligible[..Min(k, |eligible|)], logical, f);
            && |taken| <= k
            && (|taken| == k <==>
                  k <= |eligible| && forall i :: 0 <= i < k ==>
                    eligible[i].id in logical && eligible[i].id !in f.delete)
  {
    RemovableCount(eligible[..Min(k, |eligible|)], logical, f);
  }

  /** The step is taken in full exactly when there are enough. */
  lemma TakenExact(p: Policy, w: World, at: int, reports: seq<Conn>, f: Faults)
    requires p.Valid() && Accurate(w, reports)
    ensures |Taken(p, w, at, reports, f)| <= ScaleDownCount(p, |ActiveSet(w)|)
    ensures |Taken(p, w, at, reports, f)| == ScaleDownCount(p, |ActiveSet(w)|) <==> Enough(p, w, at, reports, f)
  {
    var m := SeenWorld(w, at, reports).mem;
    ActiveOfExact(w, reports);
    EligibleDistinct(p, m, ActiveOf(w, reports), at);
    FirstRemovable(Eligible(p, m, ActiveOf(w, reports), at), ScaleDownCount(p, |ActiveSet(w)|), w.cloud.logical, f);
  }

  /** Deprovisioning victims takes exactly the removable ones from the active connectors. */
  lemma ShrinkExact(p: Policy, w: World, conns: seq<Conn>, k: nat, at: int, f: Faults)
    requires Undrained(w, conns)
    ensures var victims := PickVictims(p, w.mem, conns, k, at);
            var v, taken := DeprovisionAll(w, victims, at, f, ByScaleDown).0, Removable(victims, w.cloud.logical, f);
            && ActiveSet(v) == ActiveSet(w) - taken && taken <= ActiveSet(w)
            && v.cloud.containers == w.cloud.containers && v.cloud.logical == w.cloud.logical - taken
            && v.mem.draining.Keys == w.mem.draining.Keys + taken
  {
    var victims := PickVictims(p, w.mem, conns, k, at);
    DrainsStarted(w, victims, at, f, ByScaleDown);
    VictimsEligible(p, w.mem, conns, k, at);
    RemovableIds(victims, w.cloud.logical, f);
    forall id | id in Ids(victims)
      ensures id in ActiveSet(w)
    {
      var c :| c in victims && c.id == id;
      assert c in conns && c.id in Ids(conns);
    }
  }

  lemma RemovableIds(victims: seq<Conn>, logical: set<Id>, f: Faults)
    ensures forall id :: id in Removable(victims, logical, f) <==>
              id in Ids(victims) && id in logical && id !in f.delete
  {
  }

  /** What a low load decides, and with the cooldown over it is a scale-down whenever the step is not empty. */
  lemma DownDecision(p: Policy, load: Load, n: nat, lastUp: Option<int>, lastDown: Option<int>, at: int)
    requires p.Valid() && n >= p.minConnectors && !Triggered(p, load, n) && IsLowLoad(p, load.cpu, load.throughput)
    ensures DecideScale(p, load, n, lastUp, lastDown, at, false) ==
            if ScaleDownCount(p, n) > 0 && CooldownRemaining(lastDown, p.downCooldown, at) == 0
            then Decision(Down, ScaleDownCount(p, n)) else Decision(Stay, 0)
  {
  }

  /** What a scale-down does, failures included: those taken drain, and their deletion arms the cooldown. */
  ghost predicate TakesFrom(w: World, v: World, taken: set<Id>, at: int) {
    && ActiveSet(v) == ActiveSet(w) - taken && taken <= ActiveSet(w)
    && v.cloud == w.cloud.(logical := w.cloud.logical - taken)
    && v.mem.draining.Keys == w.mem.draining.Keys + taken
    && v.mem.pending == w.mem.pending && v.mem.order == w.mem.order
    && v.store.cordons == w.store.cordons
    && v.store.lastDown == if taken == {} then w.store.lastDown else Some(at)
  }

  lemma ScaleDownTakes(p: Policy, w: World, conns: seq<Conn>, k: nat, at: int, f: Faults)
    requires DistinctIds(conns) && Undrained(w, conns)
    ensures TakesFrom(w, ActScale(p, w, Decision(Down, k), conns, at, f),
                      Removable(PickVictims(p, w.mem, conns, k, at), w.cloud.logical, f), at)
  {
    var victims := PickVictims(p, w.mem, conns, k, at);
    var (v, n) := DeprovisionAll(w, victims, at, f, ByScaleDown);
    var after := ActScale(p, w, Decision(Down, k), conns, at, f);
    ShrinkExact(p, w, conns, k, at, f);
    DrainsStarted(w, victims, at, f, ByScaleDown);
    AllFrame(w, victims, at, f, ByScaleDown);
    assert ActiveSet(after) == ActiveSet(v);
    EligibleDistinct(p, w.mem, conns, at);
    StartedExact(w, victims, at, f, ByScaleDown);
    RemovableCount(victims, w.cloud.logical, f);
  }

  /** As many drains start as there are removable victims. */
  lemma {:induction false} StartedExact(w: World, victims: seq<Conn>, at: int, f: Faults, cause: Cause)
    requires DistinctIds(victims)
    ensures DeprovisionAll(w, victims, at, f, cause).1 == |Removable(victims, w.cloud.logical, f)|
  {
    if victims == [] {
      assert Removable(victims, w.cloud.logical, f) == {};
    } else {
      var init, last := victims[..|victims| - 1], victims[|victims| - 1];
      StartedExact(w, init, at, f, cause);
      DrainsStarted(w, init, at, f, cause);
      assert victims == init + [last];
      RemovableLast(init, last, w.cloud.logical, f);
      assert last.id !in Ids(init);
    }
  }

  /** The scale phase under low load. */
  lemma DownPhase(p: Policy, w: World, conns: seq<Conn>, load: Load, at: int, f: Faults)
    requires p.Valid() && DistinctIds(conns) && Undrained(w, conns) && w.mem.pending == map[]
    requires |conns| >= p.minConnectors && !Triggered(p, load, |conns|) && IsLowLoad(p, load.cpu, load.throughput)
    ensures var cool := CooldownRemaining(w.store.lastDown, p.downCooldown, at) == 0;
            var victims := PickVictims(p, w.mem, conns, ScaleDownCount(p, |conns|), at);
            TakesFrom(w, ScalePhase(p, w, conns, load, at, f),
                      if cool then Removable(victims, w.cloud.logical, f) else {}, at)
  {
    var k := ScaleDownCount(p, |conns|);
    DownDecision(p, load, |conns|, w.store.lastUp, w.store.lastDown, at);
    if k > 0 && CooldownRemaining(w.store.lastDown, p.downCooldown, at) == 0 {
      ScaleDownTakes(p, w, conns, k, at, f);
    } else if k == 0 {
      assert PickVictims(p, w.mem, conns, k, at) == [];
    }
  }

  /** The same on the list of the cycle, the count taken as the world has it. */
  lemma SeenDown(p: Policy, w: World, at: int, reports: seq<Conn>, load: Load, f: Faults)
    requires p.Valid() && Accurate(w, reports) && w.mem.pending == map[] && |ActiveSet(w)| >= p.minConnectors
    requires !Triggered(p, load, |ActiveSet(w)|) && IsLowLoad(p, load.cpu, load.throughput)
    ensures var cool := CooldownRemaining(w.store.lastDown, p.downCooldown, at) == 0;
            TakesFrom(w, ScalePhase(p, SeenWorld(w, at, reports), ActiveOf(w, reports), load, at, f),
                      if cool then Taken(p, w, at, reports, f) else {}, at)
  {
    SeenSame(w, at, reports);
    SeenList(w, at, reports);
    DownPhase(p, SeenWorld(w, at, reports), ActiveOf(w, reports), load, at, f);
  }

  lemma LowCycleTakes(p: Policy, w: World, at: int, reports: seq<Conn>, load: Load, f: Faults)
    requires p.Valid() && Accurate(w, reports) && Calm(p, w, at, reports) && |ActiveSet(w)| >= p.minConnectors
    requires !Triggered(p, load, |ActiveSet(w)|) && IsLowLoad(p, load.cpu, load.throughput)
    ensures var cool := CooldownRemaining(w.store.lastDown, p.downCooldown, at) == 0;
            TakesFrom(w, CycleStep(p, w, at, reports, load, f), if cool then Taken(p, w, at, reports, f) else {}, at)
  {
    SeenDown(p, w, at, reports, load, f);
    CalmCycle(p, w, at, reports, load, f);
    SameActive(ScalePhase(p, SeenWorld(w, at, reports), ActiveOf(w, reports), load, at, f),
               CycleStep(p, w, at, reports, load, f));
  }

  /** A calm cycle under low load takes exactly the removable ones of the first eligible connectors, once the
      cooldown is over, and nobody before that. It takes the full step if and only if the first eligible
      connectors, as many as the step asks for, can all be deleted; and it arms the cooldown if and only if it
      takes anybody. */
  lemma LowCycleExact(p: Policy, w: World, at: int, reports: seq<Conn>, load: Load, f: Faults)
    requires p.Valid() && Accurate(w, reports) && Calm(p, w, at, reports) && |ActiveSet(w)| >= p.minConnectors
    requires !Triggered(p, load, |ActiveSet(w)|) && IsLowLoad(p, load.cpu, load.throughput)
    ensures var v := CycleStep(p, w, at, reports, load, f);
            var cool := CooldownRemaining(w.store.lastDown, p.downCooldown, at) == 0;
            && TakesFrom(w, v, if cool then Taken(p, w, at, reports, f) else {}, at)
            && (cool ==> (|ActiveSet(v)| == |ActiveSet(w)| - ScaleDownCount(p, |ActiveSet(w)|) <==>
                            Enough(p, w, at, reports, f)))
  {
    var cool := CooldownRemaining(w.store.lastDown, p.downCooldown, at) == 0;
    LowCycleTakes(p, w, at, reports, load, f);
    TakesCount(w, CycleStep(p, w, at, reports, load, f), if cool then Taken(p, w, at, reports, f) else {}, at);
    TakenExact(p, w, at, reports, f);
  }

  lemma TakesCount(w: World, v: World, taken: set<Id>, at: int)
    requires TakesFrom(w, v, taken, at)
    ensures |ActiveSet(v)| == |ActiveSet(w)| - |taken|
    ensures taken == {} ==> ActiveSet(v) == ActiveSet(w) && v.store.lastDown == w.store.lastDown
  {
    TakenLeaves(ActiveSet(w), taken);
  }

  lemma TakenLeaves(all: set<Id>, taken: set<Id>)
    ensures taken <= all ==> |all - taken| == |all| - |taken|
  {
    if taken <= all {
      assert all == (all - taken) + taken;
    }
  }

  // --- what arms a cooldown --------------------------------------------------------

  /** A scale-up that adds to the active connectors arms the up cooldown, one that takes arms the down cooldown,
      and one that does neither arms none. */
  ghost predicate Arms(w: World, v: World, at: int) {
    && v.store.lastUp == (if |ActiveSet(v)| > |ActiveSet(w)| then Some(at) else w.store.lastUp)
    && v.store.lastDown == (if |ActiveSet(v)| < |ActiveSet(w)| then Some(at) else w.store.lastDown)
  }

  lemma UpArms(p: Policy, w: World, conns: seq<Conn>, k: nat, at: int, f: Faults)
    requires InventoryOk(w)
    ensures Arms(w, ActScale(p, w, Decision(Up, k), conns, at, f), at)
  {
    var v := ProvisionMany(w, at, f, k).0;
    GrowExact(w, at, f, k);
    ManyFrame(w, at, f, k);
    assert ActiveSet(ActScale(p, w, Decision(Up, k), conns, at, f)) == ActiveSet(v);
  }

  lemma DownArms(p: Policy, w: World, conns: seq<Conn>, k: nat, at: int, f: Faults)
    requires DistinctIds(conns) && Undrained(w, conns)
    ensures Arms(w, ActScale(p, w, Decision(Down, k), conns, at, f), at)
  {
    var v := ActScale(p, w, Decision(Down, k), conns, at, f);
    var victims := PickVictims(p, w.mem, conns, k, at);
    var taken := Removable(victims, w.cloud.logical, f);
    ScaleDownTakes(p, w, conns, k, at, f);
    TakesCount(w, v, taken, at);
    AllFrame(w, victims, at, f, ByScaleDown);
  }

  /** Only an effective action arms the cooldown of its direction: a scale-up of which nothing started, or a
      scale-down of which nothing began to drain, leaves both cooldowns as they were. */
  lemma ScaleArms(p: Policy, w: World, conns: seq<Conn>, load: Load, at: int, f: Faults)
    requires InventoryOk(w) && DistinctIds(conns) && Undrained(w, conns)
    ensures Arms(w, ScalePhase(p, w, conns, load, at, f), at)
  {
    var d := ScaleDecision(p, w, conns, load, at);
    if d.count >= 0 && d.direction == Up {
      UpArms(p, w, conns, d.count, at, f);
    } else if d.count >= 0 && d.direction == Down {
      DownArms(p, w, conns, d.count, at, f);
    }
  }

  ghost predicate SameCooldowns(w: World, v: World) {
    v.store.lastUp == w.store.lastUp && v.store.lastDown == w.store.lastDown
  }

  lemma {:induction false} TurnsArmNone(p: Policy, w: World, conns: seq<Conn>, keys: seq<Id>, at: int, f: Faults)
    ensures SameCooldowns(w, AdvanceReplaces(p, w, conns, keys, at, f))
  {
    if keys != [] {
      TurnsArmNone(p, w, conns, keys[..|keys| - 1], at, f);
    }
  }

  lemma {:induction false} RemediesArmNone(w: World, actions: seq<HealthAction>, at: int, f: Faults)
    ensures SameCooldowns(w, RemediateAll(w, actions, at, f))
  {
    if actions != [] {
      RemediesArmNone(w, actions[..|actions| - 1], at, f);
    }
  }

  /** Nothing but its scale phase arms a cooldown in a cycle, and that only in the direction in which it changed the
      number of active connectors. */
  lemma CycleArms(p: Policy, w: World, at: int, reports: seq<Conn>, load: Load, f: Faults)
    requires InventoryOk(w) && Accurate(w, reports) && w.clock <= at
    ensures var scaled := ScalePhase(p, SeenWorld(w, at, reports), ActiveOf(w, reports), load, at, f);
            Arms(w, scaled, at) && SameCooldowns(scaled, CycleStep(p, w, at, reports, load, f))
  {
    var (conns, seen) := (ActiveOf(w, reports), SeenWorld(w, at, reports));
    var scaled := ScalePhase(p, seen, conns, load, at, f);
    var x := ReplacePhase(p, scaled, conns, at, f);
    SeenSame(w, at, reports);
    SeenList(w, at, reports);
    ScaleArms(p, seen, conns, load, at, f);
    TurnsArmNone(p, scaled, conns, scaled.mem.order, at, f);
    RemediesArmNone(x, HealthPlan(p, x, conns, at), at, f);
  }

  /** A calm cycle arms exactly the cooldown of the direction in which it moved the fleet. */
  lemma CalmArms(p: Policy, w: World, at: int, reports: seq<Conn>, load: Load, f: Faults)
    requires InventoryOk(w) && Accurate(w, reports) && w.clock <= at && Calm(p, w, at, reports)
    ensures Arms(w, CycleStep(p, w, at, reports, load, f), at)
  {
    CycleArms(p, w, at, reports, load, f);
    CalmCycle(p, w, at, reports, load, f);
    SameActive(ScalePhase(p, SeenWorld(w, at, reports), ActiveOf(w, reports), load, at, f),
               CycleStep(p, w, at, reports, load, f));
  }

  // --- what is announced -------------------------------------------------------------

  /** The events after `before` that announce a scaling are just `e`, or none. */
  ghost predicate Announces(before: seq<Event>, after: seq<Event>, e: Option<Event>) {
    && before <= after
    && (forall k :: |before| <= k < |after| && (after[k].ScaledUp? || after[k].ScaledDown?) ==> e == Some(after[k]))
    && (e.Some? ==> exists k :: |before| <= k < |after| && after[k] == e.value)
  }

  lemma {:induction false} ManyAnnounceNone(w: World, at: int, f: Faults, k: nat)
    ensures Announces(w.trace, ProvisionMany(w, at, f, k).0.trace, None)
  {
    if k > 0 {
      ManyAnnounceNone(w, at, f, k - 1);
    }
  }

  lemma {:induction false} AllAnnounceNone(w: World, victims: seq<Conn>, at: int, f: Faults, cause: Cause)
    ensures Announces(w.trace, DeprovisionAll(w, victims, at, f, cause).0.trace, None)
  {
    if victims != [] {
      AllAnnounceNone(w, victims[..|victims| - 1], at, f, cause);
    }
  }

  lemma AnnounceOne(before: seq<Event>, after: seq<Event>, e: Event)
    requires Announces(before, after, None)
    ensures Announces(before, after + [e], Some(e))
  {
    assert (after + [e])[|after|] == e;
  }

  /** The announcement of a scale phase: of as many connectors as it added, marked as a floor fill exactly when it
      found the fleet below the floor; of as many as it took; or none when it did neither. */
  ghost function Announcement(p: Policy, before: nat, after: nat, at: int): Option<Event> {
    if after > before then Some(ScaledUp(at, after - before, before < p.minConnectors))
    else if after < before then Some(ScaledDown(at, before - after))
    else None
  }

  lemma UpAnnounces(p: Policy, w: World, conns: seq<Conn>, k: nat, at: int, f: Faults)
    requires InventoryOk(w) && DistinctIds(conns) && Undrained(w, conns)
    ensures var v := ActScale(p, w, Decision(Up, k), conns, at, f);
            Announces(w.trace, v.trace, Announcement(p, |ActiveSet(w)|, |ActiveSet(v)|, at))
  {
    var (x, n) := ProvisionMany(w, at, f, k);
    CountIsActive(w, conns);
    GrowExact(w, at, f, k);
    ManyAnnounceNone(w, at, f, k);
    AnnounceOne(w.trace, x.trace, ScaledUp(at, n, |conns| < p.minConnectors));
    assert ActiveSet(ActScale(p, w, Decision(Up, k), conns, at, f)) == ActiveSet(x);
  }

  lemma DownAnnounces(p: Policy, w: World, conns: seq<Conn>, k: nat, at: int, f: Faults)
    requires DistinctIds(conns) && Undrained(w, conns)
    ensures var v := ActScale(p, w, Decision(Down, k), conns, at, f);
            Announces(w.trace, v.trace, Announcement(p, |ActiveSet(w)|, |ActiveSet(v)|, at))
  {
    var victims := PickVictims(p, w.mem, conns, k, at);
    var (x, n) := DeprovisionAll(w, victims, at, f, ByScaleDown);
    var v := ActScale(p, w, Decision(Down, k), conns, at, f);
    EligibleDistinct(p, w.mem, conns, at);
    StartedExact(w, victims, at, f, ByScaleDown);
    ScaleDownTakes(p, w, conns, k, at, f);
    TakesCount(w, v, Removable(victims, w.cloud.logical, f), at);
    AllAnnounceNone(w, victims, at, f, ByScaleDown);
    AnnounceOne(w.trace, x.trace, ScaledDown(at, n));
  }

  /** So the record of a scaling tells by how much it changed the number of active connectors, and which scale-ups
      were floor fills. */
  lemma ScaleAnnounces(p: Policy, w: World, conns: seq<Conn>, load: Load, at: int, f: Faults)
    requires InventoryOk(w) && DistinctIds(conns) && Undrained(w, conns)
    ensures var v := ScalePhase(p, w, conns, load, at, f);
            Announces(w.trace, v.trace, Announcement(p, |ActiveSet(w)|, |ActiveSet(v)|, at))
  {
    var d := ScaleDecision(p, w, conns, load, at);
    if d.count >= 0 && d.direction == Up {
      UpAnnounces(p, w, conns, d.count, at, f);
    } else if d.count >= 0 && d.direction == Down {
      DownAnnounces(p, w, conns, d.count, at, f);
    }
  }

  // --- persistent load -----------------------------------------------------------

  /** A step that leaves the active connectors as they are: a drain that finishes well, a failed discovery, a
      cordon set or lifted. */
  ghost predicate Neutral(s: Step) {
    || (s.DrainTail? && s.ok) || s.FailedDiscovery? || s.CordonByHand?
  }

  /** A step of persistent low load, deletions failing as they may. */
  ghost predicate LowStep(p: Policy, w: World, s: Step) {
    match s
    case Cycle(at, reports, load, f) =>
      && Calm(p, w, at, reports)
      && !Triggered(p, load, |ActiveSet(w)|) && IsLowLoad(p, load.cpu, load.throughput)
    case _ => Neutral(s)
  }

  /** Enough connectors can be taken whenever the step may act. */
  ghost predicate Unblocked(p: Policy, w: World, s: Step)
    requires p.Valid()
  {
    Ready(p, w, s, true) ==> Enough(p, w, s.at, s.reports, s.faults)
  }

  /** A step of persistent high load. */
  ghost predicate HighStep(p: Policy, w: World, s: Step) {
    match s
    case Cycle(at, reports, load, f) =>
      Calm(p, w, at, reports) && f.provision == map[] && Triggered(p, load, |ActiveSet(w)|)
    case _ => Neutral(s)
  }

  /** A cycle at which the cooldown of its direction is over. */
  predicate Ready(p: Policy, w: World, s: Step, low: bool) {
    && s.Cycle?
    && (if low then CooldownRemaining(w.store.lastDown, p.downCooldown, s.at) == 0
        else CooldownRemaining(w.store.lastUp, p.upCooldown, s.at) == 0)
  }

  /** How many of the first `i` turns are set. */
  function Turns(ready: seq<bool>, i: nat): nat
    requires i <= |ready|
  {
    if i == 0 then 0 else Turns(ready, i - 1) + if ready[i - 1] then 1 else 0
  }

  lemma NeutralKeeps(p: Policy, w: World, s: Step)
    requires Enabled(p, w, s) && Neutral(s)
    ensures ActiveSet(Apply(p, w, s)) == ActiveSet(w) && Apply(p, w, s).store.lastDown == w.store.lastDown
  {
  }

  lemma RunSound(p: Policy, ws: seq<World>, steps: seq<Step>, i: nat)
    requires p.Valid() && Run(p, ws, steps) && Sound(ws[0]) && i <= |steps|
    ensures Sound(ws[i])
  {
    assert Good(x => true, ws[0]);
    RunKeeps(p, x => true, ws, steps, i);
  }

  ghost predicate LoadStep(p: Policy, w: World, s: Step, low: bool)
    requires p.Valid()
  {
    if low then LowStep(p, w, s) && Unblocked(p, w, s) else HighStep(p, w, s)
  }

  /** Every step of the run meets persistent low (or high) load. */
  ghost predicate Persistent(p: Policy, ws: seq<World>, steps: seq<Step>, low: bool)
    requires p.Valid()
  {
    && |ws| == |steps| + 1
    && forall k {:trigger steps[k]} :: 0 <= k < |steps| ==> LoadStep(p, ws[k], steps[k], low)
  }

  /** The count one cycle later: a step towards the floor or the ceiling, never past it. */
  function Next(p: Policy, n: int, low: bool): int {
    if low then Max(p.minConnectors, n - p.scaleStep) else Min(p.maxConnectors, n + p.scaleStep)
  }

  /** The counts that the load may start from. */
  ghost predicate Within(p: Policy, n: int, low: bool) { p.minConnectors <= n && (low || n <= p.maxConnectors) }

  lemma LowMove(p: Policy, w: World, s: Step)
    requires p.Valid() && Enabled(p, w, s) && LowStep(p, w, s) && |ActiveSet(w)| >= p.minConnectors
    ensures var n := if Ready(p, w, s, true) then |Taken(p, w, s.at, s.reports, s.faults)| else 0;
            && |ActiveSet(Apply(p, w, s))| == |ActiveSet(w)| - n
            && (n == 0 ==>
                  ActiveSet(Apply(p, w, s)) == ActiveSet(w) && Apply(p, w, s).store.lastDown == w.store.lastDown)
  {
    if s.Cycle? {
      LowCycleTakes(p, w, s.at, s.reports, s.load, s.faults);
      TakesCount(w, Apply(p, w, s), if Ready(p, w, s, true) then Taken(p, w, s.at, s.reports, s.faults) else {}, s.at);
    } else {
      NeutralKeeps(p, w, s);
    }
  }

  lemma UnblockedTakes(p: Policy, w: World, s: Step)
    requires p.Valid() && s.Cycle? && Accurate(w, s.reports)
    ensures |Taken(p, w, s.at, s.reports, s.faults)| <= ScaleDownCount(p, |ActiveSet(w)|)
    ensures Ready(p, w, s, true) && Unblocked(p, w, s) ==>
              |Taken(p, w, s.at, s.reports, s.faults)| == ScaleDownCount(p, |ActiveSet(w)|)
  {
    TakenExact(p, w, s.at, s.reports, s.faults);
  }

  lemma FallMove(p: Policy, w: World, s: Step)
    requires p.Valid() && Enabled(p, w, s) && s.Cycle? && LowStep(p, w, s) && Unblocked(p, w, s)
    requires |ActiveSet(w)| >= p.minConnectors
    ensures |ActiveSet(Apply(p, w, s))| ==
            if Ready(p, w, s, true) then Next(p, |ActiveSet(w)|, true) else |ActiveSet(w)|
  {
    LowMove(p, w, s);
    UnblockedTakes(p, w, s);
  }

  lemma RiseMove(p: Policy, w: World, s: Step)
    requires p.Valid() && Sound(w) && Enabled(p, w, s) && s.Cycle? && HighStep(p, w, s)
    requires p.minConnectors <= |ActiveSet(w)| <= p.maxConnectors
    ensures |ActiveSet(Apply(p, w, s))| ==
            if Ready(p, w, s, false) then Next(p, |ActiveSet(w)|, false) else |ActiveSet(w)|
  {
    UpCycle(p, w, s.at, s.reports, s.load, s.faults);
    var cool := CooldownRemaining(w.store.lastUp, p.upCooldown, s.at) == 0;
    FullyGrown(Apply(p, w, s), |ActiveSet(w)|, Grown(p, |ActiveSet(w)|, cool), w.cloud.nextId, s.faults);
  }

  lemma OneMove(p: Policy, w: World, s: Step, low: bool)
    requires p.Valid() && Sound(w) && Enabled(p, w, s) && LoadStep(p, w, s, low) && Within(p, |ActiveSet(w)|, low)
    ensures |ActiveSet(Apply(p, w, s))| == if Ready(p, w, s, low) then Next(p, |ActiveSet(w)|, low) else |ActiveSet(w)|
  {
    if !s.Cycle? {
      NeutralKeeps(p, w, s);
    } else if low {
      FallMove(p, w, s);
    } else {
      RiseMove(p, w, s);
    }
  }

  lemma MoveAt(p: Policy, ws: seq<World>, steps: seq<Step>, low: bool, k: nat)
    requires p.Valid() && Run(p, ws, steps) && Sound(ws[0]) && Persistent(p, ws, steps, low) && k < |steps|
    requires Within(p, |ActiveSet(ws[k])|, low)
    ensures |ActiveSet(ws[k + 1])| ==
            if Ready(p, ws[k], steps[k], low) then Next(p, |ActiveSet(ws[k])|, low) else |ActiveSet(ws[k])|
  {
    RunSound(p, ws, steps, k);
    OneMove(p, ws[k], steps[k], low);
  }

  /** The count after `k` cycles from `n`. */
  function Settling(p: Policy, n: int, k: nat, low: bool): int {
    if low then Max(p.minConnectors, n - Repeated(k, p.scaleStep))
    else Min(p.maxConnectors, n + Repeated(k, p.scaleStep))
  }

  lemma SettlingOnce(p: Policy, n: int, k: nat, low: bool)
    requires p.Valid() && Within(p, n, low)
    ensures Settling(p, n, k + 1, low) == Next(p, Settling(p, n, k, low), low) && Within(p, Settling(p, n, k, low), low)
    ensures Settling(p, n, 0, low) == n
  {
    RepeatedRises(0, k, p.scaleStep);
  }

  /** The count moves on exactly the ready turns. */
  ghost predicate Turning(p: Policy, ns: seq<int>, ready: seq<bool>, low: bool) {
    && |ns| == |ready| + 1
    && forall k :: 0 <= k < |ready| && Within(p, ns[k], low) ==>
      ns[k + 1] == if ready[k] then Next(p, ns[k], low) else ns[k]
  }

  lemma {:induction false} Settles(p: Policy, ns: seq<int>, ready: seq<bool>, low: bool, i: nat)
    requires p.Valid() && Turning(p, ns, ready, low) && Within(p, ns[0], low) && i <= |ready|
    ensures ns[i] == Settling(p, ns[0], Turns(ready, i), low)
  {
    if i > 0 {
      Settles(p, ns, ready, low, i - 1);
      SettlingOnce(p, ns[0], Turns(ready, i - 1), low);
    } else {
      SettlingOnce(p, ns[0], 0, low);
    }
  }

  /** Which steps of the run are ready to act. */
  function ReadySteps(p: Policy, ws: seq<World>, steps: seq<Step>, low: bool): (ready: seq<bool>)
    requires |ws| == |steps| + 1
    ensures |ready| == |steps|
  {
    seq(|steps|, k requires 0 <= k < |steps| => Ready(p, ws[k], steps[k], low))
  }

  function ActiveCounts(ws: seq<World>): (ns: seq<int>)
    ensures |ns| == |ws| && forall k :: 0 <= k < |ws| ==> ns[k] == |ActiveSet(ws[k])|
  {
    seq(|ws|, k requires 0 <= k < |ws| => |ActiveSet(ws[k])|)
  }

  lemma RunTurns(p: Policy, ws: seq<World>, steps: seq<Step>, low: bool)
    requires p.Valid() && Run(p, ws, steps) && Sound(ws[0]) && Persistent(p, ws, steps, low)
    ensures Turning(p, ActiveCounts(ws), ReadySteps(p, ws, steps, low), low)
  {
    var ns, ready := ActiveCounts(ws), ReadySteps(p, ws, steps, low);
    forall k | 0 <= k < |ready| && Within(p, ns[k], low)
      ensures ns[k + 1] == if ready[k] then Next(p, ns[k], low) else ns[k]
    {
      MoveAt(p, ws, steps, low, k);
    }
  }

  /** Persistent load, with enough connectors to take when the load is low; drains finishing, discoveries
      failing, cordons set and lifted, restarts and graces in between as they may. After `k` cycles that found
      the cooldown over, the active count is the one it started from less `k` steps, or the floor if that is
      higher (under high load: more by `k` steps, or the ceiling). Cycles within the cooldown change nothing. */
  lemma LoadConverges(p: Policy, ws: seq<World>, steps: seq<Step>, low: bool, i: nat)
    requires p.Valid() && Run(p, ws, steps) && Sound(ws[0]) && Persistent(p, ws, steps, low) && i <= |steps|
    requires Within(p, |ActiveSet(ws[0])|, low)
    ensures |ActiveSet(ws[i])| == Settling(p, |ActiveSet(ws[0])|, Turns(ReadySteps(p, ws, steps, low), i), low)
  {
    RunTurns(p, ws, steps, low);
    Settles(p, ActiveCounts(ws), ReadySteps(p, ws, steps, low), low, i);
  }

  function Bound(p: Policy, low: bool): int { if low then p.minConnectors else p.maxConnectors }

  function Distance(p: Policy, n: int, low: bool): int { if low then n - Bound(p, low) else Bound(p, low) - n }

  lemma SettledExact(p: Policy, n: int, k: nat, low: bool)
    requires p.Valid() && Within(p, n, low)
    ensures Settling(p, n, k, low) == Bound(p, low) <==> k >= StepsNeeded(Distance(p, n, low), p.scaleStep)
  {
    FewestSteps(Distance(p, n, low), p.scaleStep, k);
  }

  /** The fewest steps that cover the distance. */
  function StepsNeeded(distance: int, step: int): nat
    requires step >= 1
    decreases Max(distance, 0)
  {
    if distance <= 0 then 0 else 1 + StepsNeeded(distance - step, step)
  }

  lemma RoundUp(n: int, distance: int, step: int)
    requires step >= 1 && distance <= n * step < distance + step
    ensures n == (distance + step - 1) / step
  {
    var q := (distance + step - 1) / step;
    assert distance + step - 1 == step * q + (distance + step - 1) % step;
    MultiplesApart(step, n, q);
    MultiplesApart(step, q, n);
  }

  /** It is the quotient, rounded up. */
  lemma {:induction false} StepsNeededExact(distance: nat, step: int)
    requires step >= 1
    ensures StepsNeeded(distance, step) == (distance + step - 1) / step
  {
    NeededSpan(distance, step);
    RoundUp(StepsNeeded(distance, step), distance, step);
  }

  lemma {:induction false} NeededSpan(distance: int, step: int)
    requires step >= 1 && distance > -step
    ensures distance <= StepsNeeded(distance, step) * step < distance + step
    decreases Max(distance, 0)
  {
    if distance > 0 {
      NeededSpan(distance - step, step);
      var n := StepsNeeded(distance - step, step);
      assert (1 + n) * step == step + n * step;
    }
  }

  /** As many steps cover the distance, and no fewer do. */
  lemma {:induction false} FewestSteps(distance: int, step: int, k: nat)
    requires step >= 1
    ensures Repeated(k, step) >= distance <==> k >= StepsNeeded(distance, step)
    decreases k
  {
    if k > 0 {
      FewestSteps(distance - step, step, k - 1);
    }
    RepeatedRises(0, k, step);
  }

  /** So the bound is reached exactly once the ready cycles number the distance over the step, rounded up,
      and kept from then on. */
  lemma BoundReachedExact(p: Policy, ws: seq<World>, steps: seq<Step>, low: bool, i: nat)
    requires p.Valid() && Run(p, ws, steps) && Sound(ws[0]) && Persistent(p, ws, steps, low) && i <= |steps|
    requires Within(p, |ActiveSet(ws[0])|, low)
    ensures |ActiveSet(ws[i])| == Bound(p, low) <==>
            Turns(ReadySteps(p, ws, steps, low), i) >= StepsNeeded(Distance(p, |ActiveSet(ws[0])|, low), p.scaleStep)
  {
    LoadConverges(p, ws, steps, low, i);
    SettledExact(p, |ActiveSet(ws[0])|, Turns(ReadySteps(p, ws, steps, low), i), low);
  }

  // --- a blocked fleet -------------------------------------------------------------

  /** How many connectors the ready cycles among the first `i` steps have taken. */
  ghost function TakenSoFar(p: Policy, ws: seq<World>, steps: seq<Step>, i: nat): nat
    requires p.Valid() && |ws| == |steps| + 1 && i <= |steps|
  {
    if i == 0 then 0
    else
      var w, s := ws[i - 1], steps[i - 1];
      TakenSoFar(p, ws, steps, i - 1) + if Ready(p, w, s, true) then |Taken(p, w, s.at, s.reports, s.faults)| else 0
  }

  /** Low load, with no promise about who can be taken: the count falls by exactly those that the ready cycles
      took. While they take nobody, the active connectors and the cooldown stay exactly as they are, however
      many others are eligible: the candidates are chosen in discovery order, not by whether they can go. */
  lemma {:induction false} LowRunExact(p: Policy, ws: seq<World>, steps: seq<Step>, i: nat)
    requires p.Valid() && Run(p, ws, steps) && i <= |steps| && |ActiveSet(ws[0])| >= p.minConnectors
    requires forall k {:trigger steps[k]} :: 0 <= k < |steps| ==> LowStep(p, ws[k], steps[k])
    ensures |ActiveSet(ws[i])| == |ActiveSet(ws[0])| - TakenSoFar(p, ws, steps, i) >= p.minConnectors
    ensures TakenSoFar(p, ws, steps, i) == 0 ==>
              ActiveSet(ws[i]) == ActiveSet(ws[0]) && ws[i].store.lastDown == ws[0].store.lastDown
  {
    if i > 0 {
      LowRunExact(p, ws, steps, i - 1);
      LowMove(p, ws[i - 1], steps[i - 1]);
      if steps[i - 1].Cycle? {
        UnblockedTakes(p, ws[i - 1], steps[i - 1]);
      }
    }
  }
}
