/** Two runs from an empty store that show what the fleet does not promise: a manual scale-down during a replace
    goes below the floor, and a completed replace can be followed at once by another for the same connector,
    past the ceiling. */
module Witnesses {
  import opened Basics
  import opened Policies
  import opened Decider
  import opened Fleet
  import opened Effects
  import opened Steps
  import opened Floor
  import opened Completions
  import opened Remedies
  import opened Cordons

  const NO_LOAD := Load(None, None, map[], map[])

  function Well(id: Id): Conn { Conn(id, Some(Alive), true, Some(Healthy), false) }

  function Sick(id: Id): Conn { Conn(id, Some(Alive), true, Some(Unhealthy), false) }

  function FirstIds(n: nat): (ids: set<Id>)
    ensures |ids| == n && forall id: Id :: id in ids <==> id < n
  {
    if n == 0 then {}
    else
      var rest := FirstIds(n - 1);
      assert |rest + {n - 1}| == |rest| + 1;
      rest + {n - 1}
  }

  /** A store without rows, and a fleet of `n` connectors. */
  function Adopting(n: nat): World {
    World(Cloud(n, FirstIds(n), FirstIds(n)), Store({}, None, None, []), Memory(map[], [], map[], map[], map[]),
          [Adopted(FirstIds(n))], [], 0, 0)
  }

  function Wells(n: nat): (conns: seq<Conn>)
    ensures |conns| == n && forall i :: 0 <= i < n ==> conns[i] == Well(i)
  {
    seq(n, i requires 0 <= i => Well(i))
  }

  lemma WellsAccurate(w: World, n: nat)
    requires w.cloud.containers == FirstIds(n)
    ensures Accurate(w, Wells(n))
  {
    forall id: Id | id < n
      ensures id in Ids(Wells(n))
    {
      assert Wells(n)[id] in Wells(n);
    }
    assert Ids(Wells(n)) == w.cloud.containers;
  }

  // --- the floor ---------------------------------------------------------------------

  /** After a manual replace of connector 0. */
  function Replacing(p: Policy): World
    requires p.Valid()
  {
    ManualReplace(Tick(Adopting(p.minConnectors), 0), 0, 0, Wells(p.minConnectors), NO_FAULTS).0
  }

  /** The first replace of a fleet, when nothing fails. */
  lemma BeginIs(w: World, id: Id, at: int, manual: bool)
    requires w.mem.pending == map[] && w.mem.order == []
    ensures var (v, ok) := BeginReplace(w, id, at, NO_FAULTS, manual);
            var n := w.cloud.nextId;
            && ok
            && v.cloud == Cloud(n + 1, w.cloud.containers + {n}, w.cloud.logical + {n})
            && v.mem == w.mem.(pending := map[id := Pending(n, at)], order := [id])
            && v.store == w.store.(history := w.store.history + [Row(at, Provision, Some(n), true)])
            && v.clock == w.clock
  {
    assert w.mem.order + [id] == [id];
  }

  /** A replace by hand that nothing hinders. */
  lemma HandReplaceIs(w: World, id: Id, at: int, reports: seq<Conn>)
    requires DistinctIds(reports) && id in Ids(reports) && w.mem.pending == map[] && w.mem.order == []
    ensures ManualReplace(w, id, at, reports, NO_FAULTS) == BeginReplace(w, id, at, NO_FAULTS, true)
  {
    DiscoverExact(reports, w.store.cordons);
  }

  ghost predicate OneReplaced(p: Policy, w: World) {
    && p.Valid()
    && w.cloud.containers == FirstIds(p.minConnectors + 1) && w.cloud.logical == w.cloud.containers
    && w.mem == Memory(map[0 := Pending(p.minConnectors, 0)], [0], map[], map[], map[])
    && w.store.cordons == {} && w.clock == 0
  }

  lemma ReplacingIs(p: Policy)
    requires p.Valid()
    ensures OneReplaced(p, Replacing(p))
  {
    var (w, reports) := (Tick(Adopting(p.minConnectors), 0), Wells(p.minConnectors));
    WellsAccurate(w, p.minConnectors);
    assert reports[0] in reports && 0 in Ids(reports);
    HandReplaceIs(w, 0, 0, reports);
    BeginIs(w, 0, 0, true);
  }

  /** Someone may be taken: connector 1 is running and in no replace. */
  lemma SomeVictim(p: Policy, w: World, conns: seq<Conn>, at: int)
    requires Well(1) in conns && EligibleVictim(p, w.mem, Well(1), at)
    ensures PickVictims(p, w.mem, conns, 1, at) != []
  {
    EligibleExact(p, w.mem, conns, at);
    assert Well(1) in Eligible(p, w.mem, conns, at);
  }

  lemma {:induction false} NoneDraining(fleet: seq<Conn>)
    ensures Active(fleet, map[]) == fleet
  {
    if fleet != [] {
      NoneDraining(fleet[..|fleet| - 1]);
      assert fleet == fleet[..|fleet| - 1] + [fleet[|fleet| - 1]];
    }
  }

  /** With no cordons and no drains the cycle's list is what was reported. */
  lemma PlainList(w: World, reports: seq<Conn>)
    requires w.store.cordons == {} && w.mem.draining == map[] && forall c :: c in reports ==> !c.cordoned
    ensures FleetOf(w, reports) == reports && ActiveOf(w, reports) == reports
  {
    var fleet := FleetOf(w, reports);
    forall i | 0 <= i < |fleet|
      ensures fleet[i] == reports[i]
    {
      assert reports[i] in reports;
    }
    assert fleet == reports;
    NoneDraining(fleet);
  }

  /** A scale-down by hand that nothing hinders. */
  lemma HandDownStarts(p: Policy, w: World, at: int, conns: seq<Conn>)
    requires w.store.cordons == {} && w.mem.draining == map[] && (forall c :: c in conns ==> !c.cordoned)
    requires |conns| > p.minConnectors && Ids(conns) <= w.cloud.logical
    requires Well(1) in conns && EligibleVictim(p, w.mem, Well(1), at)
    ensures ManualDown(p, w, at, conns, NO_FAULTS).1
  {
    PlainList(w, conns);
    SomeVictim(p, w, conns, at);
    VictimsEligible(p, w.mem, conns, 1, at);
    var victims := PickVictims(p, w.mem, conns, 1, at);
    assert victims[0] in victims && victims[0].id in Ids(conns);
  }

  lemma WellsPlain(n: nat)
    ensures forall c :: c in Wells(n) ==> !c.cordoned
    ensures n > 1 ==> Well(1) in Wells(n)
  {
    if n > 1 {
      assert Wells(n)[1] in Wells(n);
    }
  }

  lemma OneIsFree(p: Policy, w: World)
    requires p.Valid() && w.mem == Memory(map[0 := Pending(p.minConnectors, 0)], [0], map[], map[], map[])
    ensures EligibleVictim(p, w.mem, Well(1), 0)
  {
  }

  lemma StartSound(p: Policy)
    requires p.Valid()
    ensures var w := Adopting(p.minConnectors);
            Initial(w) && Sound(w) && Accurate(w, Wells(p.minConnectors)) && Survivors(w) == FirstIds(p.minConnectors)
  {
    WellsAccurate(Adopting(p.minConnectors), p.minConnectors);
  }

  lemma ReplacingSound(p: Policy)
    requires p.Valid()
    ensures Sound(Replacing(p)) && Survivors(Replacing(p)) == FirstIds(p.minConnectors + 1) - {0}
  {
    StartSound(p);
    var w := Adopting(p.minConnectors);
    assert Good(x => true, w) && Tick(w, 0) == w;
    HandReplaceKeeps(p, x => true, w, 0, Wells(p.minConnectors), NO_FAULTS);
    ReplacingIs(p);
  }

  /** The scale-down sees enough connectors, and takes one. */
  lemma DownCosts(p: Policy, w: World, conns: seq<Conn>)
    requires OneReplaced(p, w) && Sound(w) && Accurate(w, conns) && |conns| > p.minConnectors
    requires (forall c :: c in conns ==> !c.cordoned) && Well(1) in conns
    ensures var s := ScaleDownByHand(0, conns, NO_FAULTS);
            Enabled(p, w, s) && |Survivors(Apply(p, w, s))| == |Survivors(w)| - 1
  {
    OneIsFree(p, w);
    HandDownStarts(p, w, 0, conns);
    assert Tick(w, 0) == w;
    HandDownCost(p, w, conns, NO_FAULTS);
  }

  /** One survivor goes that could not be spared. */
  ghost predicate Breaches(p: Policy, w: World, s: Step) {
    && s.ScaleDownByHand? && Enabled(p, w, s) && !FloorSafe(p, w, s)
    && |Survivors(Apply(p, w, s))| == p.minConnectors - 1
  }

  lemma ThenBreaches(p: Policy, w: World, s: Step)
    requires p.Valid() && Sound(w) && s.ScaleDownByHand? && Enabled(p, w, s) && |Survivors(w)| == p.minConnectors
    requires |Survivors(Apply(p, w, s))| == |Survivors(w)| - 1
    ensures Breaches(p, w, s)
  {
    StepFloor(p, w, s);
  }

  lemma BreachingStep(p: Policy, w: World, n: nat) returns (s: Step)
    requires OneReplaced(p, w) && Sound(w) && |Survivors(w)| == p.minConnectors && n == p.minConnectors + 1
    ensures Breaches(p, w, s)
  {
    s := ScaleDownByHand(0, Wells(n), NO_FAULTS);
    WellsAccurate(w, n);
    WellsPlain(n);
    DownCosts(p, w, Wells(n));
    ThenBreaches(p, w, s);
  }

  lemma FirstHandStep(p: Policy) returns (w: World, s: Step, v: World)
    requires p.Valid()
    ensures Initial(w) && |Survivors(w)| == p.minConnectors
    ensures s.ReplaceByHand? && Enabled(p, w, s) && v == Apply(p, w, s)
    ensures OneReplaced(p, v) && Sound(v) && |Survivors(v)| == p.minConnectors
  {
    w, s := Adopting(p.minConnectors), ReplaceByHand(0, 0, Wells(p.minConnectors), NO_FAULTS);
    v := Replacing(p);
    StartSound(p);
    ReplacingIs(p);
    ReplacingSound(p);
  }

  /** For every policy: a fleet at the floor, one connector replaced by hand, and then one scaled down by hand,
      is one survivor short. The scale-down sees one connector more than the floor because the one waiting to
      be replaced still counts. */
  lemma HandDownBreach(p: Policy) returns (ws: seq<World>, steps: seq<Step>)
    requires p.Valid()
    ensures Run(p, ws, steps) && Initial(ws[0]) && |steps| == 2 && FloorSafe(p, ws[0], steps[0])
    ensures |Survivors(ws[0])| == p.minConnectors && |Survivors(ws[1])| == p.minConnectors
    ensures Breaches(p, ws[1], steps[1]) && ws[2] == Apply(p, ws[1], steps[1])
  {
    var w, s, v := FirstHandStep(p);
    var t := BreachingStep(p, v, p.minConnectors + 1);
    ws, steps := TwoSteps(p, w, s, t);
  }

  lemma OneMore(p: Policy, ws: seq<World>, steps: seq<Step>, s: Step, v: World)
    requires Run(p, ws, steps) && Enabled(p, ws[|steps|], s) && v == Apply(p, ws[|steps|], s)
    ensures Run(p, ws + [v], steps + [s])
  {
  }

  lemma TwoSteps(p: Policy, w: World, s: Step, t: Step) returns (ws: seq<World>, steps: seq<Step>)
    requires Enabled(p, w, s) && Enabled(p, Apply(p, w, s), t)
    ensures Run(p, ws, steps) && |steps| == 2 && ws[0] == w && steps[0] == s && steps[1] == t
    ensures ws[1] == Apply(p, w, s) && ws[2] == Apply(p, Apply(p, w, s), t)
  {
    var (v, u) := (Apply(p, w, s), Apply(p, Apply(p, w, s), t));
    OneMore(p, [w], [], s, v);
    ws, steps := [w] + [v], [] + [s];
    OneMore(p, ws, steps, t, u);
    ws, steps := ws + [u], steps + [t];
  }

  // --- one replace after another -----------------------------------------------------------

  /** One replace is pending, its replacement is seen healthy, and everything else is well. */
  ghost predicate CompletesNow(p: Policy, w: World, reports: seq<Conn>, c: Conn, f: Faults) {
    var conns := ActiveOf(w, reports);
    && c in conns && w.mem.pending.Keys == {c.id} && w.mem.pending[c.id].newId in HealthyIds(conns)
    && c.id in w.cloud.logical && c.id !in f.delete && f.provision == map[]
    && |conns| >= p.minConnectors
    && forall x :: x in conns && x.id != c.id ==> !IsUnhealthy(x)
  }

  lemma CompletionDeletes(p: Policy, w: World, at: int, reports: seq<Conn>, load: Load, c: Conn, f: Faults)
    requires p.Valid() && Sound(w) && Accurate(w, reports) && w.clock <= at && CompletesNow(p, w, reports, c, f)
    ensures var seen := Observe(Tick(w, at), FleetOf(w, reports), at);
            var conns := ActiveOf(w, reports);
            var scaled := ScalePhase(p, seen, conns, load, at, f);
            var v := ReplacePhase(p, scaled, conns, at, f);
            && GatesOf(v.mem) == GatesNow(w, reports, at)
            && v.cloud == w.cloud.(logical := w.cloud.logical - {c.id})
            && v.mem.pending == map[] && c.id in v.mem.draining
            && v.store.history == w.store.history + [Row(at, Replace, Some(c.id), true)]
            && v.clock == at
  {
    var seen := Observe(Tick(w, at), FleetOf(w, reports), at);
    var conns := ActiveOf(w, reports);
    DecisionRails(p, load, |conns|, seen.store.lastUp, seen.store.lastDown, at, seen.mem.pending != map[]);
    assert c.id in seen.mem.pending && seen.mem.pending != map[];
    var d := ScaleDecision(p, seen, conns, load, at);
    assert d.direction == Stay;
    SingleOrder(w, c.id);
    assert c.id in Ids(conns);
    assert [c.id][..0] == [];
    assert AdvanceReplaces(p, seen, conns, [], at, f) == seen;
    assert Without([c.id], c.id) == [];
    assert seen.mem.pending - {c.id} == map[];
  }

  lemma SingleOrder(w: World, id: Id)
    requires OrderOk(w) && w.mem.pending.Keys == {id}
    ensures w.mem.order == [id]
  {
    assert id in w.mem.order;
    assert w.mem.order[0] in w.mem.order && w.mem.order[|w.mem.order| - 1] in w.mem.order;
  }

  /** The plan's verdict on `c` when every other connector is well. */
  lemma LoneVerdict(p: Policy, conns: seq<Conn>, history: seq<Row>, g: Gates, at: int, c: Conn)
    requires DistinctIds(conns) && c in conns
    requires forall x :: x in conns && x.id != c.id ==> !IsUnhealthy(x)
    ensures var plan := HealthActions(p, conns, RestartCounts(p, history, conns, at), g, at);
            if !Remediable(p, c, g, at) then plan == []
            else if CountRestarts(history, c.id, at - p.restartWindow) >= p.maxRestarts
            then plan == [HealthAction(c.id, ReplaceNew)]
            else plan == [HealthAction(c.id, RestartInPlace)]
  {
    var counts := RestartCounts(p, history, conns, at);
    LonePlan(p, conns, counts, g, at, c);
    assert !c.cordoned ==> CountOf(counts, c.id) == CountRestarts(history, c.id, at - p.restartWindow);
  }

  lemma PlanAfterCompletion(p: Policy, w: World, at: int, conns: seq<Conn>, g: Gates, c: Conn, v: World)
    requires DistinctIds(conns) && c in conns
    requires forall x :: x in conns && x.id != c.id ==> !IsUnhealthy(x)
    requires v.store.history == w.store.history + [Row(at, Replace, Some(c.id), true)]
    requires GatesOf(v.mem) == g
    ensures var plan := HealthPlan(p, v, conns, at);
            if BudgetSpent(p, w, g, c, at) then plan == [HealthAction(c.id, ReplaceNew)]
            else plan == [] || plan == [HealthAction(c.id, RestartInPlace)]
  {
    CountAppend(w.store.history, Row(at, Replace, Some(c.id), true), c.id, at - p.restartWindow);
    LoneVerdict(p, conns, v.store.history, g, at, c);
  }

  lemma RemediateSingle(w: World, a: HealthAction, at: int, f: Faults)
    ensures RemediateAll(w, [a], at, f) == Remediate(w, a, at, f)
  {
    assert [a][..0] == [];
  }

  lemma HealthAfterCompletion(p: Policy, v: World, conns: seq<Conn>, c: Conn, f: Faults)
    requires v.mem.pending == map[] && f.provision == map[] && c.id in v.mem.draining
    requires var plan := HealthPlan(p, v, conns, v.clock);
             plan == [] || plan == [HealthAction(c.id, ReplaceNew)] || plan == [HealthAction(c.id, RestartInPlace)]
    ensures var r := HealthPhase(p, v, conns, v.clock, f);
            var again := HealthPlan(p, v, conns, v.clock) == [HealthAction(c.id, ReplaceNew)];
            && c.id in r.mem.draining && (c.id in r.mem.pending <==> again)
            && r.cloud.containers == v.cloud.containers + if again then {v.cloud.nextId} else {}
  {
    RemediateSingle(v, HealthAction(c.id, ReplaceNew), v.clock, f);
    RemediateSingle(v, HealthAction(c.id, RestartInPlace), v.clock, f);
  }

  /** With everything else well, a completion adds a second replacement and nothing else, or leaves the
      containers as they are. */
  lemma LoneCompletion(p: Policy, w: World, at: int, reports: seq<Conn>, load: Load, c: Conn, f: Faults)
    requires p.Valid() && Sound(w) && Accurate(w, reports) && w.clock <= at && CompletesNow(p, w, reports, c, f)
    ensures var v := CycleStep(p, w, at, reports, load, f);
            && c.id in v.mem.draining
            && (c.id in v.mem.pending <==> BudgetSpent(p, w, GatesNow(w, reports, at), c, at))
            && v.cloud.containers == w.cloud.containers +
                 if BudgetSpent(p, w, GatesNow(w, reports, at), c, at) then {w.cloud.nextId} else {}
  {
    var seen := Observe(Tick(w, at), FleetOf(w, reports), at);
    var conns := ActiveOf(w, reports);
    var v := ReplacePhase(p, ScalePhase(p, seen, conns, load, at, f), conns, at, f);
    CompletionDeletes(p, w, at, reports, load, c, f);
    ActiveOfExact(w, reports);
    PlanAfterCompletion(p, w, at, conns, GatesNow(w, reports, at), c, v);
    HealthAfterCompletion(p, v, conns, c, f);
    assert [HealthAction(c.id, RestartInPlace)][0].kind != [HealthAction(c.id, ReplaceNew)][0].kind;
  }

  /** With every other connector well, the plan is the verdict on `c` alone. */
  lemma {:induction false} LonePlan(p: Policy, conns: seq<Conn>, counts: map<Id, nat>, g: Gates, now: int, c: Conn)
    requires DistinctIds(conns)
    requires forall x :: x in conns && x.id != c.id ==> !IsUnhealthy(x)
    requires c.id in Ids(conns) ==> c in conns
    ensures HealthActions(p, conns, counts, g, now) == if c in conns then Verdict(p, c, counts, g, now) else []
  {
    if conns != [] {
      var init, last := conns[..|conns| - 1], conns[|conns| - 1];
      assert conns == init + [last];
      if last == c {
        forall x | x in init
          ensures x.id != c.id
        {
          var i :| 0 <= i < |init| && init[i] == x;
          assert conns[i] == x && conns[|conns| - 1] == c;
        }
      }
      LonePlan(p, init, counts, g, now, c);
    }
  }

  /** Two connectors at most and at least, one restart before a replace, no gates on time. */
  const TIGHT := Policy(2, 2, 1, MetricRule(80.0, 20.0, 60, Avg), MetricRule(100.0, 10.0, 60, Avg), Any, 0.5,
                        0, 0, 30, 1, 600, 0, 0, 60)

  lemma NothingToScale(w: World, conns: seq<Conn>, at: int, f: Faults)
    requires |conns| == 2
    ensures ScalePhase(TIGHT, w, conns, NO_LOAD, at, f) == w
  {
    assert HotIds(TIGHT, NO_LOAD.cpuBy, NO_LOAD.throughputBy) == {};
  }

  /** What connector 0 gets when it alone is sick and is in no replace. */
  function Due0(w: World, at: int): HealthAction {
    HealthAction(0, if CountRestarts(w.store.history, 0, at - 600) >= 1 then ReplaceNew else RestartInPlace)
  }

  const PAIR: seq<Conn> := [Sick(0), Well(1)]

  /** What looking leaves alone. */
  ghost predicate OnlySeen(w: World, seen: World, at: int) {
    && seen.cloud == w.cloud && seen.store == w.store && seen.clock == at
    && seen.mem.pending == w.mem.pending && seen.mem.order == w.mem.order && seen.mem.draining == w.mem.draining
  }

  /** A cycle with connector 0 sick and nothing else to do. */
  lemma SickCycle(w: World, at: int) returns (seen: World)
    requires w.mem.pending == map[] && w.mem.order == [] && w.mem.draining == map[] && w.store.cordons == {}
    ensures OnlySeen(w, seen, at)
    ensures CycleStep(TIGHT, w, at, PAIR, NO_LOAD, NO_FAULTS) == Remediate(seen, Due0(w, at), at, NO_FAULTS)
  {
    PlainList(w, PAIR);
    seen := Observe(Tick(w, at), PAIR, at);
    NothingToScale(seen, PAIR, at, NO_FAULTS);
    assert ReplacePhase(TIGHT, seen, PAIR, at, NO_FAULTS) == seen;
    SickPlan(seen, at);
    RemediateSingle(seen, Due0(w, at), at, NO_FAULTS);
  }

  lemma SickPlan(w: World, at: int)
    requires w.mem.pending == map[]
    ensures HealthPlan(TIGHT, w, PAIR, at) == [Due0(w, at)]
  {
    LoneVerdict(TIGHT, PAIR, w.store.history, GatesOf(w.mem), at, Sick(0));
  }

  const TRIO: seq<Conn> := [Sick(0), Well(1), Well(2)]

  lemma SickRestart(w: World, at: int)
    requires w.mem.pending == map[] && w.mem.order == [] && w.mem.draining == map[] && w.store.cordons == {}
    requires CountRestarts(w.store.history, 0, at - 600) == 0
    ensures var v := CycleStep(TIGHT, w, at, PAIR, NO_LOAD, NO_FAULTS);
            && v.cloud == w.cloud && v.store == w.store.(history := w.store.history + [Row(at, Restart, Some(0), true)])
            && v.mem.pending == map[] && v.mem.order == [] && v.mem.draining == map[] && v.clock == at
  {
    var seen := SickCycle(w, at);
  }

  lemma SickReplace(w: World, at: int)
    requires w.mem.pending == map[] && w.mem.order == [] && w.mem.draining == map[] && w.store.cordons == {}
    requires CountRestarts(w.store.history, 0, at - 600) >= 1
    ensures var v := CycleStep(TIGHT, w, at, PAIR, NO_LOAD, NO_FAULTS);
            var n := w.cloud.nextId;
            && v.cloud == Cloud(n + 1, w.cloud.containers + {n}, w.cloud.logical + {n})
            && v.store == w.store.(history := w.store.history + [Row(at, Provision, Some(n), true)])
            && v.mem.pending == map[0 := Pending(n, at)] && v.mem.order == [0] && v.mem.draining == map[]
            && v.clock == at
  {
    var seen := SickCycle(w, at);
    BeginIs(seen, 0, at, false);
  }

  lemma OneRestart(later: seq<Row>, since: int)
    requires since <= 0 && (later == [] || later == [Row(1, Provision, Some(2), true)])
    ensures CountRestarts([Row(0, Restart, Some(0), true)] + later, 0, since) == 1
  {
    var rows: seq<Row> := [];
    CountAppend(rows, Row(0, Restart, Some(0), true), 0, since);
    assert rows + [Row(0, Restart, Some(0), true)] == [Row(0, Restart, Some(0), true)];
    if later == [] {
      assert [Row(0, Restart, Some(0), true)] + later == [Row(0, Restart, Some(0), true)];
    } else {
      CountAppend([Row(0, Restart, Some(0), true)], Row(1, Provision, Some(2), true), 0, since);
    }
  }

  /** What one restart and one replace have left. */
  ghost predicate Replaced(w: World) {
    && w.cloud == Cloud(3, FirstIds(3), FirstIds(3)) && w.store.cordons == {}
    && w.store.history == [Row(0, Restart, Some(0), true)] + [Row(1, Provision, Some(2), true)]
    && w.mem.pending == map[0 := Pending(2, 1)] && w.mem.order == [0] && w.mem.draining == map[] && w.clock == 1
  }

  /** What one restart has left. */
  ghost predicate Restarted(w: World) {
    && w.cloud == Cloud(2, FirstIds(2), FirstIds(2)) && w.store.cordons == {}
    && w.store.history == [Row(0, Restart, Some(0), true)]
    && w.mem.pending == map[] && w.mem.order == [] && w.mem.draining == map[] && w.clock == 0
  }

  ghost predicate Started(w: World) {
    && w.cloud == Cloud(2, FirstIds(2), FirstIds(2)) && w.store == Store({}, None, None, [])
    && w.mem == Memory(map[], [], map[], map[], map[]) && w.clock == 0
  }

  lemma FirstCycle(w: World)
    requires Started(w)
    ensures Restarted(CycleStep(TIGHT, w, 0, PAIR, NO_LOAD, NO_FAULTS))
  {
    SickRestart(w, 0);
    assert w.store.history + [Row(0, Restart, Some(0), true)] == [Row(0, Restart, Some(0), true)];
  }

  lemma FirstCycleSound(w: World)
    requires Started(w) && Sound(w)
    ensures Enabled(TIGHT, w, Cycle(0, PAIR, NO_LOAD, NO_FAULTS))
            && Sound(CycleStep(TIGHT, w, 0, PAIR, NO_LOAD, NO_FAULTS))
  {
    PairAccurate(w);
    CycleKeeps(TIGHT, x => true, w, 0, PAIR, NO_LOAD, NO_FAULTS);
  }

  lemma SecondCycle(w: World)
    requires Restarted(w) && Sound(w)
    ensures Replaced(CycleStep(TIGHT, w, 1, PAIR, NO_LOAD, NO_FAULTS))
    ensures Enabled(TIGHT, w, Cycle(1, PAIR, NO_LOAD, NO_FAULTS))
            && Sound(CycleStep(TIGHT, w, 1, PAIR, NO_LOAD, NO_FAULTS))
  {
    OneRestart([], 1 - 600);
    assert [Row(0, Restart, Some(0), true)] + [] == [Row(0, Restart, Some(0), true)];
    SickReplace(w, 1);
    assert FirstIds(2) + {2} == FirstIds(3);
    PairAccurate(w);
    CycleKeeps(TIGHT, x => true, w, 1, PAIR, NO_LOAD, NO_FAULTS);
  }

  lemma PairAccurate(w: World)
    requires w.cloud.containers == FirstIds(2)
    ensures Accurate(w, PAIR)
  {
    assert PAIR[0] in PAIR && PAIR[1] in PAIR;
    assert 0 in Ids(PAIR) && 1 in Ids(PAIR);
    assert Ids(PAIR) == FirstIds(2);
  }

  lemma TrioAccurate(w: World)
    requires w.cloud.containers == FirstIds(3)
    ensures Accurate(w, TRIO)
  {
    assert TRIO[0] in TRIO && TRIO[1] in TRIO && TRIO[2] in TRIO;
    assert 0 in Ids(TRIO) && 1 in Ids(TRIO) && 2 in Ids(TRIO);
    assert Ids(TRIO) == FirstIds(3);
  }

  lemma ReadyToComplete(w: World)
    requires Replaced(w)
    ensures CompletesNow(TIGHT, w, TRIO, Sick(0), NO_FAULTS)
  {
    PlainList(w, TRIO);
    assert TRIO[0] in TRIO && TRIO[2] in TRIO;
    assert 2 in HealthyIds(TRIO);
  }

  lemma BudgetGone(w: World)
    requires Replaced(w)
    ensures BudgetSpent(TIGHT, w, GatesNow(w, TRIO, 2), Sick(0), 2)
  {
    OneRestart([Row(1, Provision, Some(2), true)], 2 - 600);
  }

  lemma ThirdCycle(w: World)
    requires Replaced(w) && Sound(w)
    ensures Enabled(TIGHT, w, Cycle(2, TRIO, NO_LOAD, NO_FAULTS))
    ensures var v := CycleStep(TIGHT, w, 2, TRIO, NO_LOAD, NO_FAULTS);
            v.cloud.containers == FirstIds(4) && 0 in v.mem.draining && 0 in v.mem.pending
  {
    TrioAccurate(w);
    ReadyToComplete(w);
    BudgetGone(w);
    LoneCompletion(TIGHT, w, 2, TRIO, NO_LOAD, Sick(0), NO_FAULTS);
    assert FirstIds(3) + {3} == FirstIds(4);
  }

  /** A fleet at its ceiling of two: connector 0 is restarted, then replaced, and the cycle that completes the
      replace and starts to drain it begins another replace of it: four containers run, and connector 0 is both
      draining and waiting to be replaced. */
  lemma ReplacedTwice() returns (ws: seq<World>, steps: seq<Step>)
    ensures TIGHT.Valid() && Run(TIGHT, ws, steps) && Initial(ws[0]) && |steps| == 3
    ensures ws[0].cloud.containers == FirstIds(2) && ws[3].cloud.containers == FirstIds(4)
    ensures 0 in ws[3].mem.draining && 0 in ws[3].mem.pending
  {
    var w := Adopting(2);
    var v := CycleStep(TIGHT, w, 0, PAIR, NO_LOAD, NO_FAULTS);
    FirstCycle(w);
    FirstCycleSound(w);
    SecondCycle(v);
    ThirdCycle(CycleStep(TIGHT, v, 1, PAIR, NO_LOAD, NO_FAULTS));
    ws, steps := ThreeSteps(TIGHT, w, Cycle(0, PAIR, NO_LOAD, NO_FAULTS), Cycle(1, PAIR, NO_LOAD, NO_FAULTS),
                            Cycle(2, TRIO, NO_LOAD, NO_FAULTS));
  }

  lemma ThreeSteps(p: Policy, w: World, s: Step, t: Step, u: Step) returns (ws: seq<World>, steps: seq<Step>)
    requires Enabled(p, w, s) && Enabled(p, Apply(p, w, s), t) && Enabled(p, Apply(p, Apply(p, w, s), t), u)
    ensures Run(p, ws, steps) && |steps| == 3 && ws[0] == w && ws[3] == Apply(p, Apply(p, Apply(p, w, s), t), u)
  {
    ws, steps := TwoSteps(p, w, s, t);
    OneMore(p, ws, steps, u, Apply(p, ws[2], u));
    ws, steps := ws + [Apply(p, ws[2], u)], steps + [u];
  }

  // --- a cordon that comes late ----------------------------------------------------------------

  /** A replace of connector 0 is in flight, and the operator has cordoned it. */
  ghost predicate HandedOver(w: World) {
    && Sound(w) && w.cloud == Cloud(3, FirstIds(3), FirstIds(3)) && w.store.cordons == {0}
    && w.mem.pending == map[0 := Pending(2, 1)] && w.mem.order == [0] && w.mem.draining == map[] && w.clock == 1
  }

  lemma CordonStep(w: World)
    requires Replaced(w) && Sound(w)
    ensures var s := CordonByHand(1, 0, true, TRIO);
            Enabled(TIGHT, w, s) && HandedOver(Apply(TIGHT, w, s))
  {
    TrioAccurate(w);
    assert TRIO[0] in TRIO && 0 in Ids(TRIO);
    assert Tick(w, 1) == w;
    CordonHolds(w, TRIO);
  }

  lemma CordonHolds(w: World, reports: seq<Conn>)
    requires Replaced(w) && Sound(w) && Accurate(w, reports) && 0 in Ids(reports)
    ensures HandedOver(ManualCordon(w, 0, true, w.clock, reports).0)
  {
    CordonSound(w, reports);
    DiscoverExact(reports, w.store.cordons);
  }

  lemma CordonSound(w: World, reports: seq<Conn>)
    requires Sound(w)
    ensures Sound(ManualCordon(w, 0, true, w.clock, reports).0)
  {
    assert Good(x => true, w);
    HandCordonKeeps(TIGHT, x => true, w, 0, true, reports);
  }

  lemma CordonedList(w: World)
    requires w.store.cordons == {0} && w.mem.draining == map[]
    ensures var conns := ActiveOf(w, TRIO);
            Sick(0).(cordoned := true) in conns && Well(2) in conns
  {
    var fleet := FleetOf(w, TRIO);
    NoneDraining(fleet);
    assert fleet[0] in fleet && fleet[2] in fleet;
  }

  lemma CordonedCompletes(w: World)
    requires HandedOver(w)
    ensures Accurate(w, TRIO) && WillComplete(TIGHT, w, 2, TRIO, NO_FAULTS, 0)
  {
    TrioAccurate(w);
    CordonedList(w);
    assert 2 in HealthyIds(ActiveOf(w, TRIO));
    assert w.mem.order[..0] == [];
  }

  /** The last step stops routing to connector 0 and drains it. */
  ghost predicate Stops0(w: World, v: World) { RoutingStopped(w.trace, v.trace, 0) && 0 in v.mem.draining }

  lemma CordonedCycle(w: World) returns (s: Step)
    requires HandedOver(w) && TIGHT.Valid()
    ensures s.Cycle? && Enabled(TIGHT, w, s) && Stops0(w, Apply(TIGHT, w, s))
  {
    s := Cycle(2, TRIO, NO_LOAD, NO_FAULTS);
    CordonedCompletes(w);
    CordonedList(w);
    CordonedStoppedExact(TIGHT, w, 2, TRIO, NO_LOAD, NO_FAULTS, Sick(0).(cordoned := true));
  }

  /** The run goes on with `s`. */
  lemma Onward(p: Policy, ws: seq<World>, steps: seq<Step>, s: Step) returns (longer: seq<World>, more: seq<Step>)
    requires Run(p, ws, steps) && Enabled(p, ws[|steps|], s)
    ensures Run(p, longer, more) && longer == ws + [Apply(p, ws[|steps|], s)] && more == steps + [s]
  {
    OneMore(p, ws, steps, s, Apply(p, ws[|steps|], s));
    longer, more := ws + [Apply(p, ws[|steps|], s)], steps + [s];
  }

  lemma Cordoned0() returns (ws: seq<World>, steps: seq<Step>)
    ensures TIGHT.Valid() && Run(TIGHT, ws, steps) && Initial(ws[0]) && |steps| == 3
    ensures steps[2] == CordonByHand(1, 0, true, TRIO) && HandedOver(ws[3])
  {
    var vs, earlier := ReplaceBegun0();
    CordonStep(vs[2]);
    ws, steps := Onward(TIGHT, vs, earlier, CordonByHand(1, 0, true, TRIO));
  }

  lemma EndsSo(p: Policy, ws: seq<World>, steps: seq<Step>, last: Step) returns (longer: seq<World>, more: seq<Step>)
    requires Run(p, ws, steps) && |steps| == 3 && last.Cycle?
    requires Enabled(p, ws[3], last) && Stops0(ws[3], Apply(p, ws[3], last))
    ensures Run(p, longer, more) && |more| == 4 && steps <= more && ws <= longer
    ensures more[3].Cycle? && Stops0(longer[3], longer[4])
  {
    longer, more := Onward(p, ws, steps, last);
  }

  /** Connector 0 is restarted, then a replace of it begins for its health, and then the operator cordons it. The
      next cycle stops routing to it and drains it. */
  lemma CordonedYetReplaced() returns (ws: seq<World>, steps: seq<Step>)
    ensures TIGHT.Valid() && Run(TIGHT, ws, steps) && Initial(ws[0]) && |steps| == 4
    ensures steps[2] == CordonByHand(1, 0, true, TRIO) && 0 in ws[3].store.cordons
    ensures steps[3].Cycle? && Stops0(ws[3], ws[4])
  {
    var vs, earlier := Cordoned0();
    assert 0 in vs[3].store.cordons;
    var last := CordonedCycle(vs[3]);
    ws, steps := EndsSo(TIGHT, vs, earlier, last);
  }

  /** One restart, then one replace begun. */
  lemma ReplaceBegun0() returns (ws: seq<World>, steps: seq<Step>)
    ensures TIGHT.Valid() && Run(TIGHT, ws, steps) && Initial(ws[0]) && |steps| == 2
    ensures Replaced(ws[2]) && Sound(ws[2])
  {
    var w := Adopting(2);
    var v := CycleStep(TIGHT, w, 0, PAIR, NO_LOAD, NO_FAULTS);
    FirstCycle(w);
    FirstCycleSound(w);
    SecondCycle(v);
    ws, steps := TwoSteps(TIGHT, w, Cycle(0, PAIR, NO_LOAD, NO_FAULTS), Cycle(1, PAIR, NO_LOAD, NO_FAULTS));
  }
}
