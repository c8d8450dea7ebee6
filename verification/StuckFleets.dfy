/** Runs from an empty store through a failed removal: the container it leaves behind outlives teardown, and
    while it comes first among the eligible it keeps a fleet under low load from ever scaling down. */
module StuckFleets {
  import opened Basics
  import opened Policies
  import opened Decider
  import opened Fleet
  import opened Effects
  import opened Steps
  import opened Floor
  import opened Completions
  import opened Remedies
  import opened Ledger
  import opened FleetTeardown
  import opened Convergence
  import opened Witnesses

  lemma {:induction false} AllEligible(p: Policy, m: Memory, conns: seq<Conn>, now: int)
    requires forall c :: c in conns ==> EligibleVictim(p, m, c, now)
    ensures Eligible(p, m, conns, now) == conns
  {
    if conns != [] {
      AllEligible(p, m, conns[..|conns| - 1], now);
      assert conns == conns[..|conns| - 1] + [conns[|conns| - 1]];
    }
  }

  /** Nobody is cordoned, draining or in a replace: the list is the reports. */
  lemma PlainWells(w: World, n: nat)
    requires w.mem.draining == map[] && w.store.cordons == {}
    ensures ActiveOf(w, Wells(n)) == Wells(n)
  {
    WellsPlain(n);
    PlainList(w, Wells(n));
  }

  /** With none in its grace all are eligible, and the first is the first to go. */
  lemma FirstVictim(p: Policy, m: Memory, n: nat, at: int)
    requires m.pending == map[] && n > 0 && forall id: Id :: id < n ==> !WithinGrace(p, m, id, at)
    ensures Eligible(p, m, Wells(n), at) == Wells(n) && PickVictims(p, m, Wells(n), 1, at) == [Well(0)]
  {
    WellsPlain(n);
    forall c | c in Wells(n)
      ensures EligibleVictim(p, m, c, at)
    {
      var i :| 0 <= i < n && Wells(n)[i] == c;
    }
    AllEligible(p, m, Wells(n), at);
    assert Wells(n)[..1] == [Well(0)];
  }

  lemma {:induction false} NoneEligible(p: Policy, m: Memory, conns: seq<Conn>, now: int)
    requires forall c :: c in conns ==> !EligibleVictim(p, m, c, now)
    ensures Eligible(p, m, conns, now) == []
  {
    if conns != [] {
      assert conns[|conns| - 1] in conns;
      NoneEligible(p, m, conns[..|conns| - 1], now);
    }
  }

  /** With all in their grace none is. */
  lemma NoVictim(p: Policy, m: Memory, n: nat, k: nat, at: int)
    requires forall id: Id :: id < n ==> WithinGrace(p, m, id, at)
    ensures PickVictims(p, m, Wells(n), k, at) == []
  {
    forall c | c in Wells(n)
      ensures !EligibleVictim(p, m, c, at)
    {
      var i :| 0 <= i < n && Wells(n)[i] == c;
    }
    NoneEligible(p, m, Wells(n), at);
  }

  // --- a failed removal ----------------------------------------------------------------

  /** Connector 0 drains. */
  ghost predicate OneDrains(w: World, n: nat) {
    && w.cloud == Cloud(n, FirstIds(n), FirstIds(n) - {0}) && w.store.cordons == {} && w.store.lastDown == Some(0)
    && w.mem == Memory(map[], [], map[0 := 0], map[], map[]) && w.clock == 0
  }

  lemma HandDownDrains(p: Policy, w: World, n: nat)
    requires p.Valid() && w == Adopting(n) && n > p.minConnectors
    ensures OneDrains(ManualDown(p, w, 0, Wells(n), NO_FAULTS).0, n)
  {
    PlainWells(w, n);
    FirstVictim(p, w.mem, n, 0);
  }

  /** Connector 0 could not be removed, and nothing else is going on. */
  ghost predicate OneLeft(w: World, n: nat) {
    && Sound(w) && w.clock >= 0
    && w.cloud.containers == FirstIds(n) && w.cloud.logical == FirstIds(n) - {0}
    && w.store.cordons == {} && w.store.lastDown == Some(0)
    && w.mem.pending == map[] && w.mem.order == [] && w.mem.draining == map[]
  }

  function Size(p: Policy): nat
    requires p.Valid()
  {
    p.minConnectors + 1
  }

  /** For every policy: a fleet one above the floor, a scale-down by hand, and a removal that fails. */
  lemma FailedRemoval(p: Policy) returns (ws: seq<World>, steps: seq<Step>)
    requires p.Valid()
    ensures Run(p, ws, steps) && Initial(ws[0]) && |steps| == 2
    ensures OneLeft(ws[2], Size(p)) && Stuck(ws[2], 0) && ws[2].mem.firstSeen == map[]
  {
    var (n, w) := (Size(p), Adopting(Size(p)));
    WellsAccurate(w, n);
    assert Tick(w, 0) == w;
    HandDownDrains(p, w, n);
    ws, steps := TwoSteps(p, w, ScaleDownByHand(0, Wells(n), NO_FAULTS), DrainTail(p.drainGrace, 0, false));
    InitialSound(w);
    RunSound(p, ws, steps, 2);
  }

  // --- teardown ----------------------------------------------------------------------------

  lemma RunFrom(p: Policy, w: World, s: Step, ws: seq<World>, steps: seq<Step>)
    requires Run(p, ws, steps) && Enabled(p, w, s) && ws[0] == Apply(p, w, s)
    ensures Run(p, [w] + ws, [s] + steps)
  {
    var (vs, more) := ([w] + ws, [s] + steps);
    forall i {:trigger more[i]} | 0 <= i < |more|
      ensures Enabled(p, vs[i], more[i]) && vs[i + 1] == Apply(p, vs[i], more[i])
    {
      if i > 0 {
        StepAt(p, ws, steps, i - 1);
        assert more[i] == steps[i - 1] && vs[i] == ws[i - 1];
      }
    }
  }

  lemma StepAt(p: Policy, ws: seq<World>, steps: seq<Step>, k: nat)
    requires Run(p, ws, steps) && k < |steps|
    ensures Enabled(p, ws[k], steps[k]) && ws[k + 1] == Apply(p, ws[k], steps[k])
  {
  }

  lemma Join(p: Policy, ws: seq<World>, steps: seq<Step>, vs: seq<World>, more: seq<Step>)
    requires Run(p, ws, steps) && Run(p, vs, more) && vs[0] == ws[|steps|]
    ensures Run(p, ws[..|steps|] + vs, steps + more)
  {
  }

  /** Every drain in flight can end well. */
  lemma {:induction false} DrainOut(p: Policy, w: World, at: int) returns (ws: seq<World>, steps: seq<Step>)
    requires w.clock <= at && forall id :: id in w.mem.draining ==> w.mem.draining[id] + p.drainGrace <= at
    ensures Run(p, ws, steps) && ws[0] == w && OnlyTails(steps) && (forall s :: s in steps ==> s.ok)
    ensures ws[|steps|].mem.draining == map[]
    decreases w.mem.draining.Keys
  {
    if w.mem.draining == map[] {
      ws, steps := [w], [];
    } else {
      var id :| id in w.mem.draining;
      var s := DrainTail(at, id, true);
      var v := Apply(p, w, s);
      ws, steps := DrainOut(p, v, at);
      RunFrom(p, w, s, ws, steps);
      ws, steps := [w] + ws, [s] + steps;
    }
  }

  ghost predicate WellEnded(steps: seq<Step>, from: nat) {
    from <= |steps| && forall k :: from <= k < |steps| ==> steps[k].DrainTail? && steps[k].ok
  }

  /** A teardown of all that is there, nothing failing, and every drain of it ended well. */
  ghost predicate TornDown(p: Policy, ws: seq<World>, steps: seq<Step>, from: nat) {
    && Run(p, ws, steps) && from < |steps|
    && steps[from].Teardown? && steps[from].faults == NO_FAULTS && WellEnded(steps, from + 1)
    && ws[|steps|].mem.draining == map[]
  }

  lemma TeardownAfter(p: Policy, w: World, at: int, reports: seq<Conn>) returns (ws: seq<World>, steps: seq<Step>)
    requires p.Valid() && Sound(w) && Accurate(w, reports) && w.clock <= at
    ensures TornDown(p, ws, steps, 0) && ws[0] == w && ws[|steps|].cloud.containers == StuckIds(w)
  {
    var s := Teardown(at, reports, NO_FAULTS);
    var v := Apply(p, w, s);
    assert Good(x => true, w);
    StepKeeps(p, x => true, w, s);
    AllFrame(Tick(w, at), ActiveOf(Tick(w, at), reports), at, NO_FAULTS, ByTeardown);
    ws, steps := DrainOut(p, v, at + p.drainGrace);
    TeardownCompletes(p, w, at, reports, NO_FAULTS, ws, steps);
    RunFrom(p, w, s, ws, steps);
    ws, steps := [w] + ws, [s] + steps;
  }

  lemma JoinTornDown(p: Policy, ws: seq<World>, steps: seq<Step>, vs: seq<World>, more: seq<Step>)
    returns (all: seq<World>, moves: seq<Step>)
    requires Run(p, ws, steps) && TornDown(p, vs, more, 0) && vs[0] == ws[|steps|]
    ensures TornDown(p, all, moves, |steps|) && |all| == |moves| + 1
    ensures all[0] == ws[0] && all[|steps|] == vs[0] && all[|moves|] == vs[|more|]
  {
    Join(p, ws, steps, vs, more);
    all, moves := ws[..|steps|] + vs, steps + more;
  }

  lemma OneStuck(w: World, n: nat)
    requires OneLeft(w, n) && n > 0
    ensures StuckIds(w) == {0}
  {
  }

  lemma TeardownThen(p: Policy, ws: seq<World>, steps: seq<Step>, n: nat) returns (all: seq<World>, moves: seq<Step>)
    requires p.Valid() && Run(p, ws, steps) && OneLeft(ws[|steps|], n) && n > 0
    ensures TornDown(p, all, moves, |steps|) && |all| == |moves| + 1
    ensures all[0] == ws[0] && all[|steps|] == ws[|steps|] && all[|moves|].cloud.containers == {0}
  {
    var w := ws[|steps|];
    WellsAccurate(w, n);
    OneStuck(w, n);
    var vs, more := TeardownAfter(p, w, w.clock, Wells(n));
    all, moves := JoinTornDown(p, ws, steps, vs, more);
  }

  /** For every policy: a removal fails, and the teardown that follows, with nothing failing any more, leaves
      that container running. */
  lemma TeardownLeavesStuck(p: Policy) returns (ws: seq<World>, steps: seq<Step>)
    requires p.Valid()
    ensures TornDown(p, ws, steps, 2) && Initial(ws[0])
    ensures Stuck(ws[2], 0) && ws[|steps|].cloud.containers == {0}
  {
    var vs, more := FailedRemoval(p);
    ws, steps := TeardownThen(p, vs, more, Size(p));
  }

  // --- low load ------------------------------------------------------------------------------

  /** No connector is hot, and the fleet's CPU is idle. */
  const IDLE := Load(Some(0.0), None, map[], map[])

  /** A cycle of low load with the cooldown and every startup grace over, in which nothing fails. */
  function IdleCycle(p: Policy, w: World, n: nat): Step {
    Cycle(Max(w.clock, p.downCooldown) + p.startupGrace, Wells(n), IDLE, NO_FAULTS)
  }

  lemma IdleIsLow(p: Policy, n: nat)
    requires p.Valid()
    ensures !Triggered(p, IDLE, n) && IsLowLoad(p, IDLE.cpu, IDLE.throughput)
  {
    assert HotIds(p, IDLE.cpuBy, IDLE.throughputBy) == {};
  }

  /** Every connector is eligible, and all but connector 0 could go; but it comes first. */
  ghost predicate FirstStuck(p: Policy, w: World, at: int, n: nat) {
    && Eligible(p, SeenWorld(w, at, Wells(n)).mem, ActiveOf(w, Wells(n)), at) == Wells(n)
    && (forall id: Id :: 0 < id < n ==> id in w.cloud.logical)
    && |ActiveSet(w)| == n > p.minConnectors
  }

  ghost predicate Blocked(p: Policy, w: World, s: Step, n: nat)
    requires p.Valid()
  {
    s == IdleCycle(p, w, n) && LowStep(p, w, s) && Ready(p, w, s, true) && FirstStuck(p, w, s.at, n)
  }

  lemma LeftActive(w: World, n: nat)
    requires OneLeft(w, n)
    ensures ActiveSet(w) == FirstIds(n) && |ActiveSet(w)| == n
  {
    assert ActiveSet(w) == FirstIds(n);
  }

  /** Every connector has been seen by now, or none ever was. */
  ghost predicate SeenAlike(w: World, n: nat) {
    || w.mem.firstSeen == map[]
    || (forall id: Id :: id < n ==> id in w.mem.firstSeen && w.mem.firstSeen[id] <= w.clock)
  }

  lemma SeenTimers(w: World, n: nat, at: int)
    requires w.cloud.containers == FirstIds(n)
    ensures var m := SeenWorld(w, at, Wells(n)).mem;
            forall id: Id :: id < n ==>
              id in m.firstSeen && m.firstSeen[id] == if id in w.mem.firstSeen then w.mem.firstSeen[id] else at
  {
    WellsAccurate(w, n);
    DiscoverExact(Wells(n), w.store.cordons);
    assert Ids(FleetOf(w, Wells(n))) == FirstIds(n);
  }

  /** At one time, either none of these is in its grace, or all are. */
  ghost predicate GraceAlike(p: Policy, m: Memory, n: nat, at: int) {
    || (forall id: Id :: id < n ==> !WithinGrace(p, m, id, at))
    || (forall id: Id :: id < n ==> WithinGrace(p, m, id, at))
  }

  lemma LeftTimers(p: Policy, w: World, n: nat, at: int)
    requires p.Valid() && OneLeft(w, n) && SeenAlike(w, n) && at >= w.clock + p.startupGrace
    ensures var m := SeenWorld(w, at, Wells(n)).mem;
            && (forall id: Id :: id < n ==> id in m.firstSeen && m.firstSeen[id] <= at)
            && GraceAlike(p, m, n, at)
            && (w.mem.firstSeen != map[] ==> forall id: Id :: id < n ==> !WithinGrace(p, m, id, at))
  {
    SeenTimers(w, n, at);
  }

  lemma LeftTaken(p: Policy, w: World, n: nat, at: int)
    requires p.Valid() && OneLeft(w, n) && n == Size(p) && SeenAlike(w, n) && at >= w.clock + p.startupGrace
    ensures Taken(p, w, at, Wells(n), NO_FAULTS) == {}
    ensures w.mem.firstSeen != map[] ==>
              Eligible(p, SeenWorld(w, at, Wells(n)).mem, ActiveOf(w, Wells(n)), at) == Wells(n)
  {
    var m := SeenWorld(w, at, Wells(n)).mem;
    PlainWells(w, n);
    LeftTimers(p, w, n, at);
    LeftActive(w, n);
    assert ScaleDownCount(p, n) == 1 && m.pending == map[];
    if forall id: Id :: id < n ==> !WithinGrace(p, m, id, at) {
      FirstVictim(p, m, n, at);
      NotRemovable(w.cloud.logical, NO_FAULTS);
    } else {
      NoVictim(p, m, n, 1, at);
    }
  }

  lemma NotRemovable(logical: set<Id>, f: Faults)
    requires 0 !in logical
    ensures Removable([Well(0)], logical, f) == {}
  {
  }

  lemma WellCalm(p: Policy, w: World, n: nat, at: int)
    requires OneLeft(w, n)
    ensures Calm(p, w, at, Wells(n))
  {
    PlainWells(w, n);
  }

  lemma LeftReady(p: Policy, w: World, n: nat, s: Step)
    requires p.Valid() && OneLeft(w, n) && n == Size(p) && s == IdleCycle(p, w, n)
    ensures LowStep(p, w, s) && Ready(p, w, s, true)
  {
    WellCalm(p, w, n, s.at);
    LeftActive(w, n);
    IdleIsLow(p, n);
  }

  /** Aged past every grace: connector 0 comes first. */
  ghost predicate Aged(w: World, n: nat) { OneLeft(w, n) && SeenAlike(w, n) && w.mem.firstSeen != map[] }

  lemma LeftFirst(p: Policy, w: World, n: nat, at: int)
    requires p.Valid() && Aged(w, n) && n == Size(p) && at >= w.clock + p.startupGrace
    ensures FirstStuck(p, w, at, n)
  {
    LeftTaken(p, w, n, at);
    LeftActive(w, n);
  }

  lemma LeftBlocks(p: Policy, w: World, n: nat)
    requires p.Valid() && Aged(w, n) && n == Size(p)
    ensures Blocked(p, w, IdleCycle(p, w, n), n)
  {
    var s := IdleCycle(p, w, n);
    LeftReady(p, w, n, s);
    LeftFirst(p, w, n, s.at);
  }

  /** An idle cycle takes nobody; it only looks. */
  lemma IdleStays(p: Policy, w: World, n: nat)
    requires p.Valid() && OneLeft(w, n) && SeenAlike(w, n) && n == Size(p)
    ensures Enabled(p, w, IdleCycle(p, w, n)) && Aged(Apply(p, w, IdleCycle(p, w, n)), n)
  {
    var s := IdleCycle(p, w, n);
    WellsAccurate(w, n);
    var v := Apply(p, w, s);
    LeftReady(p, w, n, s);
    LeftTaken(p, w, n, s.at);
    LeftActive(w, n);
    LowCycleTakes(p, w, s.at, s.reports, s.load, s.faults);
    CycleLater(p, w, s);
    StillLeft(w, v, n, s.at);
    CycleLooks(p, w, s.at, s.reports, s.load, s.faults);
    LeftTimers(p, w, n, s.at);
    assert 0 in v.mem.firstSeen;
  }

  /** A calm cycle leaves the timers as looking has set them. */
  lemma CycleLooks(p: Policy, w: World, at: int, reports: seq<Conn>, load: Load, f: Faults)
    requires Accurate(w, reports) && Calm(p, w, at, reports)
    ensures var v := CycleStep(p, w, at, reports, load, f);
            v.mem.firstSeen == SeenWorld(w, at, reports).mem.firstSeen && v.clock == at
  {
    var (conns, seen) := (ActiveOf(w, reports), SeenWorld(w, at, reports));
    CalmCycle(p, w, at, reports, load, f);
    ScalePrelude(p, seen, conns, load, at, f);
    ScaleOnlyScales(p, seen, conns, load, at, f);
  }

  lemma StillLeft(w: World, v: World, n: nat, at: int)
    requires OneLeft(w, n) && Sound(v) && v.clock >= 0 && TakesFrom(w, v, {}, at)
    ensures OneLeft(v, n)
  {
    assert v.mem.draining.Keys == {};
  }

  lemma CycleLater(p: Policy, w: World, s: Step)
    requires p.Valid() && Sound(w) && w.clock >= 0 && s.Cycle? && Enabled(p, w, s)
    ensures Sound(Apply(p, w, s)) && Apply(p, w, s).clock >= 0
  {
    var inv := (x: World) => x.clock >= 0;
    assert Good(inv, w);
    StepKeeps(p, inv, w, s);
    assert Good(inv, Apply(p, w, s));
  }

  /** From the fourth step on. */
  ghost predicate Throughout(holds: (World, Step) -> bool, ws: seq<World>, steps: seq<Step>) {
    && |ws| == |steps| + 1
    && forall k {:trigger steps[k]} :: 3 <= k < |steps| ==> holds(ws[k], steps[k])
  }

  lemma ThroughoutMore(holds: (World, Step) -> bool, ws: seq<World>, steps: seq<Step>, s: Step, v: World)
    requires Throughout(holds, ws, steps) && holds(ws[|steps|], s)
    ensures Throughout(holds, ws + [v], steps + [s])
  {
  }

  ghost function IsBlocked(p: Policy, n: nat): (World, Step) -> bool
    requires p.Valid()
  {
    (w, s) => Blocked(p, w, s, n)
  }

  /** A failed removal, and one cycle that looks at the fleet for the first time. */
  lemma AgedFleet(p: Policy) returns (ws: seq<World>, steps: seq<Step>)
    requires p.Valid()
    ensures Run(p, ws, steps) && Initial(ws[0]) && |steps| == 3 && Aged(ws[3], Size(p))
  {
    var vs, earlier := FailedRemoval(p);
    IdleStays(p, vs[2], Size(p));
    ws, steps := Onward(p, vs, earlier, IdleCycle(p, vs[2], Size(p)));
  }

  /** For every policy: however many cycles of low load follow, with the cooldown and every startup grace over and
      nothing failing any more, the fleet stays one above the floor. All its connectors are eligible, and all
      but the first could go. */
  lemma {:induction false} BlockedFleet(p: Policy, more: nat) returns (ws: seq<World>, steps: seq<Step>)
    requires p.Valid()
    ensures Run(p, ws, steps) && Initial(ws[0]) && |steps| == more + 3
    ensures Throughout(IsBlocked(p, Size(p)), ws, steps) && Aged(ws[|steps|], Size(p))
    ensures |ActiveSet(ws[|steps|])| == p.minConnectors + 1
  {
    if more == 0 {
      ws, steps := AgedFleet(p);
    } else {
      ws, steps := BlockedFleet(p, more - 1);
      var (w, n) := (ws[|steps|], Size(p));
      var s := IdleCycle(p, w, n);
      LeftBlocks(p, w, n);
      IdleStays(p, w, n);
      var v := Apply(p, w, s);
      OneMore(p, ws, steps, s, v);
      ThroughoutMore(IsBlocked(p, n), ws, steps, s, v);
      ws, steps := ws + [v], steps + [s];
    }
    LeftActive(ws[|steps|], Size(p));
  }
}
