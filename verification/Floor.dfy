/** The redundancy floor over every interleaving of cycles, drains, overrides and manager restarts. */
module Floor {
  import opened Basics
  import opened Policies
  import opened Decider
  import opened Fleet
  import opened Effects
  import opened Steps

  /** Running connectors that are neither draining nor waiting to be replaced. */
  function Survivors(w: World): set<Id> {
    set id | id in w.cloud.containers && id !in w.mem.draining && id !in w.mem.pending
  }

  // --- scale phase -----------------------------------------------------------

  lemma {:induction false} GrowSurvivors(w: World, at: int, f: Faults, k: nat)
    ensures Survivors(w) <= Survivors(ProvisionMany(w, at, f, k).0)
  {
    if k > 0 {
      GrowSurvivors(w, at, f, k - 1);
    }
  }

  /** A measure that one deprovision lowers by at most one loses at most one per victim. */
  lemma {:induction false} EachCostsOne(measure: World -> int, w: World, victims: seq<Conn>, at: int, f: Faults,
                                        cause: Cause)
    requires forall x, id :: measure(DeprovisionOne(x, id, id, at, f, cause).0) >= measure(x) - 1
    ensures measure(DeprovisionAll(w, victims, at, f, cause).0) >= measure(w) - |victims|
  {
    if victims != [] {
      EachCostsOne(measure, w, victims[..|victims| - 1], at, f, cause);
    }
  }

  lemma ShrinkOneSurvivor(w: World, id: Id, subject: Id, at: int, f: Faults, cause: Cause)
    ensures |Survivors(DeprovisionOne(w, id, subject, at, f, cause).0)| >= |Survivors(w)| - 1
  {
    SubsetSize(Survivors(w), Survivors(DeprovisionOne(w, id, subject, at, f, cause).0) + {id});
  }

  lemma ShrinkSurvivors(w: World, victims: seq<Conn>, at: int, f: Faults, cause: Cause)
    ensures |Survivors(DeprovisionAll(w, victims, at, f, cause).0)| >= |Survivors(w)| - |victims|
  {
    var measure := x => |Survivors(x)|;
    forall x, id
      ensures measure(DeprovisionOne(x, id, id, at, f, cause).0) >= measure(x) - 1
    {
      ShrinkOneSurvivor(x, id, id, at, f, cause);
    }
    EachCostsOne(measure, w, victims, at, f, cause);
  }

  lemma {:induction false} DistinctCount(conns: seq<Conn>)
    requires DistinctIds(conns)
    ensures |Ids(conns)| == |conns|
  {
    if conns == [] {
      assert Ids(conns) == {};
    } else {
      var init, last := conns[..|conns| - 1], conns[|conns| - 1];
      DistinctCount(init);
      assert conns == init + [last];
      assert Ids(conns) == Ids(init) + {last.id};
      assert last.id !in Ids(init);
    }
  }

  lemma ScaleDownFloor(p: Policy, w: World, conns: seq<Conn>, d: Decision, f: Faults)
    requires d.direction == Down && 0 <= d.count && |conns| - d.count >= p.minConnectors && w.mem.pending == map[]
    requires DistinctIds(conns) && Undrained(w, conns)
    ensures |Survivors(ActScale(p, w, d, conns, w.clock, f))| >= p.minConnectors
  {
    var victims := PickVictims(p, w.mem, conns, d.count, w.clock);
    DistinctCount(conns);
    assert Survivors(w) == Ids(conns);
    ShrinkSurvivors(w, victims, w.clock, f, ByScaleDown);
    var (v, n) := DeprovisionAll(w, victims, w.clock, f, ByScaleDown);
    assert Survivors(ActScale(p, w, d, conns, w.clock, f)) == Survivors(v);
  }

  /** Growing never costs a survivor; shrinking happens with no replace pending and stops at the floor. */
  lemma ScaleFloor(p: Policy, w: World, conns: seq<Conn>, load: Load, f: Faults)
    requires p.Valid() && |Survivors(w)| >= p.minConnectors
    requires DistinctIds(conns) && Undrained(w, conns)
    ensures |Survivors(ScalePhase(p, w, conns, load, w.clock, f))| >= p.minConnectors
  {
    var d := ScaleDecision(p, w, conns, load, w.clock);
    DecisionRails(p, load, |conns|, w.store.lastUp, w.store.lastDown, w.clock, w.mem.pending != map[]);
    match d.direction
    case Stay =>
    case Up =>
      GrowSurvivors(w, w.clock, f, d.count);
      SubsetSize(Survivors(w), Survivors(ProvisionMany(w, w.clock, f, d.count).0));
    case Down => ScaleDownFloor(p, w, conns, d, f);
  }

  // --- replace phase ---------------------------------------------------------

  /** Pending replaces whose old connector began draining during this cycle: dropping one of these gives
      no survivor back. */
  function Debt(w: World, listed: set<Id>): set<Id> {
    set id | id in w.mem.pending && id in w.mem.draining && id in listed
  }

  function Potential(w: World, listed: set<Id>): int { |Survivors(w)| - |Debt(w, listed)| }

  /** Every running old connector is on the frozen list. */
  ghost predicate OldListed(w: World, listed: set<Id>) {
    && listed <= w.cloud.containers
    && forall o :: o in w.mem.pending && o in w.cloud.containers && o !in w.mem.draining ==> o in listed
  }

  /** Stopping routing to one connector costs at most one, as a survivor or as new debt. */
  lemma ShrinkPotential(w: World, listed: set<Id>, id: Id, subject: Id, at: int, f: Faults, cause: Cause)
    ensures var (v, ok) := DeprovisionOne(w, id, subject, at, f, cause);
            Potential(v, listed) >= Potential(w, listed) - (if ok then 1 else 0)
  {
    var (v, ok) := DeprovisionOne(w, id, subject, at, f, cause);
    if id in w.mem.pending {
      assert Survivors(v) == Survivors(w);
      SubsetSize(Debt(v, listed), Debt(w, listed) + {id});
    } else {
      SubsetSize(Survivors(w), Survivors(v) + {id});
      assert Debt(v, listed) == Debt(w, listed);
    }
  }

  /** Dropping a listed pending replace gains one, as a survivor or as paid debt. */
  lemma ReleasePotential(w: World, listed: set<Id>, o: Id)
    requires listed <= w.cloud.containers && o in w.mem.pending
    ensures Potential(DropPending(w, o), listed) >= Potential(w, listed) + (if o in listed then 1 else 0)
  {
    var v := DropPending(w, o);
    if o !in listed || o in w.mem.draining {
      SubsetSize(Survivors(w), Survivors(v));
      if o in listed {
        assert Debt(w, listed) == Debt(v, listed) + {o};
      } else {
        assert Debt(w, listed) == Debt(v, listed);
      }
    } else {
      assert Survivors(v) == Survivors(w) + {o};
      assert Debt(v, listed) == Debt(w, listed);
    }
  }

  lemma AdvanceListed(p: Policy, w: World, conns: seq<Conn>, o: Id, at: int, f: Faults)
    requires OldListed(w, Ids(conns)) && o in w.mem.pending
    ensures OldListed(AdvanceReplace(p, w, conns, o, at, f), Ids(conns))
  {
  }

  lemma AdvancePotential(p: Policy, w: World, conns: seq<Conn>, o: Id, at: int, f: Faults)
    requires OldListed(w, Ids(conns)) && o in w.mem.pending
    ensures Potential(AdvanceReplace(p, w, conns, o, at, f), Ids(conns)) >= Potential(w, Ids(conns))
  {
    var listed, pend := Ids(conns), w.mem.pending[o];
    if o !in listed {
      ReleasePotential(w, listed, o);
    } else if pend.newId in HealthyIds(conns) {
      ShrinkPotential(w, listed, o, o, at, f, ByReplace(pend.newId));
      var (after, removed) := DeprovisionOne(w, o, o, at, f, ByReplace(pend.newId));
      if removed {
        ReleasePotential(after, listed, o);
      }
    } else if at - pend.startedAt >= p.replaceTimeout {
      var after := if pend.newId in listed then DeprovisionOne(w, pend.newId, o, at, f, ByTimeout(o)).0 else w;
      if pend.newId in listed {
        ShrinkPotential(w, listed, pend.newId, o, at, f, ByTimeout(o));
      }
      ReleasePotential(after, listed, o);
    }
  }

  /** Whole chains of replaces, several timing out in one cycle, cost nothing in the end. */
  lemma AdvancesPotential(p: Policy, w: World, conns: seq<Conn>, f: Faults, m: int)
    requires Sound(w) && Frozen(w, conns) && OldListed(w, Ids(conns)) && Potential(w, Ids(conns)) >= m
    ensures |Survivors(ReplacePhase(p, w, conns, w.clock, f))| >= m
  {
    var listed := Ids(conns);
    var inv := x => OldListed(x, listed) && Potential(x, listed) >= m;
    forall x, o | Good(inv, x) && Frozen(x, conns) && o in x.mem.pending
      ensures Good(inv, AdvanceReplace(p, x, conns, o, x.clock, f))
    {
      AdvancePotential(p, x, conns, o, x.clock, f);
      AdvanceListed(p, x, conns, o, x.clock, f);
      AdvanceIsSafe(p, y => true, conns, f);
      assert Good(y => true, x);
    }
    AdvancesKeep(p, inv, w, conns, w.mem.order, f);
  }

  // --- health phase ----------------------------------------------------------

  /** The replacement is provisioned before the old connector stops counting. */
  lemma BeginFloor(w: World, o: Id, at: int, f: Faults, manual: bool)
    requires InventoryOk(w) && Younger(w) && o in w.cloud.containers
    ensures |Survivors(BeginReplace(w, o, at, f, manual).0)| >= |Survivors(w)|
  {
    var (v, ok) := BeginReplace(w, o, at, f, manual);
    var id := w.cloud.nextId;
    if ok {
      SubsetSize(Survivors(w) + {id}, Survivors(v) + {o});
    } else {
      assert Survivors(v) == Survivors(w);
    }
  }

  lemma RemediateOneFloor(p: Policy, w: World, conns: seq<Conn>, a: HealthAction, f: Faults)
    requires Sound(w) && Due(p, w, conns, a)
    ensures |Survivors(Remediate(w, a, w.clock, f))| >= |Survivors(w)|
  {
    if a.kind == ReplaceNew {
      BeginFloor(w, a.id, w.clock, f, false);
    }
  }

  lemma HealthFloor(p: Policy, w: World, conns: seq<Conn>, f: Faults, m: int)
    requires Sound(w) && Frozen(w, conns) && |Survivors(w)| >= m
    ensures |Survivors(HealthPhase(p, w, conns, w.clock, f))| >= m
  {
    var inv := x => |Survivors(x)| >= m;
    forall x, a | Good(inv, x) && Due(p, x, conns, a)
      ensures Good(inv, Remediate(x, a, x.clock, f))
    {
      RemediateOneFloor(p, x, conns, a, f);
      RemedyIsSafe(p, y => true, conns, f);
      assert Good(y => true, x);
    }
    HealthKeeps(p, inv, w, conns, f);
  }

  // --- whole steps -----------------------------------------------------------

  /** With a replace pending the scale phase starts no drain, so the replace phase begins without debt. */
  lemma NoDebtAfterScale(p: Policy, w: World, conns: seq<Conn>, load: Load, f: Faults)
    requires p.Valid() && Sound(w)
    requires DistinctIds(conns) && Undrained(w, conns)
    ensures var v := ScalePhase(p, w, conns, load, w.clock, f);
            OldListed(v, Ids(conns)) && Debt(v, Ids(conns)) == {}
  {
    var d := ScaleDecision(p, w, conns, load, w.clock);
    DecisionRails(p, load, |conns|, w.store.lastUp, w.store.lastDown, w.clock, w.mem.pending != map[]);
    match d.direction
    case Stay =>
    case Up =>
      ManyFrame(w, w.clock, f, d.count);
      ManyDrains(w, w.clock, f, d.count);
    case Down =>
      AllFrame(w, PickVictims(p, w.mem, conns, d.count, w.clock), w.clock, f, ByScaleDown);
  }

  lemma {:induction false} ManyDrains(w: World, at: int, f: Faults, k: nat)
    ensures ProvisionMany(w, at, f, k).0.mem == w.mem
  {
    if k > 0 {
      ManyDrains(w, at, f, k - 1);
    }
  }

  lemma CycleFloor(p: Policy, w: World, at: int, reports: seq<Conn>, load: Load, f: Faults)
    requires p.Valid() && Sound(w) && Accurate(w, reports) && w.clock <= at
    requires |Survivors(w)| >= p.minConnectors
    ensures |Survivors(CycleStep(p, w, at, reports, load, f))| >= p.minConnectors
  {
    var conns := ActiveOf(w, reports);
    var seen := Observe(Tick(w, at), FleetOf(w, reports), at);
    ActiveOfExact(w, reports);
    FrozenAfterLook(w, reports, at);
    assert Survivors(seen) == Survivors(w);
    ScaleFloor(p, seen, conns, load, f);
    NoDebtAfterScale(p, seen, conns, load, f);
    var scaled := ScalePhase(p, seen, conns, load, at, f);
    var always := (x: World) => true;
    ScaleKeeps(p, always, seen, conns, load, f);
    AdvancesPotential(p, scaled, conns, f, p.minConnectors);
    var advanced := ReplacePhase(p, scaled, conns, at, f);
    AdvanceIsSafe(p, always, conns, f);
    AdvancesKeep(p, always, scaled, conns, scaled.mem.order, f);
    HealthFloor(p, advanced, conns, f, p.minConnectors);
  }

  lemma DrainCost(w: World, id: Id, at: int, f: Faults, cause: Cause)
    requires InventoryOk(w) && id in w.cloud.containers && id !in w.mem.pending && id !in w.mem.draining
    ensures var (v, ok) := DeprovisionOne(w, id, id, at, f, cause);
            |Survivors(v)| == |Survivors(w)| - (if ok then 1 else 0)
  {
    var (v, ok) := DeprovisionOne(w, id, id, at, f, cause);
    if ok {
      assert Survivors(w) == Survivors(v) + {id};
    } else {
      assert Survivors(v) == Survivors(w);
    }
  }

  /** A manual scale-down takes a survivor exactly when it starts a drain. */
  lemma HandDownCost(p: Policy, w: World, reports: seq<Conn>, f: Faults)
    requires Sound(w) && Accurate(w, reports)
    ensures var (v, ok) := ManualDown(p, w, w.clock, reports, f);
            |Survivors(v)| == |Survivors(w)| - (if ok then 1 else 0)
  {
    var conns := ActiveOf(w, reports);
    var victims := PickVictims(p, w.mem, conns, 1, w.clock);
    if victims != [] {
      var id := victims[0].id;
      ActiveOfExact(w, reports);
      VictimsEligible(p, w.mem, conns, 1, w.clock);
      assert victims[0] in victims && id in Ids(conns);
      DrainCost(w, id, w.clock, f, ByManual);
      var v := DeprovisionOne(w, id, id, w.clock, f, ByManual).0;
      assert Survivors(ArmDown(v, w.clock)) == Survivors(v);
    }
  }

  /** The guards of a manual scale-down, before it has changed anything: it is refused at the floor as counted, it
      finds no victim, its victim cannot be deleted, or a survivor is to spare. */
  ghost predicate HandDownSafe(p: Policy, w: World, at: int, reports: seq<Conn>, f: Faults) {
    var conns := ActiveOf(w, reports);
    var victims := PickVictims(p, w.mem, conns, 1, at);
    || |conns| <= p.minConnectors || victims == []
    || victims[0].id !in w.cloud.logical || victims[0].id in f.delete
    || |Survivors(w)| > p.minConnectors
  }

  /** A manual scale-down keeps the floor exactly then: the count it checks includes connectors waiting to be
      replaced. */
  lemma HandDownExact(p: Policy, w: World, reports: seq<Conn>, f: Faults)
    requires Sound(w) && Accurate(w, reports) && |Survivors(w)| >= p.minConnectors
    ensures |Survivors(ManualDown(p, w, w.clock, reports, f).0)| >= p.minConnectors <==>
            HandDownSafe(p, w, w.clock, reports, f)
  {
    HandDownCost(p, w, reports, f);
  }

  /** With no replace pending it always does. */
  lemma UnpairedHandDownSafe(p: Policy, w: World, at: int, reports: seq<Conn>, f: Faults)
    requires Accurate(w, reports) && w.mem.pending == map[]
    ensures HandDownSafe(p, w, at, reports, f)
  {
    ActiveOfExact(w, reports);
    DistinctCount(ActiveOf(w, reports));
    assert Survivors(w) == Ids(ActiveOf(w, reports));
  }

  /** Everything but teardown, and those manual scale-downs that leave the floor. */
  ghost predicate FloorSafe(p: Policy, w: World, s: Step) {
    && !s.Teardown?
    && (s.ScaleDownByHand? ==> HandDownSafe(p, w, s.at, s.reports, s.faults))
  }

  lemma OtherFloor(p: Policy, w: World, s: Step)
    requires Sound(w) && Enabled(p, w, s) && !s.Teardown? && !s.Cycle? && !s.ScaleDownByHand?
    ensures |Survivors(Apply(p, w, s))| >= |Survivors(w)|
  {
    var now := Tick(w, s.at);
    if s.ReplaceByHand? {
      assert Survivors(now) == Survivors(w);
      DiscoverExact(s.reports, now.store.cordons);
      if s.id in Ids(FleetOf(now, s.reports)) && s.id !in now.mem.pending {
        BeginFloor(now, s.id, s.at, s.faults, true);
      }
    } else {
      SubsetSize(Survivors(w), Survivors(Apply(p, w, s)));
    }
  }

  /** Teardown apart, the steps that keep the floor are exactly the safe ones. */
  lemma StepFloor(p: Policy, w: World, s: Step)
    requires p.Valid() && Sound(w) && Enabled(p, w, s) && !s.Teardown? && |Survivors(w)| >= p.minConnectors
    ensures |Survivors(Apply(p, w, s))| >= p.minConnectors <==> FloorSafe(p, w, s)
  {
    if s.Cycle? {
      CycleFloor(p, w, s.at, s.reports, s.load, s.faults);
    } else if s.ScaleDownByHand? {
      assert Survivors(Tick(w, s.at)) == Survivors(w);
      HandDownExact(p, Tick(w, s.at), s.reports, s.faults);
    } else {
      OtherFloor(p, w, s);
    }
  }

  /** Once the floor is reached it holds after every step of every run: cycles with any load, health and
      API failures, drains that succeed or fail, manual scale-ups and replaces, manager restarts, and every
      manual scale-down that does not itself leave the floor. */
  lemma {:induction false} FloorHolds(p: Policy, ws: seq<World>, steps: seq<Step>, i: nat)
    requires p.Valid() && Run(p, ws, steps) && Sound(ws[0]) && i <= |steps|
    requires |Survivors(ws[0])| >= p.minConnectors
    requires forall k {:trigger steps[k]} :: 0 <= k < |steps| ==> FloorSafe(p, ws[k], steps[k])
    ensures |Survivors(ws[i])| >= p.minConnectors
  {
    if i > 0 {
      FloorHolds(p, ws, steps, i - 1);
      assert Good(x => true, ws[0]);
      RunKeeps(p, x => true, ws, steps, i - 1);
      StepFloor(p, ws[i - 1], steps[i - 1]);
    }
  }
}
