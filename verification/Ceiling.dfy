/** The ceiling, counted as the floor is: a connector waiting to be replaced does not count, its replacement does.
    What may lift the fleet past it, and that nothing else does. */
module Ceiling {
  import opened Basics
  import opened Policies
  import opened Decider
  import opened Fleet
  import opened Effects
  import opened Steps
  import opened Floor
  import opened Completions
  import opened Remedies
  import opened Convergence

  // --- scale phase ------------------------------------------------------------------

  lemma ShrinkSubset(w: World, id: Id, subject: Id, at: int, f: Faults, cause: Cause)
    ensures Survivors(DeprovisionOne(w, id, subject, at, f, cause).0) <= Survivors(w)
  {
  }

  lemma {:induction false} AllSubset(w: World, victims: seq<Conn>, at: int, f: Faults, cause: Cause)
    ensures Survivors(DeprovisionAll(w, victims, at, f, cause).0) <= Survivors(w)
  {
    if victims != [] {
      var init, id := victims[..|victims| - 1], victims[|victims| - 1].id;
      AllSubset(w, init, at, f, cause);
      ShrinkSubset(DeprovisionAll(w, init, at, f, cause).0, id, id, at, f, cause);
    }
  }

  lemma SurvivorsActive(w: World)
    ensures |Survivors(w)| <= |ActiveSet(w)|
  {
    SubsetSize(Survivors(w), ActiveSet(w));
  }

  lemma ScaleUpCeiling(p: Policy, w: World, conns: seq<Conn>, d: Decision, at: int, f: Faults)
    requires InventoryOk(w) && |ActiveSet(w)| == |conns| && d.direction == Up && d.count >= 0
    requires |conns| + d.count <= p.maxConnectors
    ensures |Survivors(ActScale(p, w, d, conns, at, f))| <= p.maxConnectors
  {
    ScaleUpExact(p, w, d, conns, at, f);
    SurvivorsActive(ActScale(p, w, d, conns, at, f));
  }

  /** Scaling up stops at the ceiling, and scaling down only takes. */
  lemma ScaleCeiling(p: Policy, w: World, conns: seq<Conn>, load: Load, at: int, f: Faults)
    requires p.Valid() && InventoryOk(w) && DistinctIds(conns) && Undrained(w, conns)
    requires |Survivors(w)| <= p.maxConnectors
    ensures |Survivors(ScalePhase(p, w, conns, load, at, f))| <= p.maxConnectors
  {
    var d := ScaleDecision(p, w, conns, load, at);
    DecisionRails(p, load, |conns|, w.store.lastUp, w.store.lastDown, at, w.mem.pending != map[]);
    CountIsActive(w, conns);
    match d.direction
    case Stay =>
    case Up => ScaleUpCeiling(p, w, conns, d, at, f);
    case Down =>
      var victims := PickVictims(p, w.mem, conns, d.count, at);
      var v := DeprovisionAll(w, victims, at, f, ByScaleDown).0;
      AllSubset(w, victims, at, f, ByScaleDown);
      SubsetSize(Survivors(v), Survivors(w));
      assert Survivors(ActScale(p, w, d, conns, at, f)) == Survivors(v);
  }

  // --- replace phase ------------------------------------------------------------------

  /** The replace of `o` gives up in this cycle. */
  ghost predicate TimesOut(p: Policy, w: World, conns: seq<Conn>, o: Id, at: int) {
    && o in w.mem.pending && o in Ids(conns)
    && w.mem.pending[o].newId !in HealthyIds(conns) && at - w.mem.pending[o].startedAt >= p.replaceTimeout
  }

  /** Giving up takes the replacement away as it brings the old connector back: the replacement runs, is in no
      replace of its own, and can be deleted. */
  ghost predicate Exchanges(w: World, o: Id, f: Faults)
    requires o in w.mem.pending
  {
    var n := w.mem.pending[o].newId;
    n in Survivors(w) && n in w.cloud.logical && o !in f.delete
  }

  /** The replaces not yet visited are as the phase found them, and those that time out will exchange. */
  ghost predicate StillFair(p: Policy, w: World, v: World, conns: seq<Conn>, done: seq<Id>, at: int, f: Faults) {
    && Untouched(w, v, done) && v.cloud.containers == w.cloud.containers
    && (forall o :: o !in done && TimesOut(p, w, conns, o, at) ==>
          w.mem.pending[o].newId in Ids(conns) && o in v.mem.pending && Exchanges(v, o, f))
    && (forall o :: o in v.mem.pending ==> o in w.mem.pending)
    && (forall o :: o in v.mem.pending && o !in Ids(conns) ==> o !in v.cloud.containers || o in v.mem.draining)
  }

  /** One turn lifts nothing. */
  lemma TurnCeiling(p: Policy, w: World, conns: seq<Conn>, o: Id, at: int, f: Faults)
    requires o in w.mem.pending
    requires TimesOut(p, w, conns, o, at) ==> w.mem.pending[o].newId in Ids(conns) && Exchanges(w, o, f)
    requires o !in Ids(conns) ==> o !in w.cloud.containers || o in w.mem.draining
    ensures |Survivors(AdvanceReplace(p, w, conns, o, at, f))| <= |Survivors(w)|
  {
    var v, n := AdvanceReplace(p, w, conns, o, at, f), w.mem.pending[o].newId;
    if TimesOut(p, w, conns, o, at) {
      assert Survivors(v) <= Survivors(w) - {n} + {o};
      SubsetSize(Survivors(v), Survivors(w) - {n} + {o});
      assert |Survivors(w) - {n}| == |Survivors(w)| - 1;
    } else {
      assert Survivors(v) == Survivors(w);
    }
  }

  /** Another deletion, and the release of another replace, leave an exchange possible. */
  lemma DrainExchanges(v: World, target: Id, subject: Id, at: int, f: Faults, cause: Cause, y: Id)
    requires y in v.mem.pending && Exchanges(v, y, f) && target != v.mem.pending[y].newId
    ensures var x := DeprovisionOne(v, target, subject, at, f, cause).0;
            y in x.mem.pending && Exchanges(x, y, f) && x.mem.pending == v.mem.pending
  {
  }

  lemma DropExchanges(v: World, o: Id, y: Id, f: Faults)
    requires y in v.mem.pending && Exchanges(v, y, f) && y != o
    ensures y in DropPending(v, o).mem.pending && Exchanges(DropPending(v, o), y, f)
  {
  }

  /** So does the turn of `o` leave that of another replace. */
  lemma OtherExchanges(p: Policy, v: World, conns: seq<Conn>, o: Id, y: Id, at: int, f: Faults)
    requires o in v.mem.pending && y in v.mem.pending && y != o && Exchanges(v, y, f)
    requires v.mem.pending[o].newId != v.mem.pending[y].newId
    ensures var x := AdvanceReplace(p, v, conns, o, at, f);
            y in x.mem.pending && Exchanges(x, y, f)
  {
    var n := v.mem.pending[o].newId;
    DropExchanges(v, o, y, f);
    DrainExchanges(v, o, o, at, f, ByReplace(n), y);
    DropExchanges(DeprovisionOne(v, o, o, at, f, ByReplace(n)).0, o, y, f);
    DrainExchanges(v, n, o, at, f, ByTimeout(o), y);
    DropExchanges(DeprovisionOne(v, n, o, at, f, ByTimeout(o)).0, o, y, f);
  }

  lemma FairTurn(p: Policy, w: World, v: World, conns: seq<Conn>, done: seq<Id>, o: Id, at: int, f: Faults)
    requires StillFair(p, w, v, conns, done, at, f) && OwnReplacement(w) && o !in done && o in v.mem.pending
    ensures StillFair(p, w, AdvanceReplace(p, v, conns, o, at, f), conns, done + [o], at, f)
  {
    var x := AdvanceReplace(p, v, conns, o, at, f);
    forall y | y !in done + [o] && TimesOut(p, w, conns, y, at)
      ensures w.mem.pending[y].newId in Ids(conns) && y in x.mem.pending && Exchanges(x, y, f)
    {
      assert y !in done && y != o;
      OtherExchanges(p, v, conns, o, y, at, f);
    }
    TurnUntouched(p, w, v, conns, done, o, at, f);
  }

  lemma TurnUntouched(p: Policy, w: World, v: World, conns: seq<Conn>, done: seq<Id>, o: Id, at: int, f: Faults)
    requires Untouched(w, v, done) && o in v.mem.pending
    ensures var x := AdvanceReplace(p, v, conns, o, at, f);
            && Untouched(w, x, done + [o]) && x.cloud.containers == v.cloud.containers
            && x.mem.pending.Keys <= v.mem.pending.Keys && v.mem.draining.Keys <= x.mem.draining.Keys
  {
  }

  lemma FairSkip(p: Policy, w: World, v: World, conns: seq<Conn>, done: seq<Id>, o: Id, at: int, f: Faults)
    requires StillFair(p, w, v, conns, done, at, f) && o !in v.mem.pending && o !in done
    ensures StillFair(p, w, v, conns, done + [o], at, f)
  {
  }

  lemma FairCeiling(p: Policy, w: World, v: World, conns: seq<Conn>, done: seq<Id>, o: Id, at: int, f: Faults)
    requires StillFair(p, w, v, conns, done, at, f) && o !in done && o in v.mem.pending
    ensures |Survivors(AdvanceReplace(p, v, conns, o, at, f))| <= |Survivors(v)|
  {
    assert TimesOut(p, v, conns, o, at) <==> TimesOut(p, w, conns, o, at);
    TurnCeiling(p, v, conns, o, at, f);
  }

  lemma {:induction false} TurnsCeiling(p: Policy, w: World, conns: seq<Conn>, keys: seq<Id>, at: int, f: Faults)
    requires StillFair(p, w, w, conns, [], at, f) && OwnReplacement(w) && Distinct(keys)
    ensures var v := AdvanceReplaces(p, w, conns, keys, at, f);
            StillFair(p, w, v, conns, keys, at, f) && |Survivors(v)| <= |Survivors(w)|
  {
    if keys != [] {
      var init, o := keys[..|keys| - 1], keys[|keys| - 1];
      assert keys == init + [o] && o !in init;
      TurnsCeiling(p, w, conns, init, at, f);
      var v := AdvanceReplaces(p, w, conns, init, at, f);
      if o in v.mem.pending {
        FairTurn(p, w, v, conns, init, o, at, f);
        FairCeiling(p, w, v, conns, init, o, at, f);
      } else {
        FairSkip(p, w, v, conns, init, o, at, f);
      }
    }
  }

  // --- health phase ---------------------------------------------------------------------

  /** Replacing a survivor puts another in its place. */
  lemma BeginCeiling(w: World, o: Id, at: int, f: Faults, manual: bool)
    requires o in Survivors(w)
    ensures |Survivors(BeginReplace(w, o, at, f, manual).0)| <= |Survivors(w)|
  {
    var (v, ok) := BeginReplace(w, o, at, f, manual);
    if ok {
      SubsetSize(Survivors(v), Survivors(w) - {o} + {w.cloud.nextId});
      assert |Survivors(w) - {o}| == |Survivors(w)| - 1;
    } else {
      assert Survivors(v) == Survivors(w);
    }
  }

  /** A replace that fails to begin changes nothing that counts. */
  lemma BeginFails(w: World, o: Id, at: int, f: Faults, manual: bool)
    requires w.cloud.nextId in f.provision
    ensures Survivors(BeginReplace(w, o, at, f, manual).0) == Survivors(w)
  {
  }

  /** Nobody gets two replaces, and those that start are of survivors. */
  ghost predicate FairPlan(w: World, actions: seq<HealthAction>, f: Faults) {
    && DistinctTargets(actions)
    && forall a :: a in actions && Starts(w.cloud.nextId, actions, f, a.id) ==> a.id in Survivors(w)
  }

  lemma FairInit(w: World, init: seq<HealthAction>, a: HealthAction, f: Faults)
    requires FairPlan(w, init + [a], f)
    ensures FairPlan(w, init, f) && forall b :: b in init ==> b.id != a.id
  {
    assert (init + [a])[|init|] == a;
    forall b | b in init
      ensures b in init + [a] && b.id != a.id
    {
      var i :| 0 <= i < |init| && init[i] == b;
      assert (init + [a])[i] == b;
    }
    forall b | b in init && Starts(w.cloud.nextId, init, f, b.id)
      ensures b.id in Survivors(w)
    {
      ActionsMore(w.cloud.nextId, init, a, f, b.id);
      assert b in init + [a];
    }
    assert DistinctTargets(init) by {
      assert forall i :: 0 <= i < |init| ==> init[i] == (init + [a])[i];
    }
  }

  /** The next action of a fair plan. */
  lemma NextCeiling(w: World, v: World, init: seq<HealthAction>, a: HealthAction, at: int, f: Faults)
    requires FairPlan(w, init + [a], f) && Remedied(w, v, init, at, f, a.id) && w.cloud.containers <= v.cloud.containers
    requires forall b :: b in init ==> b.id != a.id
    ensures |Survivors(Remediate(v, a, at, f))| <= |Survivors(v)|
  {
    if a.kind == ReplaceNew {
      ActionsMore(w.cloud.nextId, init, a, f, a.id);
      StartsNeeds(w.cloud.nextId, init, f, a.id);
      assert a in init + [a];
      if v.cloud.nextId in f.provision {
        BeginFails(v, a.id, at, f, false);
      } else {
        assert a.id in Survivors(w) && a.id in Survivors(v);
        BeginCeiling(v, a.id, at, f, false);
      }
    }
  }

  lemma {:induction false} PlanCeiling(w: World, actions: seq<HealthAction>, at: int, f: Faults)
    requires FairPlan(w, actions, f)
    ensures var v := RemediateAll(w, actions, at, f);
            |Survivors(v)| <= |Survivors(w)| && w.cloud.containers <= v.cloud.containers
  {
    if actions != [] {
      var init, a := actions[..|actions| - 1], actions[|actions| - 1];
      assert actions == init + [a];
      FairInit(w, init, a, f);
      PlanCeiling(w, init, at, f);
      AllRemedied(w, init, at, f, a.id);
      NextCeiling(w, RemediateAll(w, init, at, f), init, a, at, f);
    }
  }

  // --- whole cycles ---------------------------------------------------------------------------

  /** No replace gives up in this cycle without its replacement being taken away, and no replace begins of a
      connector that has begun to drain in this very cycle. */
  ghost predicate CycleFair(p: Policy, w: World, at: int, reports: seq<Conn>, load: Load, f: Faults) {
    && (forall o :: TimesOut(p, w, ActiveOf(w, reports), o, at) ==> Exchanges(w, o, f))
    && (forall c :: c in ActiveOf(w, reports) && WillBegin(p, w, at, reports, load, f, c) ==>
          c.id !in AdvancedWorld(p, w, at, reports, load, f).mem.draining)
  }

  /** Scaling starts containers under new ids only, and drains nobody while a replace is pending. */
  lemma ScaleBooks(p: Policy, w: World, conns: seq<Conn>, load: Load, at: int, f: Faults)
    requires p.Valid()
    ensures var v := ScalePhase(p, w, conns, load, at, f);
            && w.cloud.containers <= v.cloud.containers
            && (forall id :: id in v.cloud.containers ==> id in w.cloud.containers || id >= w.cloud.nextId)
            && w.mem.draining.Keys <= v.mem.draining.Keys
            && (w.mem.pending != map[] ==> v.mem == w.mem)
  {
    var d := ScaleDecision(p, w, conns, load, at);
    DecisionRails(p, load, |conns|, w.store.lastUp, w.store.lastDown, at, w.mem.pending != map[]);
    match d.direction
    case Stay =>
    case Up =>
      ManyFrame(w, at, f, d.count);
      ManyDrains(w, at, f, d.count);
    case Down => AllFrame(w, PickVictims(p, w.mem, conns, d.count, at), at, f, ByScaleDown);
  }

  /** The replace phase starts fair. */
  lemma PhaseStartsFair(p: Policy, w: World, conns: seq<Conn>, load: Load, at: int, f: Faults)
    requires p.Valid() && InventoryOk(w) && Younger(w) && Undrained(w, conns)
    requires forall o :: TimesOut(p, w, conns, o, at) ==> Exchanges(w, o, f)
    ensures var x := ScalePhase(p, w, conns, load, at, f); StillFair(p, x, x, conns, [], at, f)
  {
    var x := ScalePhase(p, w, conns, load, at, f);
    ScaleBooks(p, w, conns, load, at, f);
    ScaleOnlyScales(p, w, conns, load, at, f);
    forall o | TimesOut(p, x, conns, o, at)
      ensures x.mem.pending[o].newId in Ids(conns) && Exchanges(x, o, f)
    {
      var n := w.mem.pending[o].newId;
      assert TimesOut(p, w, conns, o, at) && Exchanges(w, o, f);
      assert n in w.cloud.containers && n < w.cloud.nextId;
      ScaledLogical(p, w, conns, load, at, f, n);
    }
  }

  /** The plan is fair when nobody who drains by then gets a replace begun. */
  lemma PlanIsFair(p: Policy, w: World, at: int, reports: seq<Conn>, load: Load, f: Faults)
    requires p.Valid() && Sound(w) && Accurate(w, reports) && CycleFair(p, w, at, reports, load, f)
    requires var x := AdvancedWorld(p, w, at, reports, load, f); Ids(ActiveOf(w, reports)) <= x.cloud.containers
    ensures var x := AdvancedWorld(p, w, at, reports, load, f);
            FairPlan(x, HealthPlan(p, x, ActiveOf(w, reports), at), f)
  {
    var (conns, x) := (ActiveOf(w, reports), AdvancedWorld(p, w, at, reports, load, f));
    var counts := RestartCounts(p, x.store.history, conns, at);
    ActiveOfExact(w, reports);
    OneActionEach(p, conns, counts, GatesOf(x.mem), at);
    ActionsJustified(p, conns, counts, GatesOf(x.mem), at);
    forall a | a in HealthPlan(p, x, conns, at) && Starts(x.cloud.nextId, HealthPlan(p, x, conns, at), f, a.id)
      ensures a.id in Survivors(x)
    {
      assert Justified(p, conns, counts, GatesOf(x.mem), at, a);
      var c :| c in conns && c.id == a.id && Remediable(p, c, GatesOf(x.mem), at);
      StartsNow(p, w, at, reports, load, f, c);
      assert c.id in Ids(conns);
    }
  }

  /** The replace phase of the cycle lifts nothing, and leaves every listed container. */
  lemma AdvancedCeiling(p: Policy, w: World, at: int, reports: seq<Conn>, load: Load, f: Faults)
    requires p.Valid() && Sound(w) && Accurate(w, reports) && w.clock <= at && CycleFair(p, w, at, reports, load, f)
    requires |Survivors(w)| <= p.maxConnectors
    ensures var x := AdvancedWorld(p, w, at, reports, load, f);
            |Survivors(x)| <= p.maxConnectors && Ids(ActiveOf(w, reports)) <= x.cloud.containers
  {
    var (conns, seen) := (ActiveOf(w, reports), SeenWorld(w, at, reports));
    var scaled := ScalePhase(p, seen, conns, load, at, f);
    ActiveOfExact(w, reports);
    assert Survivors(seen) == Survivors(w);
    ScaleCeiling(p, seen, conns, load, at, f);
    ScaleBooks(p, seen, conns, load, at, f);
    ScaleOnlyScales(p, seen, conns, load, at, f);
    assert forall o :: TimesOut(p, seen, conns, o, at) <==> TimesOut(p, w, conns, o, at);
    PhaseStartsFair(p, seen, conns, load, at, f);
    TurnsCeiling(p, scaled, conns, scaled.mem.order, at, f);
  }

  lemma CycleCeiling(p: Policy, w: World, at: int, reports: seq<Conn>, load: Load, f: Faults)
    requires p.Valid() && Sound(w) && Accurate(w, reports) && w.clock <= at && CycleFair(p, w, at, reports, load, f)
    requires |Survivors(w)| <= p.maxConnectors
    ensures |Survivors(CycleStep(p, w, at, reports, load, f))| <= p.maxConnectors
  {
    var x := AdvancedWorld(p, w, at, reports, load, f);
    AdvancedCeiling(p, w, at, reports, load, f);
    PlanIsFair(p, w, at, reports, load, f);
    PlanCeiling(x, HealthPlan(p, x, ActiveOf(w, reports), at), at, f);
  }

  // --- steps and runs ---------------------------------------------------------------------------

  /** What keeps the ceiling. A removal that fails leaves a container that counts again, a replace by hand of a
      connector in mid-drain adds one for a connector that has gone from the count, and a manager restart
      forgets which connectors drain or wait to be replaced: each needs the room. */
  ghost predicate CeilingSafe(p: Policy, w: World, s: Step) {
    match s
    case Cycle(at, reports, load, f) => CycleFair(p, w, at, reports, load, f)
    case DrainTail(_, id, ok) => ok || id in w.mem.pending || |Survivors(w)| < p.maxConnectors
    case ReplaceByHand(_, id, _, f) =>
      id !in w.mem.draining || id in w.mem.pending || w.cloud.nextId in f.provision || |Survivors(w)| < p.maxConnectors
    case ManagerRestart(_) => |w.cloud.containers| <= p.maxConnectors
    case _ => true
  }

  lemma TailCeiling(w: World, id: Id, at: int, ok: bool)
    requires InventoryOk(w) && id in w.mem.draining
    ensures |Survivors(FinishDrain(w, id, at, ok))| == |Survivors(w)| + if ok || id in w.mem.pending then 0 else 1
  {
    var v := FinishDrain(w, id, at, ok);
    if ok || id in w.mem.pending {
      assert Survivors(v) == Survivors(w);
    } else {
      assert Survivors(v) == Survivors(w) + {id};
    }
  }

  lemma HandUpCeiling(p: Policy, w: World, at: int, reports: seq<Conn>, f: Faults)
    requires InventoryOk(w) && Accurate(w, reports) && |Survivors(w)| <= p.maxConnectors
    ensures |Survivors(ManualUp(p, w, at, reports, f).0)| <= p.maxConnectors
  {
    ActiveOfExact(w, reports);
    CountIsActive(w, ActiveOf(w, reports));
    GrowOneExact(w, at, f);
    var v, x := ManualUp(p, w, at, reports, f).0, ProvisionOne(w, at, f).0;
    assert ActiveSet(ArmUp(x, at)) == ActiveSet(x);
    SurvivorsActive(v);
  }

  /** The replacement of a connector in mid-drain is one more. */
  lemma DrainingPair(w: World, id: Id, at: int, f: Faults)
    requires InventoryOk(w) && id in w.mem.draining && w.cloud.nextId !in f.provision && id !in w.mem.pending
    requires w.cloud.nextId !in w.mem.pending
    ensures |Survivors(BeginReplace(w, id, at, f, true).0)| == |Survivors(w)| + 1
  {
    assert Survivors(BeginReplace(w, id, at, f, true).0) == Survivors(w) + {w.cloud.nextId};
  }

  lemma HandReplaceCeiling(w: World, id: Id, at: int, reports: seq<Conn>, f: Faults)
    requires Sound(w) && Accurate(w, reports)
    ensures var v := ManualReplace(w, id, at, reports, f).0;
            var more := id in w.mem.draining && id !in w.mem.pending && w.cloud.nextId !in f.provision;
            if more then |Survivors(v)| == |Survivors(w)| + 1 else |Survivors(v)| <= |Survivors(w)|
  {
    DiscoverExact(reports, w.store.cordons);
    if id in Ids(FleetOf(w, reports)) && id !in w.mem.pending {
      if id !in w.mem.draining {
        BeginCeiling(w, id, at, f, true);
      } else if w.cloud.nextId in f.provision {
        BeginFails(w, id, at, f, true);
      } else {
        DrainingPair(w, id, at, f);
      }
    }
  }

  lemma OtherCeiling(p: Policy, w: World, s: Step)
    requires Sound(w) && Enabled(p, w, s) && |Survivors(w)| <= p.maxConnectors
    requires s.FailedDiscovery? || s.ScaleDownByHand? || s.CordonByHand? || s.Teardown?
    ensures |Survivors(Apply(p, w, s))| <= p.maxConnectors
  {
    if s.Teardown? {
      AllSubset(Tick(w, s.at), ActiveOf(Tick(w, s.at), s.reports), s.at, s.faults, ByTeardown);
    }
    SubsetSize(Survivors(Apply(p, w, s)), Survivors(w));
  }

  lemma RebootCeiling(w: World)
    ensures Survivors(Reboot(w)) == w.cloud.containers
  {
  }

  /** Cycles apart, the steps that keep the ceiling are exactly the safe ones; and a fair cycle keeps it. */
  lemma StepCeiling(p: Policy, w: World, s: Step)
    requires p.Valid() && Sound(w) && Enabled(p, w, s) && |Survivors(w)| <= p.maxConnectors
    ensures CeilingSafe(p, w, s) ==> |Survivors(Apply(p, w, s))| <= p.maxConnectors
    ensures !s.Cycle? && |Survivors(Apply(p, w, s))| <= p.maxConnectors ==> CeilingSafe(p, w, s)
  {
    var now := Tick(w, s.at);
    assert Survivors(now) == Survivors(w);
    match s
    case Cycle(at, reports, load, f) =>
      if CycleFair(p, w, at, reports, load, f) {
        CycleCeiling(p, w, at, reports, load, f);
      }
    case DrainTail(at, id, ok) => TailCeiling(now, id, at, ok);
    case ScaleUpByHand(at, reports, f) => HandUpCeiling(p, now, at, reports, f);
    case ReplaceByHand(at, id, reports, f) => HandReplaceCeiling(now, id, at, reports, f);
    case ManagerRestart(_) => RebootCeiling(now);
    case _ => OtherCeiling(p, w, s);
  }

  /** Once within the ceiling the fleet stays there, through every run of safe steps, as far as connectors waiting
      to be replaced do not count: the active ones are at most as many more as there are replaces pending. */
  lemma {:induction false} CeilingHolds(p: Policy, ws: seq<World>, steps: seq<Step>, i: nat)
    requires p.Valid() && Run(p, ws, steps) && Sound(ws[0]) && i <= |steps|
    requires |Survivors(ws[0])| <= p.maxConnectors
    requires forall k {:trigger steps[k]} :: 0 <= k < |steps| ==> CeilingSafe(p, ws[k], steps[k])
    ensures |Survivors(ws[i])| <= p.maxConnectors
    ensures |ActiveSet(ws[i])| <= p.maxConnectors + |ws[i].mem.pending.Keys|
  {
    if i > 0 {
      CeilingHolds(p, ws, steps, i - 1);
      RunSound(p, ws, steps, i - 1);
      StepCeiling(p, ws[i - 1], steps[i - 1]);
    }
    SubsetSize(ActiveSet(ws[i]), Survivors(ws[i]) + ws[i].mem.pending.Keys);
  }
}
