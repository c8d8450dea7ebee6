/** Each lock-held step, taken apart into allowed effects. `StepKeeps` and `RunKeeps` turn a property kept
    by every allowed effect into one kept by every step and every run. */
module Steps {
  import opened Basics
  import opened Policies
  import opened Decider
  import opened Fleet
  import opened Effects

  /** Every allowed effect keeps `inv`. */
  ghost predicate Keeps(p: Policy, inv: World -> bool) {
    forall w, e :: Sound(w) && inv(w) && Allowed(p, w, e) ==> inv(Perform(w, e))
  }

  ghost predicate Good(inv: World -> bool, w: World) { Sound(w) && inv(w) }

  lemma Do(p: Policy, inv: World -> bool, w: World, e: Effect)
    requires Keeps(p, inv) && Good(inv, w) && Allowed(p, w, e)
    ensures Good(inv, Perform(w, e))
  {
    SoundKept(p, w, e);
  }

  // --- discovery -------------------------------------------------------------

  lemma {:induction false} ActiveExact(fleet: seq<Conn>, draining: map<Id, int>)
    requires DistinctIds(fleet)
    ensures forall c :: c in Active(fleet, draining) <==> c in fleet && c.id !in draining
    ensures DistinctIds(Active(fleet, draining))
  {
    if fleet != [] {
      var init, last := fleet[..|fleet| - 1], fleet[|fleet| - 1];
      ActiveExact(init, draining);
      assert fleet == init + [last];
      var before := Active(init, draining);
      forall i | 0 <= i < |before|
        ensures before[i].id != last.id
      {
        assert before[i] in init;
      }
    }
  }

  lemma DiscoverExact(reports: seq<Conn>, cordons: set<Id>)
    requires DistinctIds(reports)
    ensures DistinctIds(Discover(reports, cordons))
    ensures Ids(Discover(reports, cordons)) == Ids(reports)
  {
    var fleet := Discover(reports, cordons);
    forall id | id in Ids(reports)
      ensures id in Ids(fleet)
    {
      var c :| c in reports && c.id == id;
      var i :| 0 <= i < |reports| && reports[i] == c;
      assert fleet[i] in fleet && fleet[i].id == id;
    }
    forall id | id in Ids(fleet)
      ensures id in Ids(reports)
    {
      var c :| c in fleet && c.id == id;
      var i :| 0 <= i < |fleet| && fleet[i] == c;
      assert reports[i] in reports && reports[i].id == id;
    }
  }

  /** The frozen list of one cycle: distinct connectors with containers, none of them draining when the
      cycle began, matching the sighting just made. */
  ghost predicate Frozen(w: World, conns: seq<Conn>) {
    && DistinctIds(conns)
    && Ids(conns) <= w.cloud.containers
    && w.sightings != []
    && w.sightings[|w.sightings| - 1].at == w.clock
    && (forall id :: id in Ids(conns) ==> (id in w.sightings[|w.sightings| - 1].healthy <==> id in HealthyIds(conns)))
    && (forall c :: c in conns && IsUnhealthy(c) ==> c.id in w.sightings[|w.sightings| - 1].unhealthy)
  }

  lemma ActiveHealthy(fleet: seq<Conn>, conns: seq<Conn>, draining: map<Id, int>)
    requires DistinctIds(fleet) && conns == Active(fleet, draining)
    ensures forall id :: id in Ids(conns) <==> id in Ids(fleet) && id !in draining
    ensures forall id :: id in Ids(conns) ==> (id in HealthyIds(fleet) <==> id in HealthyIds(conns))
  {
    ActiveExact(fleet, draining);
    forall id | id in Ids(fleet) && id !in draining
      ensures id in Ids(conns)
    {
      var c :| c in fleet && c.id == id;
      assert c in conns;
    }
    forall id | id in Ids(conns) && id in HealthyIds(fleet)
      ensures id in HealthyIds(conns)
    {
      var c :| c in fleet && HealthyReplacement(c) && c.id == id;
      assert c in conns;
    }
  }

  /** `conns` lists exactly the containers that are not draining. */
  ghost predicate Undrained(w: World, conns: seq<Conn>) {
    forall id :: id in Ids(conns) <==> id in w.cloud.containers && id !in w.mem.draining
  }

  lemma ActiveOfExact(w: World, reports: seq<Conn>)
    requires Accurate(w, reports)
    ensures Undrained(w, ActiveOf(w, reports))
    ensures DistinctIds(ActiveOf(w, reports))
  {
    DiscoverExact(reports, w.store.cordons);
    ActiveHealthy(FleetOf(w, reports), ActiveOf(w, reports), w.mem.draining);
    ActiveExact(FleetOf(w, reports), w.mem.draining);
  }

  lemma FrozenAfterLook(w: World, reports: seq<Conn>, at: int)
    requires Accurate(w, reports)
    ensures Frozen(Observe(Tick(w, at), FleetOf(w, reports), at), ActiveOf(w, reports))
  {
    DiscoverExact(reports, w.store.cordons);
    ActiveHealthy(FleetOf(w, reports), ActiveOf(w, reports), w.mem.draining);
    ActiveExact(FleetOf(w, reports), w.mem.draining);
  }

  // --- scaling ---------------------------------------------------------------

  /** What provisioning and deprovisioning leave alone. */
  ghost predicate SameBooks(w: World, v: World) {
    && w.mem.pending == v.mem.pending && w.mem.order == v.mem.order
    && w.mem.firstSeen == v.mem.firstSeen && w.mem.firstUnhealthy == v.mem.firstUnhealthy
    && w.store.lastUp == v.store.lastUp && w.store.lastDown == v.store.lastDown
    && w.sightings == v.sightings && w.boot == v.boot && w.clock == v.clock
    && w.cloud.containers <= v.cloud.containers && w.cloud.nextId <= v.cloud.nextId
    && (forall id :: id in v.cloud.containers ==> id in w.cloud.containers || id >= w.cloud.nextId)
    && w.mem.draining.Keys <= v.mem.draining.Keys
  }

  lemma {:induction false} ManyFrame(w: World, at: int, f: Faults, k: nat)
    ensures SameBooks(w, ProvisionMany(w, at, f, k).0)
  {
    if k > 0 {
      ManyFrame(w, at, f, k - 1);
    }
  }

  lemma {:induction false} AllFrame(w: World, victims: seq<Conn>, at: int, f: Faults, cause: Cause)
    ensures SameBooks(w, DeprovisionAll(w, victims, at, f, cause).0)
  {
    if victims != [] {
      AllFrame(w, victims[..|victims| - 1], at, f, cause);
    }
  }

  lemma GrowOne(p: Policy, inv: World -> bool, w: World, at: int, f: Faults)
    requires Keeps(p, inv) && Good(inv, w) && at == w.clock
    ensures Good(inv, ProvisionOne(w, at, f).0)
  {
    Do(p, inv, w, Grow(f));
  }

  lemma {:induction false} ManyCount(w: World, at: int, f: Faults, k: nat)
    ensures ProvisionMany(w, at, f, k).1 <= k
  {
    if k > 0 {
      ManyCount(w, at, f, k - 1);
    }
  }

  lemma {:induction false} GrowFold(keep: World -> bool, w: World, at: int, f: Faults, k: nat)
    requires keep(w) && forall x :: keep(x) ==> keep(ProvisionOne(x, at, f).0)
    ensures keep(ProvisionMany(w, at, f, k).0)
  {
    if k > 0 {
      GrowFold(keep, w, at, f, k - 1);
    }
  }

  lemma GrowMany(p: Policy, inv: World -> bool, w: World, at: int, f: Faults, k: nat)
    requires Keeps(p, inv) && Good(inv, w) && at == w.clock
    ensures Good(inv, ProvisionMany(w, at, f, k).0)
  {
    var keep := x => Good(inv, x) && x.clock == at;
    forall x | keep(x)
      ensures keep(ProvisionOne(x, at, f).0)
    {
      GrowOne(p, inv, x, at, f);
    }
    GrowFold(keep, w, at, f, k);
  }

  lemma {:induction false} ShrinkAll(p: Policy, inv: World -> bool, w: World, victims: seq<Conn>, f: Faults,
                                     cause: Cause)
    requires Keeps(p, inv) && Good(inv, w)
    requires cause == ByScaleDown || cause == ByTeardown
    requires forall c :: c in victims ==> c.id in w.cloud.containers && MayShrink(p, w, c.id, cause)
    ensures var (v, n) := DeprovisionAll(w, victims, w.clock, f, cause);
            Good(inv, v) && n <= |victims|
  {
    if victims != [] {
      var init, last := victims[..|victims| - 1], victims[|victims| - 1];
      ShrinkAll(p, inv, w, init, f, cause);
      AllFrame(w, init, w.clock, f, cause);
      assert last in victims;
      Do(p, inv, DeprovisionAll(w, init, w.clock, f, cause).0, Shrink(last.id, last.id, f, cause));
    }
  }

  /** Each victim that still has a logical connector drains unless its deletion fails. */
  lemma {:induction false} DrainsStarted(w: World, victims: seq<Conn>, at: int, f: Faults, cause: Cause)
    ensures var v := DeprovisionAll(w, victims, at, f, cause).0;
            && v.cloud.containers == w.cloud.containers && v.cloud.nextId == w.cloud.nextId
            && v.store == w.store.(history := v.store.history)
            && (forall id :: id in v.mem.draining <==>
                  id in w.mem.draining || (id in Ids(victims) && id in w.cloud.logical && id !in f.delete))
            && (forall id :: id in v.cloud.logical <==>
                  id in w.cloud.logical && (id !in Ids(victims) || id in f.delete))
  {
    if victims != [] {
      var init, last := victims[..|victims| - 1], victims[|victims| - 1];
      DrainsStarted(w, init, at, f, cause);
      assert victims == init + [last];
      assert Ids(victims) == Ids(init) + {last.id};
    }
  }

  lemma {:induction false} EligibleExact(p: Policy, m: Memory, conns: seq<Conn>, now: int)
    ensures forall c :: c in Eligible(p, m, conns, now) <==> c in conns && EligibleVictim(p, m, c, now)
  {
    if conns != [] {
      EligibleExact(p, m, conns[..|conns| - 1], now);
      assert conns == conns[..|conns| - 1] + [conns[|conns| - 1]];
    }
  }

  /** No end of a pending replace, no cordoned connector and none in its startup grace is ever picked. */
  lemma VictimsEligible(p: Policy, m: Memory, conns: seq<Conn>, count: nat, now: int)
    ensures forall c :: c in PickVictims(p, m, conns, count, now) ==> c in conns && EligibleVictim(p, m, c, now)
    ensures |PickVictims(p, m, conns, count, now)| == Min(count, |Eligible(p, m, conns, now)|)
  {
    EligibleExact(p, m, conns, now);
  }

  lemma ScaleUpKeeps(p: Policy, inv: World -> bool, w: World, conns: seq<Conn>, d: Decision, f: Faults)
    requires Keeps(p, inv) && Good(inv, w) && d.direction == Up && d.count >= 0
    requires |conns| >= p.minConnectors ==>
               d.count <= p.scaleStep && (w.store.lastUp.Some? ==> w.clock - w.store.lastUp.value >= p.upCooldown)
    ensures Good(inv, ActScale(p, w, d, conns, w.clock, f))
  {
    GrowMany(p, inv, w, w.clock, f, d.count);
    ManyCount(w, w.clock, f, d.count);
    ManyFrame(w, w.clock, f, d.count);
    var (v, n) := ProvisionMany(w, w.clock, f, d.count);
    if n > 0 {
      Do(p, inv, v, AutoUp(n, |conns| < p.minConnectors));
    }
  }

  lemma ScaleDownKeeps(p: Policy, inv: World -> bool, w: World, conns: seq<Conn>, d: Decision, f: Faults)
    requires Keeps(p, inv) && Good(inv, w) && d.direction == Down && 0 <= d.count <= p.scaleStep
    requires Ids(conns) <= w.cloud.containers && w.mem.pending == map[]
    requires w.store.lastDown.Some? ==> w.clock - w.store.lastDown.value >= p.downCooldown
    ensures Good(inv, ActScale(p, w, d, conns, w.clock, f))
  {
    var victims := PickVictims(p, w.mem, conns, d.count, w.clock);
    VictimsEligible(p, w.mem, conns, d.count, w.clock);
    forall c | c in victims
      ensures c.id in w.cloud.containers && MayShrink(p, w, c.id, ByScaleDown)
    {
      assert c.id in Ids(conns);
    }
    ShrinkAll(p, inv, w, victims, f, ByScaleDown);
    AllFrame(w, victims, w.clock, f, ByScaleDown);
    var (v, n) := DeprovisionAll(w, victims, w.clock, f, ByScaleDown);
    if n > 0 {
      Do(p, inv, v, AutoDown(n));
    }
  }

  lemma ActScaleFrame(p: Policy, w: World, conns: seq<Conn>, d: Decision, f: Faults)
    requires Sound(w) && Frozen(w, conns) && d.count >= 0
    ensures var v := ActScale(p, w, d, conns, w.clock, f);
            Frozen(v, conns) && v.clock == w.clock
  {
    match d.direction
    case Stay =>
    case Up => ManyFrame(w, w.clock, f, d.count);
    case Down => AllFrame(w, PickVictims(p, w.mem, conns, d.count, w.clock), w.clock, f, ByScaleDown);
  }

  lemma ScaleKeeps(p: Policy, inv: World -> bool, w: World, conns: seq<Conn>, load: Load, f: Faults)
    requires p.Valid() && Keeps(p, inv) && Good(inv, w) && Frozen(w, conns)
    ensures var v := ScalePhase(p, w, conns, load, w.clock, f);
            Good(inv, v) && Frozen(v, conns) && v.clock == w.clock
  {
    var d := ScaleDecision(p, w, conns, load, w.clock);
    DecisionRails(p, load, |conns|, w.store.lastUp, w.store.lastDown, w.clock, w.mem.pending != map[]);
    ActScaleFrame(p, w, conns, d, f);
    match d.direction
    case Stay =>
    case Up => ScaleUpKeeps(p, inv, w, conns, d, f);
    case Down => ScaleDownKeeps(p, inv, w, conns, d, f);
  }

  // --- pending replaces ------------------------------------------------------

  /** Completion: the replacement was just seen healthy. */
  lemma CompleteKeeps(p: Policy, inv: World -> bool, w: World, conns: seq<Conn>, o: Id, f: Faults)
    requires Keeps(p, inv) && Good(inv, w) && Frozen(w, conns) && o in w.mem.pending
    requires o in Ids(conns) && w.mem.pending[o].newId in HealthyIds(conns)
    ensures var (after, removed) := DeprovisionOne(w, o, o, w.clock, f, ByReplace(w.mem.pending[o].newId));
            Good(inv, Record(if removed then DropPending(after, o) else after, Row(w.clock, Replace, Some(o), removed)))
  {
    var n := w.mem.pending[o].newId;
    Do(p, inv, w, Shrink(o, o, f, ByReplace(n)));
    var (after, removed) := DeprovisionOne(w, o, o, w.clock, f, ByReplace(n));
    if removed {
      Do(p, inv, after, Release(o));
    }
    Do(p, inv, if removed then DropPending(after, o) else after, Write(Row(w.clock, Replace, Some(o), removed)));
  }

  /** Timeout: the replacement, if still there, was just seen not healthy. */
  lemma TimeoutKeeps(p: Policy, inv: World -> bool, w: World, conns: seq<Conn>, o: Id, f: Faults)
    requires Keeps(p, inv) && Good(inv, w) && Frozen(w, conns) && o in w.mem.pending
    requires w.mem.pending[o].newId !in HealthyIds(conns) && w.clock - w.mem.pending[o].startedAt >= p.replaceTimeout
    ensures var n := w.mem.pending[o].newId;
            var after := if n in Ids(conns) then DeprovisionOne(w, n, o, w.clock, f, ByTimeout(o)).0 else w;
            Good(inv, DropPending(after, o))
  {
    var n := w.mem.pending[o].newId;
    if n in Ids(conns) {
      Do(p, inv, w, Shrink(n, o, f, ByTimeout(o)));
      Do(p, inv, DeprovisionOne(w, n, o, w.clock, f, ByTimeout(o)).0, Release(o));
    } else {
      Do(p, inv, w, Release(o));
    }
  }

  lemma AdvanceKeeps(p: Policy, inv: World -> bool, w: World, conns: seq<Conn>, o: Id, f: Faults)
    requires Keeps(p, inv) && Good(inv, w) && Frozen(w, conns) && o in w.mem.pending
    ensures Good(inv, AdvanceReplace(p, w, conns, o, w.clock, f))
  {
    var pend := w.mem.pending[o];
    if o !in Ids(conns) {
      Do(p, inv, w, Release(o));
    } else if pend.newId in HealthyIds(conns) {
      CompleteKeeps(p, inv, w, conns, o, f);
    } else if w.clock - pend.startedAt >= p.replaceTimeout {
      TimeoutKeeps(p, inv, w, conns, o, f);
    }
  }

  lemma AdvanceFrame(p: Policy, w: World, conns: seq<Conn>, o: Id, f: Faults)
    requires Frozen(w, conns) && o in w.mem.pending
    ensures var v := AdvanceReplace(p, w, conns, o, w.clock, f);
            Frozen(v, conns) && v.clock == w.clock
  {
  }

  /** Advancing any one pending replace keeps `inv`. */
  ghost predicate AdvanceSafe(p: Policy, inv: World -> bool, conns: seq<Conn>, f: Faults) {
    forall w, o :: Good(inv, w) && Frozen(w, conns) && o in w.mem.pending ==>
                     Good(inv, AdvanceReplace(p, w, conns, o, w.clock, f))
  }

  lemma AdvanceIsSafe(p: Policy, inv: World -> bool, conns: seq<Conn>, f: Faults)
    requires Keeps(p, inv)
    ensures AdvanceSafe(p, inv, conns, f)
  {
    forall w, o | Good(inv, w) && Frozen(w, conns) && o in w.mem.pending
      ensures Good(inv, AdvanceReplace(p, w, conns, o, w.clock, f))
    {
      AdvanceKeeps(p, inv, w, conns, o, f);
    }
  }

  lemma {:induction false} AdvancesKeep(p: Policy, inv: World -> bool, w: World, conns: seq<Conn>, keys: seq<Id>,
                                        f: Faults)
    requires AdvanceSafe(p, inv, conns, f) && Good(inv, w) && Frozen(w, conns)
    ensures var v := AdvanceReplaces(p, w, conns, keys, w.clock, f);
            Good(inv, v) && Frozen(v, conns) && v.clock == w.clock
  {
    if keys != [] {
      AdvancesKeep(p, inv, w, conns, keys[..|keys| - 1], f);
      var before := AdvanceReplaces(p, w, conns, keys[..|keys| - 1], w.clock, f);
      if keys[|keys| - 1] in before.mem.pending {
        AdvanceFrame(p, before, conns, keys[|keys| - 1], f);
      }
    }
  }

  // --- health ----------------------------------------------------------------

  lemma CountAppend(history: seq<Row>, row: Row, id: Id, since: int)
    ensures CountRestarts(history + [row], id, since) ==
            CountRestarts(history, id, since) +
            if row.id == Some(id) && row.action == Restart && row.at >= since then 1 else 0
  {
    assert (history + [row])[..|history|] == history;
  }

  /** For `id`, nothing that gates its remediation differs between the two worlds. */
  ghost predicate SameFor(p: Policy, w: World, v: World, id: Id) {
    && CountRestarts(v.store.history, id, w.clock - p.restartWindow) ==
       CountRestarts(w.store.history, id, w.clock - p.restartWindow)
    && (id in v.mem.pending <==> id in w.mem.pending)
  }

  lemma RemediateFrame(p: Policy, w: World, a: HealthAction, f: Faults, id: Id)
    requires a.id != id
    ensures var v := Remediate(w, a, w.clock, f);
            SameFor(p, w, v, id) && v.clock == w.clock && w.cloud.containers <= v.cloud.containers
            && v.mem.firstUnhealthy == w.mem.firstUnhealthy && v.sightings == w.sightings
  {
    var v := Remediate(w, a, w.clock, f);
    if |v.store.history| > |w.store.history| {
      var row := v.store.history[|w.store.history|];
      assert v.store.history == w.store.history + [row];
      CountAppend(w.store.history, row, id, w.clock - p.restartWindow);
    }
  }

  /** What the plan established about one action still holds when its turn comes. */
  ghost predicate Due(p: Policy, w: World, conns: seq<Conn>, a: HealthAction) {
    && Ids(conns) <= w.cloud.containers && a.id in Ids(conns) && a.id !in w.mem.pending && HealthGate(p, w, a.id)
    && (a.kind == ReplaceNew <==> CountRestarts(w.store.history, a.id, w.clock - p.restartWindow) >= p.maxRestarts)
  }

  lemma PlanDue(p: Policy, w: World, conns: seq<Conn>, a: HealthAction)
    requires Frozen(w, conns) && a in HealthPlan(p, w, conns, w.clock)
    ensures Due(p, w, conns, a)
  {
    var counts := RestartCounts(p, w.store.history, conns, w.clock);
    ActionsJustified(p, conns, counts, GatesOf(w.mem), w.clock);
    assert Justified(p, conns, counts, GatesOf(w.mem), w.clock, a);
    var c :| c in conns && c.id == a.id && Remediable(p, c, GatesOf(w.mem), w.clock) &&
             (a.kind == ReplaceNew <==> CountOf(counts, a.id) >= p.maxRestarts);
    assert c.id in Ids(conns);
    assert c.id in counts && counts[c.id] == CountRestarts(w.store.history, c.id, w.clock - p.restartWindow);
  }

  lemma RemediateKeeps(p: Policy, inv: World -> bool, w: World, conns: seq<Conn>, a: HealthAction, f: Faults)
    requires Keeps(p, inv) && Good(inv, w) && Due(p, w, conns, a)
    ensures Good(inv, Remediate(w, a, w.clock, f))
  {
    match a.kind
    case RestartInPlace => Do(p, inv, w, Write(Row(w.clock, Restart, Some(a.id), a.id !in f.restart)));
    case ReplaceNew => Do(p, inv, w, Pair(a.id, f, false));
  }

  lemma DueStays(p: Policy, w: World, conns: seq<Conn>, a: HealthAction, f: Faults, later: HealthAction)
    requires Due(p, w, conns, later) && a.id != later.id
    ensures Due(p, Remediate(w, a, w.clock, f), conns, later)
  {
    RemediateFrame(p, w, a, f, later.id);
  }

  /** Performing any one due action keeps `inv`. */
  ghost predicate RemedySafe(p: Policy, inv: World -> bool, conns: seq<Conn>, f: Faults) {
    forall w, a :: Good(inv, w) && Due(p, w, conns, a) ==> Good(inv, Remediate(w, a, w.clock, f))
  }

  lemma RemedyIsSafe(p: Policy, inv: World -> bool, conns: seq<Conn>, f: Faults)
    requires Keeps(p, inv)
    ensures RemedySafe(p, inv, conns, f)
  {
    forall w, a | Good(inv, w) && Due(p, w, conns, a)
      ensures Good(inv, Remediate(w, a, w.clock, f))
    {
      RemediateKeeps(p, inv, w, conns, a, f);
    }
  }

  /** Before action `i`: `inv` holds, and the actions still to come are due. */
  ghost predicate Stage(p: Policy, inv: World -> bool, conns: seq<Conn>, actions: seq<HealthAction>, at: int, i: nat,
                        w: World) {
    && Good(inv, w) && w.clock == at
    && forall j :: i <= j < |actions| ==> Due(p, w, conns, actions[j])
  }

  lemma StageStep(p: Policy, inv: World -> bool, conns: seq<Conn>, actions: seq<HealthAction>, at: int, i: nat,
                  w: World, f: Faults)
    requires RemedySafe(p, inv, conns, f) && DistinctTargets(actions) && i < |actions|
    requires Stage(p, inv, conns, actions, at, i, w)
    ensures Stage(p, inv, conns, actions, at, i + 1, Remediate(w, actions[i], at, f))
  {
    var v := Remediate(w, actions[i], at, f);
    assert Due(p, w, conns, actions[i]) && v.clock == at;
    forall j | i + 1 <= j < |actions|
      ensures Due(p, v, conns, actions[j])
    {
      DueStays(p, w, conns, actions[i], f, actions[j]);
    }
  }

  lemma {:induction false} RemediatesKeep(p: Policy, inv: World -> bool, w: World, conns: seq<Conn>,
                                          actions: seq<HealthAction>, at: int, k: nat, f: Faults)
    requires RemedySafe(p, inv, conns, f) && k <= |actions| && DistinctTargets(actions)
    requires Stage(p, inv, conns, actions, at, 0, w)
    ensures Stage(p, inv, conns, actions, at, k, RemediateAll(w, actions[..k], at, f))
  {
    if k == 0 {
      assert actions[..k] == [];
    } else {
      RemediatesKeep(p, inv, w, conns, actions, at, k - 1, f);
      assert actions[..k][..k - 1] == actions[..k - 1];
      StageStep(p, inv, conns, actions, at, k - 1, RemediateAll(w, actions[..k - 1], at, f), f);
    }
  }

  lemma HealthKeeps(p: Policy, inv: World -> bool, w: World, conns: seq<Conn>, f: Faults)
    requires RemedySafe(p, inv, conns, f) && Good(inv, w) && Frozen(w, conns)
    ensures var v := HealthPhase(p, w, conns, w.clock, f);
            Good(inv, v) && v.clock == w.clock
  {
    var plan := HealthPlan(p, w, conns, w.clock);
    OneActionEach(p, conns, RestartCounts(p, w.store.history, conns, w.clock), GatesOf(w.mem), w.clock);
    forall i | 0 <= i < |plan|
      ensures Due(p, w, conns, plan[i])
    {
      PlanDue(p, w, conns, plan[i]);
    }
    RemediatesKeep(p, inv, w, conns, plan, w.clock, |plan|, f);
    assert plan[..|plan|] == plan;
  }

  // --- whole steps and runs --------------------------------------------------

  lemma CycleKeeps(p: Policy, inv: World -> bool, w: World, at: int, reports: seq<Conn>, load: Load, f: Faults)
    requires p.Valid() && Keeps(p, inv) && Good(inv, w) && Accurate(w, reports) && w.clock <= at
    ensures Good(inv, CycleStep(p, w, at, reports, load, f))
  {
    var conns := ActiveOf(w, reports);
    Do(p, inv, w, Pass(at));
    DiscoverExact(reports, w.store.cordons);
    Do(p, inv, Tick(w, at), Look(FleetOf(w, reports)));
    var seen := Observe(Tick(w, at), FleetOf(w, reports), at);
    FrozenAfterLook(w, reports, at);
    ScaleKeeps(p, inv, seen, conns, load, f);
    var scaled := ScalePhase(p, seen, conns, load, at, f);
    AdvanceIsSafe(p, inv, conns, f);
    AdvancesKeep(p, inv, scaled, conns, scaled.mem.order, f);
    RemedyIsSafe(p, inv, conns, f);
    HealthKeeps(p, inv, ReplacePhase(p, scaled, conns, at, f), conns, f);
  }

  lemma HandUpKeeps(p: Policy, inv: World -> bool, w: World, reports: seq<Conn>, f: Faults)
    requires Keeps(p, inv) && Good(inv, w)
    ensures Good(inv, ManualUp(p, w, w.clock, reports, f).0)
  {
    Do(p, inv, w, Grow(f));
    Do(p, inv, ProvisionOne(w, w.clock, f).0, HandUp);
  }

  lemma HandDownKeeps(p: Policy, inv: World -> bool, w: World, reports: seq<Conn>, f: Faults)
    requires Keeps(p, inv) && Good(inv, w) && Accurate(w, reports)
    ensures Good(inv, ManualDown(p, w, w.clock, reports, f).0)
  {
    var conns := ActiveOf(w, reports);
    var victims := PickVictims(p, w.mem, conns, 1, w.clock);
    if victims != [] {
      ActiveOfExact(w, reports);
      VictimsEligible(p, w.mem, conns, 1, w.clock);
      var id := victims[0].id;
      assert victims[0] in victims && id in Ids(conns);
      Do(p, inv, w, Shrink(id, id, f, ByManual));
      Do(p, inv, DeprovisionOne(w, id, id, w.clock, f, ByManual).0, HandDown);
    }
  }

  lemma HandReplaceKeeps(p: Policy, inv: World -> bool, w: World, id: Id, reports: seq<Conn>, f: Faults)
    requires Keeps(p, inv) && Good(inv, w) && Accurate(w, reports)
    ensures Good(inv, ManualReplace(w, id, w.clock, reports, f).0)
  {
    DiscoverExact(reports, w.store.cordons);
    if id in Ids(FleetOf(w, reports)) && id !in w.mem.pending {
      Do(p, inv, w, Pair(id, f, true));
    }
  }

  lemma HandCordonKeeps(p: Policy, inv: World -> bool, w: World, id: Id, cordoned: bool, reports: seq<Conn>)
    requires Keeps(p, inv) && Good(inv, w)
    ensures Good(inv, ManualCordon(w, id, cordoned, w.clock, reports).0)
  {
    var cs := if cordoned then w.store.cordons + {id} else w.store.cordons - {id};
    Do(p, inv, w, SetCordons(cs));
    Do(p, inv, w.(store := w.store.(cordons := cs)),
       Write(Row(w.clock, if cordoned then Cordon else Uncordon, Some(id), true)));
  }

  lemma TeardownKeeps(p: Policy, inv: World -> bool, w: World, reports: seq<Conn>, f: Faults)
    requires Keeps(p, inv) && Good(inv, w) && Accurate(w, reports)
    ensures Good(inv, TeardownStart(w, w.clock, reports, f).0)
  {
    ActiveOfExact(w, reports);
    var conns := ActiveOf(w, reports);
    forall c | c in conns
      ensures c.id in w.cloud.containers
    {
      assert c.id in Ids(conns);
    }
    ShrinkAll(p, inv, w, conns, f, ByTeardown);
  }

  /** A property kept by every allowed effect is kept by every step. */
  lemma StepKeeps(p: Policy, inv: World -> bool, w: World, s: Step)
    requires p.Valid() && Keeps(p, inv) && Good(inv, w) && Enabled(p, w, s)
    ensures Good(inv, Apply(p, w, s))
  {
    var now := Tick(w, s.at);
    Do(p, inv, w, Pass(s.at));
    match s
    case Cycle(at, reports, load, f) => CycleKeeps(p, inv, w, at, reports, load, f);
    case FailedDiscovery(_) =>
    case DrainTail(_, id, ok) => Do(p, inv, now, Drained(id, ok));
    case ScaleUpByHand(_, reports, f) => HandUpKeeps(p, inv, now, reports, f);
    case ScaleDownByHand(_, reports, f) => HandDownKeeps(p, inv, now, reports, f);
    case ReplaceByHand(_, id, reports, f) => HandReplaceKeeps(p, inv, now, id, reports, f);
    case CordonByHand(_, id, cordoned, reports) => HandCordonKeeps(p, inv, now, id, cordoned, reports);
    case Teardown(_, reports, f) => TeardownKeeps(p, inv, now, reports, f);
    case ManagerRestart(_) => Do(p, inv, now, Rebooted);
  }

  /** A property kept by every allowed effect holds throughout every run. */
  lemma {:induction false} RunKeeps(p: Policy, inv: World -> bool, ws: seq<World>, steps: seq<Step>, i: nat)
    requires p.Valid() && Keeps(p, inv) && Run(p, ws, steps) && Good(inv, ws[0]) && i <= |steps|
    ensures Good(inv, ws[i])
  {
    if i > 0 {
      RunKeeps(p, inv, ws, steps, i - 1);
      StepKeeps(p, inv, ws[i - 1], steps[i - 1]);
    }
  }

  lemma InitialSound(w: World)
    requires Initial(w)
    ensures Sound(w)
  {
  }
}
