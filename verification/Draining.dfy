/** What is left alone: connectors in mid-drain, and the ends of replaces in flight. */
module Draining {
  import opened Basics
  import opened Policies
  import opened Decider
  import opened Fleet
  import opened Effects
  import opened Steps

  // --- a draining connector is left alone --------------------------------------

  /** The event stops routing to, removes, or begins to replace `id`. */
  predicate About(e: Event, id: Id) {
    (e.Deleted? || e.Removed? || e.ReplaceBegun?) && e.id == id
  }

  /** From `w` to `x` the drain of `id` runs on, and nothing was done to `id` or recorded about it. */
  ghost predicate Spared(w: World, x: World, id: Id) {
    && id in w.mem.draining && id in x.mem.draining && x.mem.draining[id] == w.mem.draining[id]
    && id < x.cloud.nextId
    && w.trace <= x.trace && w.store.history <= x.store.history
    && (forall k :: |w.trace| <= k < |x.trace| ==> !About(x.trace[k], id))
    && (forall k :: |w.store.history| <= k < |x.store.history| ==> x.store.history[k].id != Some(id))
    && (id in x.mem.pending ==> id in w.mem.pending && x.mem.pending[id] == w.mem.pending[id])
  }

  lemma {:induction false} ManySpared(w: World, x: World, at: int, f: Faults, k: nat, id: Id)
    requires Spared(w, x, id)
    ensures Spared(w, ProvisionMany(x, at, f, k).0, id)
  {
    if k > 0 {
      ManySpared(w, x, at, f, k - 1, id);
      OneSpared(w, ProvisionMany(x, at, f, k - 1).0, at, f, id);
    }
  }

  lemma OneSpared(w: World, x: World, at: int, f: Faults, id: Id)
    requires Spared(w, x, id)
    ensures Spared(w, ProvisionOne(x, at, f).0, id)
  {
  }

  lemma {:induction false} AllSpared(w: World, x: World, victims: seq<Conn>, at: int, f: Faults, cause: Cause, id: Id)
    requires Spared(w, x, id) && id !in Ids(victims)
    ensures Spared(w, DeprovisionAll(x, victims, at, f, cause).0, id)
  {
    if victims != [] {
      var init, last := victims[..|victims| - 1], victims[|victims| - 1];
      assert last in victims;
      AllSpared(w, x, init, at, f, cause, id);
      DrainSpared(w, DeprovisionAll(x, init, at, f, cause).0, last.id, last.id, at, f, cause, id);
    }
  }

  lemma DrainSpared(w: World, x: World, other: Id, subject: Id, at: int, f: Faults, cause: Cause, id: Id)
    requires Spared(w, x, id) && other != id
    ensures Spared(w, DeprovisionOne(x, other, subject, at, f, cause).0, id)
  {
  }

  lemma ScaleSpared(p: Policy, w: World, x: World, conns: seq<Conn>, load: Load, f: Faults, id: Id)
    requires p.Valid() && Spared(w, x, id) && id !in Ids(conns)
    ensures Spared(w, ScalePhase(p, x, conns, load, x.clock, f), id)
  {
    var d := ScaleDecision(p, x, conns, load, x.clock);
    DecisionRails(p, load, |conns|, x.store.lastUp, x.store.lastDown, x.clock, x.mem.pending != map[]);
    match d.direction
    case Stay =>
    case Up => ManySpared(w, x, x.clock, f, d.count, id);
    case Down =>
      var victims := PickVictims(p, x.mem, conns, d.count, x.clock);
      VictimsEligible(p, x.mem, conns, d.count, x.clock);
      AllSpared(w, x, victims, x.clock, f, ByScaleDown, id);
  }

  lemma AdvanceSpared(p: Policy, w: World, x: World, conns: seq<Conn>, o: Id, f: Faults, id: Id)
    requires Spared(w, x, id) && id !in Ids(conns) && o in x.mem.pending
    ensures Spared(w, AdvanceReplace(p, x, conns, o, x.clock, f), id)
  {
    var n := x.mem.pending[o].newId;
    if o in Ids(conns) && n in HealthyIds(conns) {
      DrainSpared(w, x, o, o, x.clock, f, ByReplace(n), id);
    } else if o in Ids(conns) && n in Ids(conns) {
      DrainSpared(w, x, n, o, x.clock, f, ByTimeout(o), id);
    }
  }

  lemma RemedySpared(w: World, x: World, a: HealthAction, f: Faults, id: Id)
    requires Spared(w, x, id) && a.id != id
    ensures Spared(w, Remediate(x, a, x.clock, f), id)
  {
    if a.kind == ReplaceNew {
      OneSpared(w, x, x.clock, f, id);
    }
  }

  lemma AdvancesSpared(p: Policy, w: World, x: World, conns: seq<Conn>, f: Faults, id: Id)
    requires Sound(x) && Frozen(x, conns) && Spared(w, x, id) && id !in Ids(conns)
    ensures var v := ReplacePhase(p, x, conns, x.clock, f);
            Sound(v) && Frozen(v, conns) && v.clock == x.clock && Spared(w, v, id)
  {
    var inv := y => Spared(w, y, id);
    forall y, o | Good(inv, y) && Frozen(y, conns) && o in y.mem.pending
      ensures Good(inv, AdvanceReplace(p, y, conns, o, y.clock, f))
    {
      AdvanceSpared(p, w, y, conns, o, f, id);
      assert Good(z => true, y);
      AdvanceKeeps(p, z => true, y, conns, o, f);
    }
    AdvancesKeep(p, inv, x, conns, x.mem.order, f);
    assert Good(inv, ReplacePhase(p, x, conns, x.clock, f));
  }

  lemma HealthSpared(p: Policy, w: World, x: World, conns: seq<Conn>, f: Faults, id: Id)
    requires Sound(x) && Frozen(x, conns) && Spared(w, x, id) && id !in Ids(conns)
    ensures Spared(w, HealthPhase(p, x, conns, x.clock, f), id)
  {
    var inv := y => Spared(w, y, id);
    forall y, a | Good(inv, y) && Due(p, y, conns, a)
      ensures Good(inv, Remediate(y, a, y.clock, f))
    {
      RemedySpared(w, y, a, f, id);
      assert Good(z => true, y);
      RemediateKeeps(p, z => true, y, conns, a, f);
    }
    HealthKeeps(p, inv, x, conns, f);
    assert Good(inv, HealthPhase(p, x, conns, x.clock, f));
  }

  /** The phases after scaling. */
  lemma TailSpared(p: Policy, w: World, x: World, conns: seq<Conn>, f: Faults, id: Id)
    requires Sound(x) && Frozen(x, conns) && Spared(w, x, id) && id !in Ids(conns)
    ensures Spared(w, HealthPhase(p, ReplacePhase(p, x, conns, x.clock, f), conns, x.clock, f), id)
  {
    AdvancesSpared(p, w, x, conns, f, id);
    HealthSpared(p, w, ReplacePhase(p, x, conns, x.clock, f), conns, f, id);
  }

  lemma ScaledSound(p: Policy, w: World, conns: seq<Conn>, load: Load, f: Faults)
    requires p.Valid() && Sound(w) && Frozen(w, conns)
    ensures var v := ScalePhase(p, w, conns, load, w.clock, f);
            Sound(v) && Frozen(v, conns) && v.clock == w.clock
  {
    assert Good(x => true, w);
    ScaleKeeps(p, x => true, w, conns, load, f);
  }

  lemma LookSpared(w: World, at: int, fleet: seq<Conn>, id: Id)
    requires InventoryOk(w) && id in w.mem.draining
    ensures Spared(w, Observe(Tick(w, at), fleet, at), id)
  {
  }

  /** A connector already draining when a cycle begins is not on the cycle's list, so it is not counted, and
      in that cycle it is not chosen as a victim, restarted, replaced or deleted. */
  lemma DrainingLeftAlone(p: Policy, w: World, at: int, reports: seq<Conn>, load: Load, f: Faults, id: Id)
    requires p.Valid() && Sound(w) && Accurate(w, reports) && w.clock <= at && id in w.mem.draining
    ensures id !in Ids(ActiveOf(w, reports))
    ensures Spared(w, CycleStep(p, w, at, reports, load, f), id)
  {
    var conns := ActiveOf(w, reports);
    var seen := Observe(Tick(w, at), FleetOf(w, reports), at);
    ActiveOfExact(w, reports);
    FrozenAfterLook(w, reports, at);
    LookSpared(w, at, FleetOf(w, reports), id);
    LookSound(w, at, reports);
    ScaleSpared(p, w, seen, conns, load, f, id);
    ScaledSound(p, seen, conns, load, f);
    TailSpared(p, w, ScalePhase(p, seen, conns, load, at, f), conns, f, id);
  }

  lemma LookSound(w: World, at: int, reports: seq<Conn>)
    requires Sound(w) && Accurate(w, reports) && w.clock <= at
    ensures Sound(Observe(Tick(w, at), FleetOf(w, reports), at))
  {
  }

  // --- scale-downs spare both ends of a replace --------------------------------

  /** What the operator's scale-down may take. */
  ghost predicate FreeToDrain(p: Policy, w: World, id: Id, now: int) {
    && id !in w.mem.pending && (forall o :: o in w.mem.pending ==> w.mem.pending[o].newId != id)
    && id !in w.store.cordons
    && (p.startupGrace > 0 && id in w.mem.firstSeen ==> now - w.mem.firstSeen[id] >= p.startupGrace)
  }

  lemma VictimsFree(p: Policy, w: World, reports: seq<Conn>, count: nat, at: int, c: Conn)
    requires Accurate(w, reports) && c in PickVictims(p, w.mem, ActiveOf(w, reports), count, at)
    ensures FreeToDrain(p, w, c.id, at)
  {
    VictimsEligible(p, w.mem, ActiveOf(w, reports), count, at);
    DiscoverExact(reports, w.store.cordons);
    ActiveExact(FleetOf(w, reports), w.mem.draining);
    assert c in FleetOf(w, reports);
  }

  /** A manual scale-down never takes either end of a pending replace, a cordoned connector, or one in its
      startup grace. */
  lemma HandDownSparesPairs(p: Policy, w: World, at: int, reports: seq<Conn>, f: Faults)
    requires Sound(w) && Accurate(w, reports)
    ensures var v := ManualDown(p, w, at, reports, f).0;
            v.trace == w.trace ||
            exists id :: v.trace == w.trace + [Deleted(id, at, ByManual)] && FreeToDrain(p, w, id, at)
  {
    var victims := PickVictims(p, w.mem, ActiveOf(w, reports), 1, at);
    if victims != [] {
      assert victims[0] in victims;
      VictimsFree(p, w, reports, 1, at, victims[0]);
    }
  }

  /** With any replace pending the autoscaler does not scale down. */
  lemma AutoDownWaitsForReplaces(p: Policy, w: World, conns: seq<Conn>, load: Load, at: int)
    requires p.Valid() && w.mem.pending != map[]
    ensures ScaleDecision(p, w, conns, load, at).direction != Down
  {
    DecisionRails(p, load, |conns|, w.store.lastUp, w.store.lastDown, at, true);
  }
}
