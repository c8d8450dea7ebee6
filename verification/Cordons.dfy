/** A cordon hands one connector over to the operator: the manager neither scales it down nor begins to remediate
    it. A replace begun before the cordon goes on regardless. */
module Cordons {
  import opened Basics
  import opened Policies
  import opened Decider
  import opened Fleet
  import opened Effects
  import opened Steps
  import opened Completions
  import opened Remedies

  /** The event scales `id` down, or begins a health-driven replace of it. */
  predicate Meddles(e: Event, id: Id) {
    || (e.Deleted? && e.id == id && e.cause == ByScaleDown)
    || (e.ReplaceBegun? && e.id == id && !e.manual)
  }

  /** From `w` to `x` nothing was done to `id` that a cordon forbids. */
  ghost predicate HandsOff(w: World, x: World, id: Id) {
    && w.trace <= x.trace && w.store.history <= x.store.history
    && (forall k :: |w.trace| <= k < |x.trace| ==> !Meddles(x.trace[k], id))
    && (forall k :: |w.store.history| <= k < |x.store.history| ==>
          !(x.store.history[k].action == Restart && x.store.history[k].id == Some(id)))
  }

  /** Phases one after the other. */
  lemma Then(w: World, x: World, y: World, id: Id)
    requires HandsOff(w, x, id) && HandsOff(x, y, id)
    ensures HandsOff(w, y, id)
  {
  }

  lemma {:induction false} ManyHandsOff(w: World, at: int, f: Faults, k: nat, id: Id)
    ensures HandsOff(w, ProvisionMany(w, at, f, k).0, id)
  {
    if k > 0 {
      ManyHandsOff(w, at, f, k - 1, id);
      OneHandsOff(ProvisionMany(w, at, f, k - 1).0, at, f, id);
      Then(w, ProvisionMany(w, at, f, k - 1).0, ProvisionMany(w, at, f, k).0, id);
    }
  }

  lemma OneHandsOff(w: World, at: int, f: Faults, id: Id)
    ensures HandsOff(w, ProvisionOne(w, at, f).0, id)
  {
  }

  lemma DrainHandsOff(w: World, other: Id, subject: Id, at: int, f: Faults, cause: Cause, id: Id)
    requires other != id || cause != ByScaleDown
    ensures HandsOff(w, DeprovisionOne(w, other, subject, at, f, cause).0, id)
  {
  }

  lemma {:induction false} AllHandsOff(w: World, victims: seq<Conn>, at: int, f: Faults, id: Id)
    requires id !in Ids(victims)
    ensures HandsOff(w, DeprovisionAll(w, victims, at, f, ByScaleDown).0, id)
  {
    if victims != [] {
      var init, last := victims[..|victims| - 1], victims[|victims| - 1];
      assert last in victims;
      AllHandsOff(w, init, at, f, id);
      var before := DeprovisionAll(w, init, at, f, ByScaleDown).0;
      DrainHandsOff(before, last.id, last.id, at, f, ByScaleDown, id);
      Then(w, before, DeprovisionAll(w, victims, at, f, ByScaleDown).0, id);
    }
  }

  /** Every listed connector with this id is cordoned. */
  ghost predicate Off(conns: seq<Conn>, id: Id) { forall c :: c in conns && c.id == id ==> c.cordoned }

  lemma ScaleHandsOff(p: Policy, w: World, conns: seq<Conn>, load: Load, at: int, f: Faults, id: Id)
    requires Off(conns, id)
    ensures HandsOff(w, ScalePhase(p, w, conns, load, at, f), id)
  {
    var d := ScaleDecision(p, w, conns, load, at);
    if d.count >= 0 && d.direction == Up {
      ManyHandsOff(w, at, f, d.count, id);
      Then(w, ProvisionMany(w, at, f, d.count).0, ActScale(p, w, d, conns, at, f), id);
    } else if d.count >= 0 && d.direction == Down {
      var victims := PickVictims(p, w.mem, conns, d.count, at);
      VictimsEligible(p, w.mem, conns, d.count, at);
      AllHandsOff(w, victims, at, f, id);
      Then(w, DeprovisionAll(w, victims, at, f, ByScaleDown).0, ActScale(p, w, d, conns, at, f), id);
    }
  }

  lemma AdvanceHandsOff(p: Policy, w: World, conns: seq<Conn>, o: Id, at: int, f: Faults, id: Id)
    requires o in w.mem.pending
    ensures HandsOff(w, AdvanceReplace(p, w, conns, o, at, f), id)
  {
    var n := w.mem.pending[o].newId;
    DrainHandsOff(w, o, o, at, f, ByReplace(n), id);
    DrainHandsOff(w, n, o, at, f, ByTimeout(o), id);
  }

  lemma {:induction false} AdvancesHandsOff(p: Policy, w: World, conns: seq<Conn>, keys: seq<Id>, at: int, f: Faults,
                                            id: Id)
    ensures HandsOff(w, AdvanceReplaces(p, w, conns, keys, at, f), id)
  {
    if keys != [] {
      var init, o := keys[..|keys| - 1], keys[|keys| - 1];
      AdvancesHandsOff(p, w, conns, init, at, f, id);
      var before := AdvanceReplaces(p, w, conns, init, at, f);
      if o in before.mem.pending {
        AdvanceHandsOff(p, before, conns, o, at, f, id);
        Then(w, before, AdvanceReplace(p, before, conns, o, at, f), id);
      }
    }
  }

  lemma {:induction false} RemediesHandsOff(w: World, actions: seq<HealthAction>, at: int, f: Faults, id: Id)
    requires forall a :: a in actions ==> a.id != id
    ensures HandsOff(w, RemediateAll(w, actions, at, f), id)
  {
    if actions != [] {
      var init, a := actions[..|actions| - 1], actions[|actions| - 1];
      assert a in actions;
      RemediesHandsOff(w, init, at, f, id);
      var before := RemediateAll(w, init, at, f);
      Then(w, before, Remediate(before, a, at, f), id);
    }
  }

  lemma PlanSkips(p: Policy, w: World, conns: seq<Conn>, at: int, id: Id)
    requires Off(conns, id)
    ensures forall a :: a in HealthPlan(p, w, conns, at) ==> a.id != id
  {
    var counts := RestartCounts(p, w.store.history, conns, at);
    ActionsJustified(p, conns, counts, GatesOf(w.mem), at);
    forall a | a in HealthPlan(p, w, conns, at)
      ensures a.id != id
    {
      assert Justified(p, conns, counts, GatesOf(w.mem), at, a);
    }
  }

  lemma CordonedOff(w: World, reports: seq<Conn>, id: Id)
    requires Accurate(w, reports) && id in w.store.cordons
    ensures Off(ActiveOf(w, reports), id)
  {
    var fleet := FleetOf(w, reports);
    DiscoverExact(reports, w.store.cordons);
    ActiveExact(fleet, w.mem.draining);
    forall c | c in ActiveOf(w, reports) && c.id == id
      ensures c.cordoned
    {
      assert c in fleet;
    }
  }

  /** In no cycle, whatever the load, the health reports and the failures, is a cordoned connector scaled down or
      restarted, and in none does a replace of it for its health begin. */
  lemma CordonHonoured(p: Policy, w: World, at: int, reports: seq<Conn>, load: Load, f: Faults, id: Id)
    requires Accurate(w, reports) && id in w.store.cordons
    ensures HandsOff(w, CycleStep(p, w, at, reports, load, f), id)
  {
    var (conns, seen) := (ActiveOf(w, reports), Observe(Tick(w, at), FleetOf(w, reports), at));
    var scaled := ScalePhase(p, seen, conns, load, at, f);
    var advanced := ReplacePhase(p, scaled, conns, at, f);
    CordonedOff(w, reports, id);
    ScaleHandsOff(p, seen, conns, load, at, f, id);
    AdvancesHandsOff(p, scaled, conns, scaled.mem.order, at, f, id);
    PlanSkips(p, advanced, conns, at, id);
    RemediesHandsOff(advanced, HealthPlan(p, advanced, conns, at), at, f, id);
    Chain(w, seen, scaled, advanced, HealthPhase(p, advanced, conns, at, f), id);
  }

  lemma Chain(w: World, seen: World, scaled: World, advanced: World, v: World, id: Id)
    requires seen.trace == w.trace && seen.store == w.store
    requires HandsOff(seen, scaled, id) && HandsOff(scaled, advanced, id) && HandsOff(advanced, v, id)
    ensures HandsOff(w, v, id)
  {
    Then(seen, scaled, advanced, id);
    Then(seen, advanced, v, id);
  }

  // --- what a cordon does not stop -----------------------------------------------

  lemma CordonedScale(p: Policy, w: World, conns: seq<Conn>, load: Load, at: int, f: Faults, id: Id)
    requires Off(conns, id)
    ensures !RoutingStopped(w.trace, ScalePhase(p, w, conns, load, at, f).trace, id)
  {
    var v := ScalePhase(p, w, conns, load, at, f);
    ScaleHandsOff(p, w, conns, load, at, f, id);
    ScaleOnlyScales(p, w, conns, load, at, f);
    assert forall k :: |w.trace| <= k < |v.trace| ==> !Meddles(v.trace[k], id);
  }

  /** A cycle stops routing to a cordoned connector all the same exactly when a replace of it begun earlier
      completes, or it is itself a replacement that a timeout tears down: advancing the replaces does not look
      at cordons. */
  lemma CordonedStoppedExact(p: Policy, w: World, at: int, reports: seq<Conn>, load: Load, f: Faults, c: Conn)
    requires p.Valid() && Sound(w) && Accurate(w, reports) && c in ActiveOf(w, reports) && c.id in w.store.cordons
    ensures var v := CycleStep(p, w, at, reports, load, f);
            && (RoutingStopped(w.trace, v.trace, c.id) <==>
                  WillComplete(p, w, at, reports, f, c.id) || WillBeKnocked(p, w, at, reports, f, c.id))
            && (RoutingStopped(w.trace, v.trace, c.id) ==> c.id in v.mem.draining)
  {
    var (conns, seen) := (ActiveOf(w, reports), SeenWorld(w, at, reports));
    assert c.id in Ids(conns);
    CordonedOff(w, reports, c.id);
    CordonedScale(p, seen, conns, load, at, f, c.id);
    AdvancedRoutes(p, w, at, reports, load, f, c.id);
    CycleRecord(p, w, at, reports, load, f, c);
  }
}
