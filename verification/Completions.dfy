/** Which connectors the replace phase of a cycle stops routing to, told from the world the cycle began in. */
module Completions {
  import opened Basics
  import opened Policies
  import opened Decider
  import opened Fleet
  import opened Effects
  import opened Steps

  // --- what the record shows ----------------------------------------------------------

  /** Between the two records routing to `id` was stopped because its replacement was healthy. */
  ghost predicate Completed(before: seq<Event>, after: seq<Event>, id: Id) {
    exists k :: |before| <= k < |after| && after[k].Deleted? && after[k].id == id && after[k].cause.ByReplace?
  }

  ghost predicate RoutingStopped(before: seq<Event>, after: seq<Event>, id: Id) {
    exists k :: |before| <= k < |after| && after[k].Deleted? && after[k].id == id
  }

  lemma CompletedThen(a: seq<Event>, b: seq<Event>, c: seq<Event>, id: Id)
    requires a <= b <= c
    ensures Completed(a, c, id) <==> Completed(a, b, id) || Completed(b, c, id)
  {
    if Completed(a, b, id) {
      var k :| |a| <= k < |b| && b[k].Deleted? && b[k].id == id && b[k].cause.ByReplace?;
      assert c[k] == b[k];
    }
    if Completed(a, c, id) && !Completed(b, c, id) {
      var k :| |a| <= k < |c| && c[k].Deleted? && c[k].id == id && c[k].cause.ByReplace?;
      assert k < |b| && b[k] == c[k];
    }
  }

  lemma StoppedThen(a: seq<Event>, b: seq<Event>, c: seq<Event>, id: Id)
    requires a <= b <= c
    ensures RoutingStopped(a, c, id) <==> RoutingStopped(a, b, id) || RoutingStopped(b, c, id)
  {
    if RoutingStopped(a, b, id) {
      var k :| |a| <= k < |b| && b[k].Deleted? && b[k].id == id;
      assert c[k] == b[k];
    }
    if RoutingStopped(a, c, id) && !RoutingStopped(b, c, id) {
      var k :| |a| <= k < |c| && c[k].Deleted? && c[k].id == id;
      assert k < |b| && b[k] == c[k];
    }
  }

  // --- one turn -----------------------------------------------------------------------

  /** The turn of `o` tears its replacement `id` down, if `id` still has its logical connector. */
  ghost predicate Knocks(p: Policy, w: World, conns: seq<Conn>, o: Id, id: Id, at: int, f: Faults) {
    && o in w.mem.pending && o in Ids(conns) && w.mem.pending[o].newId == id
    && id !in HealthyIds(conns) && at - w.mem.pending[o].startedAt >= p.replaceTimeout && o !in f.delete
  }

  ghost predicate KnockedIn(p: Policy, w: World, conns: seq<Conn>, keys: seq<Id>, id: Id, at: int, f: Faults) {
    exists o :: o in keys && Knocks(p, w, conns, o, id, at, f)
  }

  /** The turn of `id` completes its replace, if `id` still has its logical connector. */
  ghost predicate Ripe(w: World, conns: seq<Conn>, id: Id, f: Faults) {
    id in w.mem.pending && w.mem.pending[id].newId in HealthyIds(conns) && id !in f.delete
  }

  /** What one turn does to the routing of `id`. */
  ghost predicate TurnRoutes(p: Policy, w: World, v: World, conns: seq<Conn>, o: Id, id: Id, at: int, f: Faults) {
    && w.trace <= v.trace
    && (Completed(w.trace, v.trace, id) <==> o == id && Ripe(w, conns, id, f) && id in w.cloud.logical)
    && (RoutingStopped(w.trace, v.trace, id) <==>
          id in w.cloud.logical && ((o == id && Ripe(w, conns, id, f)) || Knocks(p, w, conns, o, id, at, f)))
    && (id in v.cloud.logical <==> id in w.cloud.logical && !RoutingStopped(w.trace, v.trace, id))
  }

  /** One deletion, as far as `id` is concerned. */
  lemma DrainRoutes(w: World, target: Id, subject: Id, at: int, f: Faults, cause: Cause, id: Id)
    ensures var v := DeprovisionOne(w, target, subject, at, f, cause).0;
            var stopped := target == id && id in w.cloud.logical && subject !in f.delete;
            && w.trace <= v.trace
            && (RoutingStopped(w.trace, v.trace, id) <==> stopped)
            && (Completed(w.trace, v.trace, id) <==> stopped && cause.ByReplace?)
            && (id in v.cloud.logical <==> id in w.cloud.logical && !stopped)
  {
    var v := DeprovisionOne(w, target, subject, at, f, cause).0;
    if target in w.cloud.logical && subject !in f.delete {
      assert v.trace[|w.trace|] == Deleted(target, at, cause);
    }
  }

  lemma OneTurn(p: Policy, w: World, conns: seq<Conn>, o: Id, at: int, f: Faults, id: Id)
    requires Newer(w) && o in w.mem.pending && id in Ids(conns)
    ensures TurnRoutes(p, w, AdvanceReplace(p, w, conns, o, at, f), conns, o, id, at, f)
  {
    var n := w.mem.pending[o].newId;
    if o in Ids(conns) && n in HealthyIds(conns) {
      DrainRoutes(w, o, o, at, f, ByReplace(n), id);
    } else if o in Ids(conns) && at - w.mem.pending[o].startedAt >= p.replaceTimeout && n in Ids(conns) {
      DrainRoutes(w, n, o, at, f, ByTimeout(o), id);
    }
  }

  // --- the whole phase -----------------------------------------------------------------

  /** Among the turns of `keys` is one that completes the replace of `id`, and no turn before it tears `id` down. */
  ghost predicate CompletesIn(p: Policy, w: World, conns: seq<Conn>, keys: seq<Id>, id: Id, at: int, f: Faults) {
    && Ripe(w, conns, id, f) && id in w.cloud.logical
    && exists j :: 0 <= j < |keys| && keys[j] == id && !KnockedIn(p, w, conns, keys[..j], id, at, f)
  }

  lemma KnockedMore(p: Policy, w: World, conns: seq<Conn>, init: seq<Id>, o: Id, id: Id, at: int, f: Faults)
    ensures KnockedIn(p, w, conns, init + [o], id, at, f) <==>
            KnockedIn(p, w, conns, init, id, at, f) || Knocks(p, w, conns, o, id, at, f)
  {
    if Knocks(p, w, conns, o, id, at, f) {
      assert o in init + [o];
    }
    if KnockedIn(p, w, conns, init, id, at, f) {
      var x :| x in init && Knocks(p, w, conns, x, id, at, f);
      assert x in init + [o];
    }
  }

  lemma CompletesMore(p: Policy, w: World, conns: seq<Conn>, init: seq<Id>, o: Id, id: Id, at: int, f: Faults)
    ensures CompletesIn(p, w, conns, init + [o], id, at, f) <==>
            || CompletesIn(p, w, conns, init, id, at, f)
            || (o == id && Ripe(w, conns, id, f) && id in w.cloud.logical && !KnockedIn(p, w, conns, init, id, at, f))
  {
    var keys := init + [o];
    assert keys[..|init|] == init && keys[|init|] == o;
    assert forall j :: 0 <= j < |init| ==> keys[..j] == init[..j] && keys[j] == init[j];
  }

  /** Each replacement is another connector, younger than the one it replaces. */
  ghost predicate Newer(w: World) { forall o :: o in w.mem.pending ==> o < w.mem.pending[o].newId }

  /** What the turns of `keys` have done to the routing of `id`, and left of the replaces still to come. */
  ghost predicate PhaseRoutes(p: Policy, w: World, v: World, conns: seq<Conn>, keys: seq<Id>, id: Id, at: int,
                              f: Faults) {
    var completes := CompletesIn(p, w, conns, keys, id, at, f);
    && w.trace <= v.trace && Newer(v)
    && (Completed(w.trace, v.trace, id) <==> completes)
    && (RoutingStopped(w.trace, v.trace, id) <==>
          completes || (id in w.cloud.logical && KnockedIn(p, w, conns, keys, id, at, f)))
    && (id in v.cloud.logical <==> id in w.cloud.logical && !RoutingStopped(w.trace, v.trace, id))
  }

  /** The turns of `keys` leave the other pending replaces as they are, and add none. */
  ghost predicate Untouched(w: World, v: World, keys: seq<Id>) {
    forall o :: o !in keys ==>
      (o in v.mem.pending <==> o in w.mem.pending) && (o in w.mem.pending ==> v.mem.pending[o] == w.mem.pending[o])
  }

  lemma TurnLeaves(p: Policy, w: World, conns: seq<Conn>, o: Id, at: int, f: Faults)
    requires o in w.mem.pending && Newer(w)
    ensures var v := AdvanceReplace(p, w, conns, o, at, f);
            Untouched(w, v, [o]) && Newer(v)
  {
  }

  lemma PhaseMore(p: Policy, w: World, x: World, v: World, conns: seq<Conn>, init: seq<Id>, o: Id, id: Id, at: int,
                  f: Faults)
    requires PhaseRoutes(p, w, x, conns, init, id, at, f) && Newer(v) && o !in init
    requires o in w.mem.pending && o in x.mem.pending && x.mem.pending[o] == w.mem.pending[o]
    requires TurnRoutes(p, x, v, conns, o, id, at, f)
    ensures PhaseRoutes(p, w, v, conns, init + [o], id, at, f)
  {
    KnockedMore(p, w, conns, init, o, id, at, f);
    CompletesMore(p, w, conns, init, o, id, at, f);
    CompletedThen(w.trace, x.trace, v.trace, id);
    StoppedThen(w.trace, x.trace, v.trace, id);
    assert Knocks(p, x, conns, o, id, at, f) <==> Knocks(p, w, conns, o, id, at, f);
    assert o == id ==> (Ripe(x, conns, id, f) <==> Ripe(w, conns, id, f));
    assert o == id ==> !CompletesIn(p, w, conns, init, id, at, f);
  }

  lemma PhaseSkips(p: Policy, w: World, x: World, conns: seq<Conn>, init: seq<Id>, o: Id, id: Id, at: int, f: Faults)
    requires PhaseRoutes(p, w, x, conns, init, id, at, f) && o !in w.mem.pending
    ensures PhaseRoutes(p, w, x, conns, init + [o], id, at, f)
  {
    KnockedMore(p, w, conns, init, o, id, at, f);
    CompletesMore(p, w, conns, init, o, id, at, f);
  }

  lemma {:induction false} TurnsRoute(p: Policy, w: World, conns: seq<Conn>, keys: seq<Id>, at: int, f: Faults, id: Id)
    requires Distinct(keys) && Newer(w) && id in Ids(conns)
    ensures var v := AdvanceReplaces(p, w, conns, keys, at, f);
            PhaseRoutes(p, w, v, conns, keys, id, at, f) && Untouched(w, v, keys)
  {
    if keys != [] {
      var init, o := keys[..|keys| - 1], keys[|keys| - 1];
      assert keys == init + [o] && o !in init;
      TurnsRoute(p, w, conns, init, at, f, id);
      var x := AdvanceReplaces(p, w, conns, init, at, f);
      if o in x.mem.pending {
        var v := AdvanceReplace(p, x, conns, o, at, f);
        OneTurn(p, x, conns, o, at, f, id);
        TurnLeaves(p, x, conns, o, at, f);
        PhaseMore(p, w, x, v, conns, init, o, id, at, f);
      } else {
        PhaseSkips(p, w, x, conns, init, o, id, at, f);
      }
    }
  }

  // --- after the scale phase --------------------------------------------------------------

  /** Scaling leaves the pending replaces alone, stops routing only to scale down, and not while a replace is
      pending. What it stops routing to loses its logical connector, and nobody else. */
  ghost predicate OnlyScaled(w: World, v: World) {
    && w.trace <= v.trace && v.mem.pending == w.mem.pending && v.mem.order == w.mem.order
    && w.cloud.nextId <= v.cloud.nextId && v.clock == w.clock
    && (forall k :: |w.trace| <= k < |v.trace| && v.trace[k].Deleted? ==> v.trace[k].cause == ByScaleDown)
    && (forall id :: id < w.cloud.nextId ==>
          (id in v.cloud.logical <==> id in w.cloud.logical && !RoutingStopped(w.trace, v.trace, id)))
  }

  lemma OnlyScaledThen(w: World, x: World, v: World)
    requires OnlyScaled(w, x) && OnlyScaled(x, v)
    ensures OnlyScaled(w, v)
  {
    forall id
      ensures RoutingStopped(w.trace, v.trace, id) <==>
              RoutingStopped(w.trace, x.trace, id) || RoutingStopped(x.trace, v.trace, id)
    {
      StoppedThen(w.trace, x.trace, v.trace, id);
    }
  }

  lemma GrowOnlyScales(w: World, at: int, f: Faults)
    ensures OnlyScaled(w, ProvisionOne(w, at, f).0)
  {
  }

  lemma DrainOnlyScales(w: World, id: Id, at: int, f: Faults)
    ensures OnlyScaled(w, DeprovisionOne(w, id, id, at, f, ByScaleDown).0)
  {
    forall x
      ensures var v := DeprovisionOne(w, id, id, at, f, ByScaleDown).0;
              x in v.cloud.logical <==> x in w.cloud.logical && !RoutingStopped(w.trace, v.trace, x)
    {
      DrainRoutes(w, id, id, at, f, ByScaleDown, x);
    }
  }

  lemma {:induction false} ManyOnlyScaled(w: World, at: int, f: Faults, k: nat)
    ensures OnlyScaled(w, ProvisionMany(w, at, f, k).0)
  {
    if k > 0 {
      var x := ProvisionMany(w, at, f, k - 1).0;
      ManyOnlyScaled(w, at, f, k - 1);
      GrowOnlyScales(x, at, f);
      OnlyScaledThen(w, x, ProvisionMany(w, at, f, k).0);
    }
  }

  lemma {:induction false} AllOnlyScaled(w: World, victims: seq<Conn>, at: int, f: Faults)
    ensures OnlyScaled(w, DeprovisionAll(w, victims, at, f, ByScaleDown).0)
  {
    if victims != [] {
      var init, id := victims[..|victims| - 1], victims[|victims| - 1].id;
      var x := DeprovisionAll(w, init, at, f, ByScaleDown).0;
      AllOnlyScaled(w, init, at, f);
      DrainOnlyScales(x, id, at, f);
      OnlyScaledThen(w, x, DeprovisionAll(w, victims, at, f, ByScaleDown).0);
    }
  }

  /** An announcement changes nothing but the record and the cooldowns. */
  lemma AnnounceOnlyScales(w: World, x: World, v: World, e: Event)
    requires OnlyScaled(w, x) && !e.Deleted? && v.trace == x.trace + [e]
    requires v.cloud == x.cloud && v.mem == x.mem && v.clock == x.clock
    ensures OnlyScaled(w, v)
  {
    assert OnlyScaled(x, v);
    OnlyScaledThen(w, x, v);
  }

  lemma ScaleOnlyScales(p: Policy, w: World, conns: seq<Conn>, load: Load, at: int, f: Faults)
    ensures OnlyScaled(w, ScalePhase(p, w, conns, load, at, f))
  {
    var d := ScaleDecision(p, w, conns, load, at);
    var v := ScalePhase(p, w, conns, load, at, f);
    if d.count >= 0 && d.direction == Up {
      var (x, n) := ProvisionMany(w, at, f, d.count);
      ManyOnlyScaled(w, at, f, d.count);
      if n > 0 {
        AnnounceOnlyScales(w, x, v, ScaledUp(at, n, |conns| < p.minConnectors));
      }
    } else if d.count >= 0 && d.direction == Down {
      var victims := PickVictims(p, w.mem, conns, d.count, at);
      var (x, n) := DeprovisionAll(w, victims, at, f, ByScaleDown);
      AllOnlyScaled(w, victims, at, f);
      if n > 0 {
        AnnounceOnlyScales(w, x, v, ScaledDown(at, n));
      }
    }
  }

  /** With a replace pending the scale phase at most adds, so it stops routing to nobody. */
  lemma {:induction false} ManyStopNobody(w: World, at: int, f: Faults, k: nat, id: Id)
    ensures var v := ProvisionMany(w, at, f, k).0;
            w.trace <= v.trace && !RoutingStopped(w.trace, v.trace, id)
  {
    if k > 0 {
      ManyStopNobody(w, at, f, k - 1, id);
      var x := ProvisionMany(w, at, f, k - 1).0;
      StoppedThen(w.trace, x.trace, ProvisionOne(x, at, f).0.trace, id);
    }
  }

  lemma PendingStopsNobody(p: Policy, w: World, conns: seq<Conn>, load: Load, at: int, f: Faults, id: Id)
    requires p.Valid() && w.mem.pending != map[]
    ensures !RoutingStopped(w.trace, ScalePhase(p, w, conns, load, at, f).trace, id)
  {
    var d := ScaleDecision(p, w, conns, load, at);
    DecisionRails(p, load, |conns|, w.store.lastUp, w.store.lastDown, at, true);
    if d.direction == Up {
      ManyStopNobody(w, at, f, d.count, id);
    }
  }

  // --- the cycle, up to remediation ----------------------------------------------------------

  function SeenWorld(w: World, at: int, reports: seq<Conn>): World { Observe(Tick(w, at), FleetOf(w, reports), at) }

  /** The world when remediation begins. */
  function AdvancedWorld(p: Policy, w: World, at: int, reports: seq<Conn>, load: Load, f: Faults): World {
    var (conns, seen) := (ActiveOf(w, reports), SeenWorld(w, at, reports));
    ReplacePhase(p, ScalePhase(p, seen, conns, load, at, f), conns, at, f)
  }

  /** The replace of `id` completes in this cycle: its replacement is seen healthy, its deletion works, and no
      replace visited earlier times out and tears it down first. */
  ghost predicate WillComplete(p: Policy, w: World, at: int, reports: seq<Conn>, f: Faults, id: Id) {
    CompletesIn(p, w, ActiveOf(w, reports), w.mem.order, id, at, f)
  }

  /** Some replace that times out in this cycle tears `id` down, unless that has happened before its turn. */
  ghost predicate WillBeKnocked(p: Policy, w: World, at: int, reports: seq<Conn>, f: Faults, id: Id) {
    id in w.cloud.logical && KnockedIn(p, w, ActiveOf(w, reports), w.mem.order, id, at, f)
  }

  /** The conditions read the same after the scale phase. */
  lemma ScaledAlike(p: Policy, w: World, x: World, conns: seq<Conn>, keys: seq<Id>, at: int, f: Faults, id: Id)
    requires x.mem.pending == w.mem.pending
    requires w.mem.pending != map[] ==> (id in x.cloud.logical <==> id in w.cloud.logical)
    ensures CompletesIn(p, x, conns, keys, id, at, f) <==> CompletesIn(p, w, conns, keys, id, at, f)
    ensures KnockedIn(p, x, conns, keys, id, at, f) <==> KnockedIn(p, w, conns, keys, id, at, f)
    ensures KnockedIn(p, w, conns, keys, id, at, f) ==> w.mem.pending != map[]
  {
    assert forall ks :: KnockedIn(p, x, conns, ks, id, at, f) <==> KnockedIn(p, w, conns, ks, id, at, f) by {
      assert forall o :: Knocks(p, x, conns, o, id, at, f) <==> Knocks(p, w, conns, o, id, at, f);
    }
    assert Ripe(x, conns, id, f) <==> Ripe(w, conns, id, f);
  }

  lemma ScaledNewer(w: World, x: World)
    requires OnlyScaled(w, x) && OrderOk(w) && Newer(w)
    ensures OrderOk(x) && Newer(x)
  {
  }

  /** What the scale phase and then the replace phase do to the routing of `id`. */
  ghost predicate Rerouted(w: World, scaled: World, v: World, completes: bool, knocked: bool, id: Id) {
    && w.trace <= scaled.trace <= v.trace
    && (Completed(w.trace, v.trace, id) <==> completes)
    && (RoutingStopped(w.trace, v.trace, id) <==> RoutingStopped(w.trace, scaled.trace, id) || completes || knocked)
  }

  lemma PhasesReroute(w: World, scaled: World, v: World, completes: bool, knocked: bool, id: Id)
    requires OnlyScaled(w, scaled) && scaled.trace <= v.trace
    requires Completed(scaled.trace, v.trace, id) <==> completes
    requires RoutingStopped(scaled.trace, v.trace, id) <==> completes || knocked
    ensures Rerouted(w, scaled, v, completes, knocked, id)
  {
    CompletedThen(w.trace, scaled.trace, v.trace, id);
    StoppedThen(w.trace, scaled.trace, v.trace, id);
  }

  lemma ScaledLogical(p: Policy, w: World, conns: seq<Conn>, load: Load, at: int, f: Faults, id: Id)
    requires p.Valid() && id < w.cloud.nextId
    ensures var x := ScalePhase(p, w, conns, load, at, f);
            && OnlyScaled(w, x)
            && (w.mem.pending != map[] ==> (id in x.cloud.logical <==> id in w.cloud.logical))
  {
    ScaleOnlyScales(p, w, conns, load, at, f);
    if w.mem.pending != map[] {
      PendingStopsNobody(p, w, conns, load, at, f, id);
    }
  }

  lemma PhasesRoute(p: Policy, w: World, conns: seq<Conn>, load: Load, at: int, f: Faults, id: Id)
    requires p.Valid() && OrderOk(w) && Newer(w) && id in Ids(conns) && id < w.cloud.nextId
    ensures var scaled := ScalePhase(p, w, conns, load, at, f);
            Rerouted(w, scaled, ReplacePhase(p, scaled, conns, at, f), CompletesIn(p, w, conns, w.mem.order, id, at, f),
                     id in w.cloud.logical && KnockedIn(p, w, conns, w.mem.order, id, at, f), id)
  {
    var scaled := ScalePhase(p, w, conns, load, at, f);
    ScaledLogical(p, w, conns, load, at, f, id);
    ScaledNewer(w, scaled);
    TurnsRoute(p, scaled, conns, scaled.mem.order, at, f, id);
    ScaledAlike(p, w, scaled, conns, w.mem.order, at, f, id);
    PhasesReroute(w, scaled, ReplacePhase(p, scaled, conns, at, f), CompletesIn(p, w, conns, w.mem.order, id, at, f),
                  id in w.cloud.logical && KnockedIn(p, w, conns, w.mem.order, id, at, f), id);
  }

  /** Before remediation the cycle has stopped routing to exactly those that the scale phase took, whose replace
      completes, or that a timeout tears down; and a replace has completed exactly as foretold. */
  lemma AdvancedRoutes(p: Policy, w: World, at: int, reports: seq<Conn>, load: Load, f: Faults, id: Id)
    requires p.Valid() && Sound(w) && Accurate(w, reports) && id in Ids(ActiveOf(w, reports))
    ensures Rerouted(w, ScalePhase(p, SeenWorld(w, at, reports), ActiveOf(w, reports), load, at, f),
                     AdvancedWorld(p, w, at, reports, load, f), WillComplete(p, w, at, reports, f, id),
                     WillBeKnocked(p, w, at, reports, f, id), id)
  {
    var (conns, seen) := (ActiveOf(w, reports), SeenWorld(w, at, reports));
    ActiveOfExact(w, reports);
    PhasesRoute(p, seen, conns, load, at, f, id);
    ScaledAlike(p, w, seen, conns, w.mem.order, at, f, id);
  }
}
