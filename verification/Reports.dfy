/** What discovery reports decides a cycle: in the fields of the reports, whose replace completes, and who is
    remediated. */
module Reports {
  import opened Basics
  import opened Policies
  import opened Decider
  import opened Criteria
  import opened Fleet
  import opened Effects
  import opened Steps
  import opened Completions
  import opened Remedies

  /** A report that Twingate sees connector `id` alive, and that its own health check does not fail. */
  ghost predicate ReportedServing(reports: seq<Conn>, id: Id) {
    exists c :: c in reports && c.id == id && c.state == Some(Alive) && c.docker != Some(Unhealthy)
  }

  ghost predicate ReportedIll(reports: seq<Conn>, id: Id) {
    exists c :: c in reports && c.id == id && ReportsIll(c)
  }

  /** `c` as the cycle sees it: the report with the operator's cordon on it. */
  function Marked(w: World, c: Conn): Conn { c.(cordoned := c.id in w.store.cordons) }

  lemma FleetIs(w: World, reports: seq<Conn>)
    ensures forall c :: c in reports ==> Marked(w, c) in FleetOf(w, reports)
    ensures forall m :: m in FleetOf(w, reports) ==> exists c :: c in reports && m == Marked(w, c)
  {
    var fleet := FleetOf(w, reports);
    forall c | c in reports
      ensures Marked(w, c) in fleet
    {
      var i :| 0 <= i < |reports| && reports[i] == c;
      assert fleet[i] == Marked(w, c);
    }
    forall m | m in fleet
      ensures exists c :: c in reports && m == Marked(w, c)
    {
      var i :| 0 <= i < |fleet| && fleet[i] == m;
      assert reports[i] in reports && m == Marked(w, reports[i]);
    }
  }

  lemma ListedReport(w: World, reports: seq<Conn>, c: Conn)
    requires Accurate(w, reports) && c in reports && c.id !in w.mem.draining
    ensures Marked(w, c) in ActiveOf(w, reports) && c.id in Ids(ActiveOf(w, reports))
  {
    FleetIs(w, reports);
    DiscoverExact(reports, w.store.cordons);
    ActiveExact(FleetOf(w, reports), w.mem.draining);
    assert Marked(w, c) in ActiveOf(w, reports);
  }

  /** Who counts as a healthy replacement, in the fields of the reports. */
  lemma ServingExact(w: World, reports: seq<Conn>, id: Id)
    requires Accurate(w, reports)
    ensures id in HealthyIds(FleetOf(w, reports)) <==> ReportedServing(reports, id)
    ensures id in HealthyIds(ActiveOf(w, reports)) <==> ReportedServing(reports, id) && id !in w.mem.draining
  {
    FleetIs(w, reports);
    DiscoverExact(reports, w.store.cordons);
    ActiveExact(FleetOf(w, reports), w.mem.draining);
    if id in HealthyIds(FleetOf(w, reports)) {
      var m :| m in FleetOf(w, reports) && HealthyReplacement(m) && m.id == id;
      var c :| c in reports && m == Marked(w, c);
    }
    if ReportedServing(reports, id) {
      var c :| c in reports && c.id == id && c.state == Some(Alive) && c.docker != Some(Unhealthy);
      assert Marked(w, c) in FleetOf(w, reports);
    }
  }

  /** Who counts as unhealthy. */
  lemma IllExact(w: World, reports: seq<Conn>, id: Id)
    requires Accurate(w, reports)
    ensures id in UnhealthyIds(FleetOf(w, reports)) <==> ReportedIll(reports, id)
  {
    FleetIs(w, reports);
    if id in UnhealthyIds(FleetOf(w, reports)) {
      var m :| m in FleetOf(w, reports) && IsUnhealthy(m) && m.id == id;
      var c :| c in reports && m == Marked(w, c);
      IllAlike(c);
      assert IsUnhealthy(c);
    }
    if ReportedIll(reports, id) {
      var c :| c in reports && c.id == id && ReportsIll(c);
      IllAlike(c);
      assert IsUnhealthy(Marked(w, c));
    }
  }

  lemma IllAlike(c: Conn)
    ensures IsUnhealthy(c) <==> ReportsIll(c)
  {
  }

  // --- whose replace completes ------------------------------------------------------------

  /** The replace of `o` times out in this cycle without its replacement `id` reported serving, and takes it away. */
  ghost predicate TearsDown(p: Policy, w: World, at: int, reports: seq<Conn>, f: Faults, o: Id, id: Id) {
    && o in w.mem.pending && w.mem.pending[o].newId == id
    && o in w.cloud.containers && o !in w.mem.draining && o !in f.delete
    && !ReportedServing(reports, id) && at - w.mem.pending[o].startedAt >= p.replaceTimeout
  }

  /** The replacement of `id` is reported serving and `id` can be deleted, and no replace visited before that of
      `id` takes `id` away. */
  ghost predicate WillSwitch(p: Policy, w: World, at: int, reports: seq<Conn>, f: Faults, id: Id) {
    && id in w.mem.pending && ReportedServing(reports, w.mem.pending[id].newId)
    && w.mem.pending[id].newId !in w.mem.draining && id in w.cloud.logical && id !in f.delete
    && exists j :: 0 <= j < |w.mem.order| && w.mem.order[j] == id &&
                   forall o :: o in w.mem.order[..j] ==> !TearsDown(p, w, at, reports, f, o, id)
  }

  lemma KnocksExact(p: Policy, w: World, at: int, reports: seq<Conn>, f: Faults, o: Id, id: Id)
    requires Accurate(w, reports) && id in Ids(ActiveOf(w, reports))
    ensures Knocks(p, w, ActiveOf(w, reports), o, id, at, f) <==> TearsDown(p, w, at, reports, f, o, id)
  {
    ServingExact(w, reports, id);
    ActiveOfExact(w, reports);
  }

  lemma SwitchExact(p: Policy, w: World, at: int, reports: seq<Conn>, f: Faults, id: Id)
    requires Accurate(w, reports) && id in Ids(ActiveOf(w, reports))
    ensures WillComplete(p, w, at, reports, f, id) <==> WillSwitch(p, w, at, reports, f, id)
  {
    var conns := ActiveOf(w, reports);
    if id in w.mem.pending {
      ServingExact(w, reports, w.mem.pending[id].newId);
    }
    forall keys: seq<Id>
      ensures KnockedIn(p, w, conns, keys, id, at, f) <==>
              exists o :: o in keys && TearsDown(p, w, at, reports, f, o, id)
    {
      forall o
        ensures Knocks(p, w, conns, o, id, at, f) <==> TearsDown(p, w, at, reports, f, o, id)
      {
        KnocksExact(p, w, at, reports, f, o, id);
      }
    }
  }

  /** A cycle retires a connector for its replacement if and only if the replacement is reported alive and not
      failing its health check, the connector can be deleted, and no earlier timeout takes it away. */
  lemma CompletedOnReports(p: Policy, w: World, at: int, reports: seq<Conn>, load: Load, f: Faults, c: Conn)
    requires p.Valid() && Sound(w) && Accurate(w, reports) && c in reports && c.id !in w.mem.draining
    ensures Completed(w.trace, CycleStep(p, w, at, reports, load, f).trace, c.id) <==>
            WillSwitch(p, w, at, reports, f, c.id)
  {
    ListedReport(w, reports, c);
    CompletedExact(p, w, at, reports, load, f, Marked(w, c));
    SwitchExact(p, w, at, reports, f, c.id);
  }

  // --- what each teardown saw -----------------------------------------------------------------

  /** From `w` to `v` nothing was discovered, and each deletion happened at `at`: one by a replace with its
      replacement healthy on the list, one by a timeout of a listed connector that is not. */
  ghost predicate OnEvidence(w: World, v: World, conns: seq<Conn>, at: int) {
    && w.trace <= v.trace && v.sightings == w.sightings
    && forall k :: |w.trace| <= k < |v.trace| && v.trace[k].Deleted? ==>
         && v.trace[k].at == at
         && (v.trace[k].cause.ByReplace? ==> v.trace[k].cause.newId in HealthyIds(conns))
         && (v.trace[k].cause.ByTimeout? ==> v.trace[k].id in Ids(conns) && v.trace[k].id !in HealthyIds(conns))
  }

  lemma EvidenceThen(w: World, x: World, v: World, conns: seq<Conn>, at: int)
    requires OnEvidence(w, x, conns, at) && OnEvidence(x, v, conns, at)
    ensures OnEvidence(w, v, conns, at)
  {
  }

  lemma OneOnEvidence(w: World, id: Id, subject: Id, at: int, f: Faults, cause: Cause, conns: seq<Conn>)
    requires cause.ByReplace? ==> cause.newId in HealthyIds(conns)
    requires cause.ByTimeout? ==> id in Ids(conns) && id !in HealthyIds(conns)
    ensures OnEvidence(w, DeprovisionOne(w, id, subject, at, f, cause).0, conns, at)
  {
  }

  lemma {:induction false} ManyOnEvidence(w: World, at: int, f: Faults, k: nat, conns: seq<Conn>)
    ensures OnEvidence(w, ProvisionMany(w, at, f, k).0, conns, at)
  {
    if k > 0 {
      var x := ProvisionMany(w, at, f, k - 1).0;
      ManyOnEvidence(w, at, f, k - 1, conns);
      assert OnEvidence(x, ProvisionOne(x, at, f).0, conns, at);
      EvidenceThen(w, x, ProvisionOne(x, at, f).0, conns, at);
    }
  }

  lemma {:induction false} AllOnEvidence(w: World, victims: seq<Conn>, at: int, f: Faults, cause: Cause,
                                         conns: seq<Conn>)
    requires !cause.ByReplace? && !cause.ByTimeout?
    ensures OnEvidence(w, DeprovisionAll(w, victims, at, f, cause).0, conns, at)
  {
    if victims != [] {
      var init, id := victims[..|victims| - 1], victims[|victims| - 1].id;
      var x := DeprovisionAll(w, init, at, f, cause).0;
      AllOnEvidence(w, init, at, f, cause, conns);
      OneOnEvidence(x, id, id, at, f, cause, conns);
      EvidenceThen(w, x, DeprovisionOne(x, id, id, at, f, cause).0, conns, at);
    }
  }

  lemma ScaleOnEvidence(p: Policy, w: World, conns: seq<Conn>, load: Load, at: int, f: Faults)
    ensures OnEvidence(w, ScalePhase(p, w, conns, load, at, f), conns, at)
  {
    var d := ScaleDecision(p, w, conns, load, at);
    var v := ScalePhase(p, w, conns, load, at, f);
    if d.count >= 0 && d.direction == Up {
      ManyOnEvidence(w, at, f, d.count, conns);
      EvidenceThen(w, ProvisionMany(w, at, f, d.count).0, v, conns, at);
    } else if d.count >= 0 && d.direction == Down {
      var victims := PickVictims(p, w.mem, conns, d.count, at);
      AllOnEvidence(w, victims, at, f, ByScaleDown, conns);
      EvidenceThen(w, DeprovisionAll(w, victims, at, f, ByScaleDown).0, v, conns, at);
    }
  }

  lemma TurnOnEvidence(p: Policy, w: World, conns: seq<Conn>, o: Id, at: int, f: Faults)
    requires o in w.mem.pending
    ensures OnEvidence(w, AdvanceReplace(p, w, conns, o, at, f), conns, at)
  {
    var n := w.mem.pending[o].newId;
    if o in Ids(conns) && n in HealthyIds(conns) {
      OneOnEvidence(w, o, o, at, f, ByReplace(n), conns);
    } else if o in Ids(conns) && n in Ids(conns) {
      OneOnEvidence(w, n, o, at, f, ByTimeout(o), conns);
    }
  }

  lemma {:induction false} TurnsOnEvidence(p: Policy, w: World, conns: seq<Conn>, keys: seq<Id>, at: int, f: Faults)
    ensures OnEvidence(w, AdvanceReplaces(p, w, conns, keys, at, f), conns, at)
  {
    if keys != [] {
      var init, o := keys[..|keys| - 1], keys[|keys| - 1];
      var x := AdvanceReplaces(p, w, conns, init, at, f);
      TurnsOnEvidence(p, w, conns, init, at, f);
      if o in x.mem.pending {
        TurnOnEvidence(p, x, conns, o, at, f);
        EvidenceThen(w, x, AdvanceReplace(p, x, conns, o, at, f), conns, at);
      }
    }
  }

  lemma {:induction false} RemediesOnEvidence(w: World, actions: seq<HealthAction>, at: int, f: Faults,
                                              conns: seq<Conn>)
    ensures OnEvidence(w, RemediateAll(w, actions, at, f), conns, at)
  {
    if actions != [] {
      var x := RemediateAll(w, actions[..|actions| - 1], at, f);
      RemediesOnEvidence(w, actions[..|actions| - 1], at, f, conns);
      assert OnEvidence(x, Remediate(x, actions[|actions| - 1], at, f), conns, at);
      EvidenceThen(w, x, Remediate(x, actions[|actions| - 1], at, f), conns, at);
    }
  }

  /** A deletion made to end a replace. */
  predicate EndsReplace(e: Event) { e.Deleted? && (e.cause.ByReplace? || e.cause.ByTimeout?) }

  /** It retires a connector for a replacement that these reports show serving, or, for a timeout, takes away a
      replacement that they do not. */
  ghost predicate OnReports(e: Event, at: int, reports: seq<Conn>) {
    && e.Deleted? && e.at == at
    && (e.cause.ByReplace? ==> ReportedServing(reports, e.cause.newId))
    && (e.cause.ByTimeout? ==> !ReportedServing(reports, e.id))
  }

  ghost predicate AllOnReports(before: seq<Event>, after: seq<Event>, at: int, reports: seq<Conn>) {
    && before <= after
    && forall k :: |before| <= k < |after| && EndsReplace(after[k]) ==> OnReports(after[k], at, reports)
  }

  lemma CycleOnEvidence(p: Policy, w: World, at: int, reports: seq<Conn>, load: Load, f: Faults)
    ensures OnEvidence(SeenWorld(w, at, reports), CycleStep(p, w, at, reports, load, f), ActiveOf(w, reports), at)
  {
    var (conns, seen) := (ActiveOf(w, reports), SeenWorld(w, at, reports));
    var scaled := ScalePhase(p, seen, conns, load, at, f);
    var x := ReplacePhase(p, scaled, conns, at, f);
    ScaleOnEvidence(p, seen, conns, load, at, f);
    TurnsOnEvidence(p, scaled, conns, scaled.mem.order, at, f);
    RemediesOnEvidence(x, HealthPlan(p, x, conns, at), at, f, conns);
    EvidenceThen(seen, scaled, x, conns, at);
    EvidenceThen(seen, x, RemediateAll(x, HealthPlan(p, x, conns, at), at, f), conns, at);
  }

  /** In any cycle a connector is retired for its replacement only on a report of that replacement alive and not
      failing its health check, and a replacement is given up only without one. */
  lemma EndedOnReports(p: Policy, w: World, at: int, reports: seq<Conn>, load: Load, f: Faults)
    requires Accurate(w, reports)
    ensures AllOnReports(w.trace, CycleStep(p, w, at, reports, load, f).trace, at, reports)
  {
    var v := CycleStep(p, w, at, reports, load, f);
    CycleOnEvidence(p, w, at, reports, load, f);
    ActiveOfExact(w, reports);
    forall k | |w.trace| <= k < |v.trace| && EndsReplace(v.trace[k])
      ensures OnReports(v.trace[k], at, reports)
    {
      if v.trace[k].cause.ByReplace? {
        ServingExact(w, reports, v.trace[k].cause.newId);
      } else {
        ServingExact(w, reports, v.trace[k].id);
      }
    }
  }

  // --- runs ------------------------------------------------------------------------------------

  /** What the cycle's discovery leaves behind. */
  ghost predicate Sees(s: Sighting, at: int, reports: seq<Conn>) {
    && s.at == at && s.present == Ids(reports)
    && (forall id :: id in s.unhealthy <==> ReportedIll(reports, id))
    && (forall id :: id in s.healthy <==> ReportedServing(reports, id))
  }

  lemma LookSees(w: World, at: int, reports: seq<Conn>)
    requires Accurate(w, reports)
    ensures var seen := SeenWorld(w, at, reports).sightings;
            |seen| == |w.sightings| + 1 && w.sightings <= seen && Sees(seen[|w.sightings|], at, reports)
  {
    DiscoverExact(reports, w.store.cordons);
    forall id
      ensures id in UnhealthyIds(FleetOf(w, reports)) <==> ReportedIll(reports, id)
      ensures id in HealthyIds(FleetOf(w, reports)) <==> ReportedServing(reports, id)
    {
      IllExact(w, reports, id);
      ServingExact(w, reports, id);
    }
  }

  /** Only cycles end replaces. */
  ghost predicate EndsBy(before: seq<Event>, after: seq<Event>, s: Step) {
    && before <= after
    && forall k :: |before| <= k < |after| && EndsReplace(after[k]) ==>
                     s.Cycle? && OnReports(after[k], s.at, s.reports)
  }

  /** Only cycles discover. */
  ghost predicate SeenBy(before: seq<Sighting>, after: seq<Sighting>, s: Step) {
    && before <= after
    && forall k :: |before| <= k < |after| ==> s.Cycle? && Sees(after[k], s.at, s.reports)
  }

  ghost predicate Discovers(w: World, v: World, s: Step) {
    EndsBy(w.trace, v.trace, s) && SeenBy(w.sightings, v.sightings, s)
  }

  /** Events that end no replace, and no discovery. */
  lemma NoneDiscovered(w: World, v: World, s: Step)
    requires w.trace <= v.trace && v.sightings == w.sightings
    requires forall k :: |w.trace| <= k < |v.trace| ==> !EndsReplace(v.trace[k])
    ensures Discovers(w, v, s)
  {
  }

  lemma HandUpDiscovers(p: Policy, w: World, at: int, reports: seq<Conn>, f: Faults, s: Step)
    ensures Discovers(w, ManualUp(p, w, at, reports, f).0, s)
  {
    NoneDiscovered(w, ManualUp(p, w, at, reports, f).0, s);
  }

  lemma HandDownDiscovers(p: Policy, w: World, at: int, reports: seq<Conn>, f: Faults, s: Step)
    ensures Discovers(w, ManualDown(p, w, at, reports, f).0, s)
  {
    NoneDiscovered(w, ManualDown(p, w, at, reports, f).0, s);
  }

  lemma HandReplaceDiscovers(w: World, id: Id, at: int, reports: seq<Conn>, f: Faults, s: Step)
    ensures Discovers(w, ManualReplace(w, id, at, reports, f).0, s)
  {
    NoneDiscovered(w, ManualReplace(w, id, at, reports, f).0, s);
  }

  lemma TeardownDiscovers(w: World, at: int, reports: seq<Conn>, f: Faults, s: Step)
    ensures Discovers(w, TeardownStart(w, at, reports, f).0, s)
  {
    AllOnEvidence(w, ActiveOf(w, reports), at, f, ByTeardown, []);
    NoneDiscovered(w, TeardownStart(w, at, reports, f).0, s);
  }

  lemma FromTick(w: World, at: int, v: World, s: Step)
    requires Discovers(Tick(w, at), v, s)
    ensures Discovers(w, v, s)
  {
  }

  lemma PlainDiscovers(p: Policy, w: World, s: Step)
    requires Enabled(p, w, s)
    requires s.FailedDiscovery? || s.DrainTail? || s.CordonByHand? || s.ManagerRestart?
    ensures Discovers(w, Apply(p, w, s), s)
  {
    NoneDiscovered(w, Apply(p, w, s), s);
  }

  lemma OtherDiscovers(p: Policy, w: World, s: Step)
    requires Enabled(p, w, s) && !s.Cycle?
    ensures Discovers(w, Apply(p, w, s), s)
  {
    var now := Tick(w, s.at);
    if s.ScaleUpByHand? {
      HandUpDiscovers(p, now, s.at, s.reports, s.faults, s);
      FromTick(w, s.at, Apply(p, w, s), s);
    } else if s.ScaleDownByHand? {
      HandDownDiscovers(p, now, s.at, s.reports, s.faults, s);
      FromTick(w, s.at, Apply(p, w, s), s);
    } else if s.ReplaceByHand? {
      HandReplaceDiscovers(now, s.id, s.at, s.reports, s.faults, s);
      FromTick(w, s.at, Apply(p, w, s), s);
    } else if s.Teardown? {
      TeardownDiscovers(now, s.at, s.reports, s.faults, s);
      FromTick(w, s.at, Apply(p, w, s), s);
    } else {
      PlainDiscovers(p, w, s);
    }
  }

  lemma CycleDiscovers(p: Policy, w: World, at: int, reports: seq<Conn>, load: Load, f: Faults)
    requires Accurate(w, reports)
    ensures Discovers(w, CycleStep(p, w, at, reports, load, f), Cycle(at, reports, load, f))
  {
    EndedOnReports(p, w, at, reports, load, f);
    LookSees(w, at, reports);
    CycleOnEvidence(p, w, at, reports, load, f);
  }

  lemma StepDiscovers(p: Policy, w: World, s: Step)
    requires Enabled(p, w, s)
    ensures Discovers(w, Apply(p, w, s), s)
  {
    if s.Cycle? {
      CycleDiscovers(p, w, s.at, s.reports, s.load, s.faults);
    } else {
      OtherDiscovers(p, w, s);
    }
  }

  /** The new deletions of one step. */
  lemma NewEnd(p: Policy, w: World, s: Step, j: nat)
    requires Enabled(p, w, s) && |w.trace| <= j < |Apply(p, w, s).trace| && EndsReplace(Apply(p, w, s).trace[j])
    ensures s.Cycle? && OnReports(Apply(p, w, s).trace[j], s.at, s.reports)
  {
    StepDiscovers(p, w, s);
  }

  lemma OldTrace(p: Policy, w: World, s: Step)
    requires Enabled(p, w, s)
    ensures w.trace <= Apply(p, w, s).trace
  {
    StepDiscovers(p, w, s);
  }

  /** In every run each deletion that ends a replace was made by a cycle whose own reports warrant it: a retirement
      on a report of the replacement alive and not failing its health check, a timeout without one. */
  lemma {:induction false} EndsWarranted(p: Policy, ws: seq<World>, steps: seq<Step>, i: nat, j: nat) returns (k: nat)
    requires Run(p, ws, steps) && Initial(ws[0]) && i <= |steps| && j < |ws[i].trace| && EndsReplace(ws[i].trace[j])
    ensures k < i && steps[k].Cycle? && OnReports(ws[i].trace[j], steps[k].at, steps[k].reports)
  {
    k := i;
    assert ws[0].trace == [Adopted(ws[0].cloud.containers)];
    if i > 0 {
      OldTrace(p, ws[i - 1], steps[i - 1]);
      if j < |ws[i - 1].trace| {
        k := EndsWarranted(p, ws, steps, i - 1, j);
      } else {
        NewEnd(p, ws[i - 1], steps[i - 1], j);
        k := i - 1;
      }
    }
  }

  /** The new sightings of one step. */
  lemma NewSighting(p: Policy, w: World, s: Step, j: nat)
    requires Enabled(p, w, s) && |w.sightings| <= j < |Apply(p, w, s).sightings|
    ensures s.Cycle? && Sees(Apply(p, w, s).sightings[j], s.at, s.reports)
  {
    StepDiscovers(p, w, s);
    var last := Apply(p, w, s).sightings[j];
    assert Sees(last, s.at, s.reports);
  }

  lemma OldSighting(p: Policy, w: World, s: Step)
    requires Enabled(p, w, s)
    ensures w.sightings <= Apply(p, w, s).sightings
  {
    StepDiscovers(p, w, s);
  }

  /** Every recorded discovery is that of a cycle, and shows as present, unhealthy and healthy exactly those that its
      reports do. */
  lemma {:induction false} SightingsAreReports(p: Policy, ws: seq<World>, steps: seq<Step>, i: nat, j: nat)
    returns (k: nat)
    requires Run(p, ws, steps) && Initial(ws[0]) && i <= |steps| && j < |ws[i].sightings|
    ensures k < i && steps[k].Cycle? && Sees(ws[i].sightings[j], steps[k].at, steps[k].reports)
  {
    k := i;
    if i > 0 {
      OldSighting(p, ws[i - 1], steps[i - 1]);
      if j < |ws[i - 1].sightings| {
        k := SightingsAreReports(p, ws, steps, i - 1, j);
      } else {
        NewSighting(p, ws[i - 1], steps[i - 1], j);
        k := i - 1;
      }
    }
  }

  // --- who is remediated -------------------------------------------------------------------------

  /** A replace of `id` is in flight and goes on: its replacement is reported serving or has time left, and it does
      not complete in this cycle. */
  ghost predicate GoesOn(p: Policy, w: World, at: int, reports: seq<Conn>, f: Faults, id: Id) {
    && id in w.mem.pending && !WillSwitch(p, w, at, reports, f, id)
    && var n := w.mem.pending[id].newId;
       || (ReportedServing(reports, n) && n !in w.mem.draining)
       || at - w.mem.pending[id].startedAt < p.replaceTimeout
  }

  lemma GoesOnExact(p: Policy, w: World, at: int, reports: seq<Conn>, f: Faults, id: Id)
    requires Accurate(w, reports) && id in Ids(ActiveOf(w, reports))
    ensures Shielded(p, w, at, reports, f, id) <==> GoesOn(p, w, at, reports, f, id)
  {
    SwitchExact(p, w, at, reports, f, id);
    if id in w.mem.pending {
      ServingExact(w, reports, w.mem.pending[id].newId);
    }
  }

  /** The time kept for `id`, or the present if there is none yet. */
  function KeptOr(timers: map<Id, int>, id: Id, at: int): int { if id in timers then timers[id] else at }

  /** The gates of the cycle, in the fields of the report and the timers kept so far. */
  ghost predicate OpenOnReport(p: Policy, w: World, c: Conn, at: int) {
    && c.id !in w.store.cordons && ReportsIll(c)
    && !ComingUp(p, c, Some(KeptOr(w.mem.firstSeen, c.id, at)), at)
    && (p.unhealthyThreshold > 0 ==> at - KeptOr(w.mem.firstUnhealthy, c.id, at) >= p.unhealthyThreshold)
  }

  lemma OpenExact(p: Policy, w: World, at: int, reports: seq<Conn>, c: Conn)
    requires p.Valid() && Accurate(w, reports) && c in reports
    ensures Remediable(p, Marked(w, c), GatesNow(w, reports, at), at) <==> OpenOnReport(p, w, c, at)
  {
    var g := GatesNow(w, reports, at);
    RemediableExact(p, Marked(w, c), g, at);
    DiscoverExact(reports, w.store.cordons);
    assert c.id in Ids(FleetOf(w, reports));
    IllExact(w, reports, c.id);
    if ReportsIll(c) {
      assert ReportedIll(reports, c.id);
    }
  }

  /** Whether the restart budget of `id` is spent at `at`. */
  ghost predicate Spent(p: Policy, w: World, id: Id, at: int) {
    CountRestarts(w.store.history, id, at - p.restartWindow) >= p.maxRestarts
  }

  lemma SpentOnReport(p: Policy, w: World, at: int, reports: seq<Conn>, c: Conn)
    requires p.Valid() && Accurate(w, reports) && c in reports
    ensures BudgetSpent(p, w, GatesNow(w, reports, at), Marked(w, c), at) <==>
            OpenOnReport(p, w, c, at) && Spent(p, w, c.id, at)
  {
    OpenExact(p, w, at, reports, c);
  }

  /** What a cycle does for the health of a reported connector that is not in mid-drain, in the fields of its
      report: with no replace of it going on, its gates open and its budget left it is restarted, and with its
      budget spent a replace of it begins unless the create attempt for the replacement fails. Otherwise neither. */
  lemma RemediedOnReport(p: Policy, w: World, at: int, reports: seq<Conn>, load: Load, f: Faults, c: Conn)
    requires p.Valid() && Sound(w) && Accurate(w, reports) && c in reports && c.id !in w.mem.draining
    ensures var v := CycleStep(p, w, at, reports, load, f);
            var due := !GoesOn(p, w, at, reports, f, c.id) && OpenOnReport(p, w, c, at);
            && (RestartTried(w.store.history, v.store.history, c.id, at) <==> due && !Spent(p, w, c.id, at))
            && (Began(w.trace, v.trace, c.id) <==>
                  && due && Spent(p, w, c.id, at)
                  && AttemptFor(p, w, at, reports, load, f, Marked(w, c)) !in f.provision)
  {
    ListedReport(w, reports, c);
    GoesOnExact(p, w, at, reports, f, c.id);
    OpenExact(p, w, at, reports, c);
    SpentOnReport(p, w, at, reports, c);
    RemedyExact(p, w, at, reports, load, f, Marked(w, c));
  }
}
