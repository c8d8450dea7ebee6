/** What one cycle does for the health of each connector on its list, in terms of the world the cycle began in:
    who is restarted, who is replaced, and whom a replace in flight shields. */
module Remedies {
  import opened Basics
  import opened Policies
  import opened Decider
  import opened Fleet
  import opened Effects
  import opened Steps
  import opened Completions

  /** The gates of this cycle's health pass for a connector that no replace shields. */
  function GatesNow(w: World, reports: seq<Conn>, at: int): Gates {
    Gates(Timers(w.mem.firstSeen, Ids(FleetOf(w, reports)), at),
          Timers(w.mem.firstUnhealthy, UnhealthyIds(FleetOf(w, reports)), at), {})
  }

  /** `c` is due for a replace as soon as no replace is pending for it. */
  ghost predicate BudgetSpent(p: Policy, w: World, g: Gates, c: Conn, at: int) {
    && Remediable(p, c, g, at)
    && CountRestarts(w.store.history, c.id, at - p.restartWindow) >= p.maxRestarts
  }

  // --- what the record of a cycle shows -------------------------------------------

  /** A health-driven replace of `id` began between the two. */
  ghost predicate Began(before: seq<Event>, after: seq<Event>, id: Id) {
    exists k :: |before| <= k < |after| && after[k].ReplaceBegun? && after[k].id == id && !after[k].manual
  }

  /** A restart of `id` was attempted at `at`. */
  ghost predicate RestartTried(before: seq<Row>, after: seq<Row>, id: Id, at: int) {
    exists k :: |before| <= k < |after| && after[k].action == Restart && after[k].id == Some(id) && after[k].at == at
  }

  // --- the phases before remediation ---------------------------------------------------

  /** From `w` to `v` the timers stand, nobody is restarted, no replace begins, and whoever loses its routing
      is draining. */
  ghost predicate Prelude(w: World, v: World) {
    && v.mem.firstSeen == w.mem.firstSeen && v.mem.firstUnhealthy == w.mem.firstUnhealthy
    && w.mem.draining.Keys <= v.mem.draining.Keys
    && w.trace <= v.trace && w.store.history <= v.store.history
    && (forall k :: |w.trace| <= k < |v.trace| ==>
          !v.trace[k].ReplaceBegun? && (v.trace[k].Deleted? ==> v.trace[k].id in v.mem.draining))
    && (forall k :: |w.store.history| <= k < |v.store.history| ==> v.store.history[k].action != Restart)
  }

  lemma PreludeThen(w: World, x: World, v: World)
    requires Prelude(w, x) && Prelude(x, v)
    ensures Prelude(w, v)
  {
  }

  lemma {:induction false} PreludeCounts(history: seq<Row>, longer: seq<Row>, id: Id, since: int)
    requires history <= longer
    requires forall k :: |history| <= k < |longer| ==> longer[k].action != Restart
    ensures CountRestarts(longer, id, since) == CountRestarts(history, id, since)
  {
    if |history| == |longer| {
      assert history == longer;
    } else {
      PreludeCounts(history, longer[..|longer| - 1], id, since);
    }
  }

  lemma GrowPrelude(w: World, at: int, f: Faults)
    ensures Prelude(w, ProvisionOne(w, at, f).0)
  {
  }

  lemma DrainPrelude(w: World, id: Id, subject: Id, at: int, f: Faults, cause: Cause)
    ensures Prelude(w, DeprovisionOne(w, id, subject, at, f, cause).0)
  {
  }

  lemma {:induction false} ManyPrelude(w: World, at: int, f: Faults, k: nat)
    ensures Prelude(w, ProvisionMany(w, at, f, k).0)
  {
    if k > 0 {
      var before := ProvisionMany(w, at, f, k - 1).0;
      ManyPrelude(w, at, f, k - 1);
      GrowPrelude(before, at, f);
      PreludeThen(w, before, ProvisionMany(w, at, f, k).0);
    }
  }

  lemma {:induction false} AllPrelude(w: World, victims: seq<Conn>, at: int, f: Faults, cause: Cause)
    ensures Prelude(w, DeprovisionAll(w, victims, at, f, cause).0)
  {
    if victims != [] {
      var (init, id) := (victims[..|victims| - 1], victims[|victims| - 1].id);
      var before := DeprovisionAll(w, init, at, f, cause).0;
      AllPrelude(w, init, at, f, cause);
      DrainPrelude(before, id, id, at, f, cause);
      PreludeThen(w, before, DeprovisionAll(w, victims, at, f, cause).0);
    }
  }

  lemma ScalePrelude(p: Policy, w: World, conns: seq<Conn>, load: Load, at: int, f: Faults)
    ensures Prelude(w, ScalePhase(p, w, conns, load, at, f))
  {
    var d := ScaleDecision(p, w, conns, load, at);
    if d.count >= 0 && d.direction == Up {
      var v := ProvisionMany(w, at, f, d.count).0;
      ManyPrelude(w, at, f, d.count);
      PreludeThen(w, v, ActScale(p, w, d, conns, at, f));
    } else if d.count >= 0 && d.direction == Down {
      var victims := PickVictims(p, w.mem, conns, d.count, at);
      AllPrelude(w, victims, at, f, ByScaleDown);
      PreludeThen(w, DeprovisionAll(w, victims, at, f, ByScaleDown).0, ActScale(p, w, d, conns, at, f));
    }
  }

  lemma AdvancePrelude(p: Policy, w: World, conns: seq<Conn>, o: Id, at: int, f: Faults)
    requires o in w.mem.pending
    ensures Prelude(w, AdvanceReplace(p, w, conns, o, at, f))
  {
    var n := w.mem.pending[o].newId;
    if o in Ids(conns) && n in HealthyIds(conns) {
      DrainPrelude(w, o, o, at, f, ByReplace(n));
      PreludeThen(w, DeprovisionOne(w, o, o, at, f, ByReplace(n)).0, AdvanceReplace(p, w, conns, o, at, f));
    } else if o in Ids(conns) {
      DrainPrelude(w, n, o, at, f, ByTimeout(o));
    }
  }

  lemma {:induction false} AdvancesPrelude(p: Policy, w: World, conns: seq<Conn>, keys: seq<Id>, at: int, f: Faults)
    ensures Prelude(w, AdvanceReplaces(p, w, conns, keys, at, f))
  {
    if keys != [] {
      var init, o := keys[..|keys| - 1], keys[|keys| - 1];
      var before := AdvanceReplaces(p, w, conns, init, at, f);
      AdvancesPrelude(p, w, conns, init, at, f);
      if o in before.mem.pending {
        AdvancePrelude(p, before, conns, o, at, f);
        PreludeThen(w, before, AdvanceReplace(p, before, conns, o, at, f));
      }
    }
  }

  // --- one pending replace in the replace phase -----------------------------------------

  /** The replace of `id` neither gives up in this cycle nor finds its old connector gone. */
  ghost predicate StillWaiting(p: Policy, w: World, conns: seq<Conn>, id: Id, at: int) {
    && id in w.mem.pending
    && (w.mem.pending[id].newId in HealthyIds(conns) || at - w.mem.pending[id].startedAt < p.replaceTimeout)
  }

  /** Where the replace of `id` stands, before and after its turn. */
  ghost predicate Turn(p: Policy, w: World, v: World, conns: seq<Conn>, id: Id, at: int, taken: bool) {
    && w.trace <= v.trace
    && (id in v.mem.pending ==> id in w.mem.pending && v.mem.pending[id] == w.mem.pending[id])
    && (if taken then id in v.mem.pending <==> StillWaiting(p, w, conns, id, at) && !Completed(w.trace, v.trace, id)
        else !Completed(w.trace, v.trace, id) && (id in v.mem.pending <==> id in w.mem.pending))
  }

  lemma OtherTurn(p: Policy, w: World, v: World, conns: seq<Conn>, o: Id, at: int, f: Faults, id: Id, taken: bool)
    requires Turn(p, w, v, conns, id, at, taken) && o in v.mem.pending && o != id
    ensures Turn(p, w, AdvanceReplace(p, v, conns, o, at, f), conns, id, at, taken)
  {
    var x := AdvanceReplace(p, v, conns, o, at, f);
    assert v.trace <= x.trace && !Completed(v.trace, x.trace, id);
    CompletedThen(w.trace, v.trace, x.trace, id);
  }

  lemma OwnTurn(p: Policy, w: World, v: World, conns: seq<Conn>, at: int, f: Faults, id: Id)
    requires Turn(p, w, v, conns, id, at, false) && id in v.mem.pending && id in Ids(conns)
    ensures Turn(p, w, AdvanceReplace(p, v, conns, id, at, f), conns, id, at, true)
  {
    var x := AdvanceReplace(p, v, conns, id, at, f);
    CompletedThen(w.trace, v.trace, x.trace, id);
    if id !in x.mem.pending && v.mem.pending[id].newId in HealthyIds(conns) {
      assert x.trace[|v.trace|] == Deleted(id, at, ByReplace(v.mem.pending[id].newId));
    } else {
      assert !Completed(v.trace, x.trace, id);
    }
  }

  lemma {:induction false} AdvancesTurn(p: Policy, w: World, conns: seq<Conn>, keys: seq<Id>, at: int, f: Faults,
                                        id: Id)
    requires Distinct(keys) && id in Ids(conns)
    ensures Turn(p, w, AdvanceReplaces(p, w, conns, keys, at, f), conns, id, at, id in keys)
  {
    if keys != [] {
      var init, o := keys[..|keys| - 1], keys[|keys| - 1];
      assert keys == init + [o];
      AdvancesTurn(p, w, conns, init, at, f, id);
      var before := AdvanceReplaces(p, w, conns, init, at, f);
      if o in before.mem.pending {
        if o == id {
          OwnTurn(p, w, before, conns, at, f, id);
        } else {
          OtherTurn(p, w, before, conns, o, at, f, id, id in init);
        }
      }
    }
  }

  /** After the replace phase a listed connector is still shielded exactly when its replace was still waiting
      and did not complete. */
  lemma ReplaceTurn(p: Policy, w: World, conns: seq<Conn>, at: int, f: Faults, id: Id)
    requires OrderOk(w) && id in Ids(conns)
    ensures var v := ReplacePhase(p, w, conns, at, f);
            id in v.mem.pending <==> StillWaiting(p, w, conns, id, at) && !Completed(w.trace, v.trace, id)
  {
    AdvancesTurn(p, w, conns, w.mem.order, at, f, id);
  }

  // --- remediation --------------------------------------------------------------------------

  /** How many replaces the actions try to begin. */
  function Replacements(actions: seq<HealthAction>): nat {
    if actions == [] then 0
    else Replacements(actions[..|actions| - 1]) + if actions[|actions| - 1].kind == ReplaceNew then 1 else 0
  }

  /** A replace of `id` is among the actions and its create attempt works, the first attempt of all being number
      `first`. */
  ghost predicate Starts(first: Id, actions: seq<HealthAction>, f: Faults, id: Id) {
    actions != [] &&
    var init := actions[..|actions| - 1];
    || Starts(first, init, f, id)
    || (actions[|actions| - 1] == HealthAction(id, ReplaceNew) && first + Replacements(init) !in f.provision)
  }

  /** From `w` to `v` the actions were performed, as far as `id` is concerned. */
  ghost predicate Remedied(w: World, v: World, actions: seq<HealthAction>, at: int, f: Faults, id: Id) {
    && w.trace <= v.trace && w.store.history <= v.store.history && v.mem.draining == w.mem.draining
    && v.cloud.nextId == w.cloud.nextId + Replacements(actions)
    && !RoutingStopped(w.trace, v.trace, id)
    && (RestartTried(w.store.history, v.store.history, id, at) <==> HealthAction(id, RestartInPlace) in actions)
    && (Began(w.trace, v.trace, id) <==> Starts(w.cloud.nextId, actions, f, id))
    && (id in v.mem.pending <==> id in w.mem.pending || Starts(w.cloud.nextId, actions, f, id))
  }

  lemma ActionsMore(first: Id, actions: seq<HealthAction>, a: HealthAction, f: Faults, id: Id)
    ensures Replacements(actions + [a]) == Replacements(actions) + if a.kind == ReplaceNew then 1 else 0
    ensures Starts(first, actions + [a], f, id) <==>
            || Starts(first, actions, f, id)
            || (a == HealthAction(id, ReplaceNew) && first + Replacements(actions) !in f.provision)
  {
    assert (actions + [a])[..|actions|] == actions;
  }

  /** What one action does, as far as `id` is concerned. */
  ghost predicate Acted(x: World, v: World, a: HealthAction, at: int, f: Faults, id: Id) {
    && x.trace <= v.trace && x.store.history <= v.store.history && v.mem.draining == x.mem.draining
    && v.cloud.nextId == x.cloud.nextId + (if a.kind == ReplaceNew then 1 else 0)
    && !RoutingStopped(x.trace, v.trace, id)
    && (RestartTried(x.store.history, v.store.history, id, at) <==> a == HealthAction(id, RestartInPlace))
    && (Began(x.trace, v.trace, id) <==> a == HealthAction(id, ReplaceNew) && x.cloud.nextId !in f.provision)
    && (id in v.mem.pending <==>
          id in x.mem.pending || (a == HealthAction(id, ReplaceNew) && x.cloud.nextId !in f.provision))
  }

  lemma ActionActs(x: World, a: HealthAction, at: int, f: Faults, id: Id)
    ensures Acted(x, Remediate(x, a, at, f), a, at, f, id)
  {
    if a.kind == RestartInPlace {
      RestartNext(x, a.id, at, f, id);
    } else {
      BeginNext(x, a.id, at, f, id);
    }
  }

  lemma RemedyNext(w: World, x: World, v: World, actions: seq<HealthAction>, a: HealthAction, at: int, f: Faults,
                   id: Id)
    requires Remedied(w, x, actions, at, f, id) && Acted(x, v, a, at, f, id)
    ensures Remedied(w, v, actions + [a], at, f, id)
  {
    RecordsThen(w, x, v, id, at);
    ActionsMore(w.cloud.nextId, actions, a, f, id);
  }

  lemma RestartNext(x: World, target: Id, at: int, f: Faults, id: Id)
    ensures var v := Remediate(x, HealthAction(target, RestartInPlace), at, f);
            && (RestartTried(x.store.history, v.store.history, id, at) <==> target == id)
            && v.trace == x.trace && v.mem == x.mem && v.cloud == x.cloud
  {
    var v := Remediate(x, HealthAction(target, RestartInPlace), at, f);
    assert v.store.history[|x.store.history|] == Row(at, Restart, Some(target), target !in f.restart);
  }

  lemma BeginNext(x: World, target: Id, at: int, f: Faults, id: Id)
    ensures var v := BeginReplace(x, target, at, f, false).0;
            && !RestartTried(x.store.history, v.store.history, id, at) && v.mem.draining == x.mem.draining
            && !RoutingStopped(x.trace, v.trace, id) && v.cloud.nextId == x.cloud.nextId + 1
            && (Began(x.trace, v.trace, id) <==> target == id && x.cloud.nextId !in f.provision)
            && (id in v.mem.pending <==> id in x.mem.pending || (target == id && x.cloud.nextId !in f.provision))
  {
    var (v, ok) := BeginReplace(x, target, at, f, false);
    if ok {
      assert v.trace[|v.trace| - 1] == ReplaceBegun(target, x.cloud.nextId, at, false);
    }
  }

  /** What the record shows over two stretches. */
  lemma RecordsThen(w: World, x: World, v: World, id: Id, at: int)
    requires w.trace <= x.trace <= v.trace && w.store.history <= x.store.history <= v.store.history
    ensures Began(w.trace, v.trace, id) <==> Began(w.trace, x.trace, id) || Began(x.trace, v.trace, id)
    ensures RoutingStopped(w.trace, v.trace, id) <==>
              RoutingStopped(w.trace, x.trace, id) || RoutingStopped(x.trace, v.trace, id)
    ensures RestartTried(w.store.history, v.store.history, id, at) <==>
              || RestartTried(w.store.history, x.store.history, id, at)
              || RestartTried(x.store.history, v.store.history, id, at)
  {
    assert forall k :: 0 <= k < |x.trace| ==> v.trace[k] == x.trace[k];
    assert forall k :: 0 <= k < |x.store.history| ==> v.store.history[k] == x.store.history[k];
  }

  lemma {:induction false} AllRemedied(w: World, actions: seq<HealthAction>, at: int, f: Faults, id: Id)
    ensures Remedied(w, RemediateAll(w, actions, at, f), actions, at, f, id)
  {
    if actions != [] {
      var init, a := actions[..|actions| - 1], actions[|actions| - 1];
      AllRemedied(w, init, at, f, id);
      var before := RemediateAll(w, init, at, f);
      ActionActs(before, a, at, f, id);
      RemedyNext(w, before, Remediate(before, a, at, f), init, a, at, f, id);
      assert actions == init + [a];
    }
  }

  // --- the plan --------------------------------------------------------------------------------

  /** The part of the list before `id`. */
  function Ahead(conns: seq<Conn>, id: Id): seq<Conn> {
    if conns == [] then []
    else if conns[|conns| - 1].id == id then conns[..|conns| - 1]
    else Ahead(conns[..|conns| - 1], id)
  }

  lemma VerdictStarts(first: Id, before: seq<HealthAction>, verdict: seq<HealthAction>, f: Faults, id: Id)
    requires |verdict| <= 1
    ensures Replacements(before + verdict) ==
            Replacements(before) + if verdict != [] && verdict[0].kind == ReplaceNew then 1 else 0
    ensures Starts(first, before + verdict, f, id) <==>
            || Starts(first, before, f, id)
            || (verdict == [HealthAction(id, ReplaceNew)] && first + Replacements(before) !in f.provision)
  {
    if verdict == [] {
      assert before + verdict == before;
    } else {
      assert verdict == [verdict[0]];
      ActionsMore(first, before, verdict[0], f, id);
    }
  }

  lemma {:induction false} NoneForAbsent(p: Policy, conns: seq<Conn>, counts: map<Id, nat>, g: Gates, at: int,
                                         first: Id, f: Faults, id: Id)
    requires id !in Ids(conns)
    ensures !Starts(first, HealthActions(p, conns, counts, g, at), f, id)
  {
    if conns != [] {
      var init, last := conns[..|conns| - 1], conns[|conns| - 1];
      assert last in conns && last.id != id;
      NoneForAbsent(p, init, counts, g, at, first, f, id);
      VerdictStarts(first, HealthActions(p, init, counts, g, at), Verdict(p, last, counts, g, at), f, id);
    }
  }

  lemma LastApart(conns: seq<Conn>, c: Conn)
    requires DistinctIds(conns) && c in conns
    ensures var init, last := conns[..|conns| - 1], conns[|conns| - 1];
            && DistinctIds(init) && last.id !in Ids(init) && (last == c || (c in init && last.id != c.id))
  {
    var i :| 0 <= i < |conns| && conns[i] == c;
    var init := conns[..|conns| - 1];
    assert forall j :: 0 <= j < |init| ==> init[j] == conns[j];
    if i < |init| {
      assert init[i] == c;
    }
  }

  /** The attempt for `id` in the plan for the list works. */
  ghost predicate PlannedStart(p: Policy, conns: seq<Conn>, counts: map<Id, nat>, g: Gates, at: int, first: Id,
                               f: Faults, c: Conn) {
    && Verdict(p, c, counts, g, at) == [HealthAction(c.id, ReplaceNew)]
    && first + Replacements(HealthActions(p, Ahead(conns, c.id), counts, g, at)) !in f.provision
  }

  /** The replace of `c` starts exactly when it is planned so. */
  ghost predicate StartsAsPlanned(p: Policy, conns: seq<Conn>, counts: map<Id, nat>, g: Gates, at: int, first: Id,
                                  f: Faults, c: Conn) {
    Starts(first, HealthActions(p, conns, counts, g, at), f, c.id) <==>
      PlannedStart(p, conns, counts, g, at, first, f, c)
  }

  lemma PlanLast(p: Policy, conns: seq<Conn>, counts: map<Id, nat>, g: Gates, at: int, first: Id, f: Faults)
    requires conns != [] && conns[|conns| - 1].id !in Ids(conns[..|conns| - 1])
    ensures StartsAsPlanned(p, conns, counts, g, at, first, f, conns[|conns| - 1])
  {
    var init, last := conns[..|conns| - 1], conns[|conns| - 1];
    NoneForAbsent(p, init, counts, g, at, first, f, last.id);
    VerdictStarts(first, HealthActions(p, init, counts, g, at), Verdict(p, last, counts, g, at), f, last.id);
  }

  lemma PlanEarlier(p: Policy, conns: seq<Conn>, counts: map<Id, nat>, g: Gates, at: int, first: Id, f: Faults, c: Conn)
    requires conns != [] && conns[|conns| - 1].id != c.id
    requires StartsAsPlanned(p, conns[..|conns| - 1], counts, g, at, first, f, c)
    ensures StartsAsPlanned(p, conns, counts, g, at, first, f, c)
  {
    var init, last := conns[..|conns| - 1], conns[|conns| - 1];
    VerdictStarts(first, HealthActions(p, init, counts, g, at), Verdict(p, last, counts, g, at), f, c.id);
    assert Ahead(conns, c.id) == Ahead(init, c.id);
  }

  /** A planned replace works exactly when its own create attempt does: the attempts are made in fleet order. */
  lemma {:induction false} PlanStarts(p: Policy, conns: seq<Conn>, counts: map<Id, nat>, g: Gates, at: int, first: Id,
                                      f: Faults, c: Conn)
    requires DistinctIds(conns) && c in conns
    ensures StartsAsPlanned(p, conns, counts, g, at, first, f, c)
  {
    LastApart(conns, c);
    if conns[|conns| - 1] == c {
      PlanLast(p, conns, counts, g, at, first, f);
    } else {
      PlanStarts(p, conns[..|conns| - 1], counts, g, at, first, f, c);
      PlanEarlier(p, conns, counts, g, at, first, f, c);
    }
  }

  /** The plan holds an action for a listed connector exactly when its gates are open, and which one follows
      its restart budget. */
  lemma PlanFor(p: Policy, w: World, conns: seq<Conn>, at: int, c: Conn, kind: Kind)
    requires DistinctIds(conns) && c in conns
    ensures HealthAction(c.id, kind) in HealthPlan(p, w, conns, at) <==>
            Remediable(p, c, GatesOf(w.mem), at)
            && (kind == ReplaceNew <==> CountRestarts(w.store.history, c.id, at - p.restartWindow) >= p.maxRestarts)
  {
    var counts, g := RestartCounts(p, w.store.history, conns, at), GatesOf(w.mem);
    var plan := HealthPlan(p, w, conns, at);
    ActionsJustified(p, conns, counts, g, at);
    assert !c.cordoned ==> CountOf(counts, c.id) == CountRestarts(w.store.history, c.id, at - p.restartWindow);
    if HealthAction(c.id, kind) in plan {
      assert Justified(p, conns, counts, g, at, HealthAction(c.id, kind));
    }
    if Remediable(p, c, g, at) {
      NoneOverlooked(p, conns, counts, g, at, c);
      var a :| a in plan && a.id == c.id;
      assert Justified(p, conns, counts, g, at, a);
      assert a == HealthAction(c.id, a.kind);
    }
  }

  // --- the whole cycle ------------------------------------------------------------------------

  /** A replace in flight shields `id` from remediation: it still waits, and does not complete in this cycle. */
  ghost predicate Shielded(p: Policy, w: World, at: int, reports: seq<Conn>, f: Faults, id: Id) {
    StillWaiting(p, w, ActiveOf(w, reports), id, at) && !WillComplete(p, w, at, reports, f, id)
  }

  /** What the phases before remediation have done. */
  lemma AdvancedIs(p: Policy, w: World, at: int, reports: seq<Conn>, load: Load, f: Faults, id: Id)
    requires p.Valid() && Sound(w) && Accurate(w, reports) && id in Ids(ActiveOf(w, reports))
    ensures var v := AdvancedWorld(p, w, at, reports, load, f);
            && Prelude(SeenWorld(w, at, reports), v)
            && (id in v.mem.pending <==> Shielded(p, w, at, reports, f, id))
            && (Completed(w.trace, v.trace, id) <==> WillComplete(p, w, at, reports, f, id))
  {
    var (conns, seen) := (ActiveOf(w, reports), SeenWorld(w, at, reports));
    var scaled := ScalePhase(p, seen, conns, load, at, f);
    var v := ReplacePhase(p, scaled, conns, at, f);
    AdvancedRoutes(p, w, at, reports, load, f, id);
    ScalePrelude(p, seen, conns, load, at, f);
    ScaleOnlyScales(p, seen, conns, load, at, f);
    AdvancesPrelude(p, scaled, conns, scaled.mem.order, at, f);
    PreludeThen(seen, scaled, v);
    ReplaceTurn(p, scaled, conns, at, f, id);
    CompletedThen(w.trace, scaled.trace, v.trace, id);
  }

  /** How many create attempts the scale phase makes. */
  function ScaleTries(p: Policy, w: World, reports: seq<Conn>, load: Load, at: int): nat {
    var d := ScaleDecision(p, w, ActiveOf(w, reports), load, at);
    if d.direction == Up && d.count >= 0 then d.count else 0
  }

  /** `c` is due for a replace in this cycle, and no replace in flight shields it. */
  ghost predicate Escalates(p: Policy, w: World, at: int, reports: seq<Conn>, f: Faults, c: Conn) {
    !Shielded(p, w, at, reports, f, c.id) && BudgetSpent(p, w, GatesNow(w, reports, at), c, at)
  }

  ghost function DueIn(p: Policy, w: World, at: int, reports: seq<Conn>, f: Faults): Conn -> bool {
    c => Escalates(p, w, at, reports, f, c)
  }

  ghost function Count(due: Conn -> bool, conns: seq<Conn>): nat {
    if conns == [] then 0
    else Count(due, conns[..|conns| - 1]) + if due(conns[|conns| - 1]) then 1 else 0
  }

  /** The number of the create attempt for the replacement of `c`, if this cycle makes one: the attempts of the
      scale phase come first, then those for the connectors due for a replace, in discovery order. */
  ghost function AttemptFor(p: Policy, w: World, at: int, reports: seq<Conn>, load: Load, f: Faults, c: Conn): Id {
    w.cloud.nextId + ScaleTries(p, w, reports, load, at)
    + Count(DueIn(p, w, at, reports, f), Ahead(ActiveOf(w, reports), c.id))
  }

  /** This cycle begins a replace of `c`: it is due for one, and its own create attempt works. */
  ghost predicate WillBegin(p: Policy, w: World, at: int, reports: seq<Conn>, load: Load, f: Faults, c: Conn) {
    Escalates(p, w, at, reports, f, c) && AttemptFor(p, w, at, reports, load, f, c) !in f.provision
  }

  lemma {:induction false} ManyNumbers(w: World, at: int, f: Faults, k: nat)
    ensures ProvisionMany(w, at, f, k).0.cloud.nextId == w.cloud.nextId + k
  {
    if k > 0 {
      ManyNumbers(w, at, f, k - 1);
    }
  }

  lemma {:induction false} TurnsNumbers(p: Policy, w: World, conns: seq<Conn>, keys: seq<Id>, at: int, f: Faults)
    ensures AdvanceReplaces(p, w, conns, keys, at, f).cloud.nextId == w.cloud.nextId
  {
    if keys != [] {
      TurnsNumbers(p, w, conns, keys[..|keys| - 1], at, f);
    }
  }

  /** The attempts before remediation. */
  lemma AdvancedNumbers(p: Policy, w: World, at: int, reports: seq<Conn>, load: Load, f: Faults)
    ensures AdvancedWorld(p, w, at, reports, load, f).cloud.nextId ==
              w.cloud.nextId + ScaleTries(p, w, reports, load, at)
  {
    var (conns, seen) := (ActiveOf(w, reports), SeenWorld(w, at, reports));
    var scaled := ScalePhase(p, seen, conns, load, at, f);
    var d := ScaleDecision(p, w, conns, load, at);
    assert ScaleDecision(p, seen, conns, load, at) == d;
    if d.count >= 0 && d.direction == Up {
      ManyNumbers(seen, at, f, d.count);
    } else if d.count >= 0 && d.direction == Down {
      DrainsStarted(seen, PickVictims(p, seen.mem, conns, d.count, at), at, f, ByScaleDown);
    }
    TurnsNumbers(p, scaled, conns, scaled.mem.order, at, f);
  }

  /** What the health pass plans for a listed connector whose gates and budget are known from before. */
  lemma PlanAgrees(p: Policy, w: World, v: World, conns: seq<Conn>, g: Gates, at: int, c: Conn)
    requires DistinctIds(conns) && c in conns
    requires CountRestarts(v.store.history, c.id, at - p.restartWindow) ==
               CountRestarts(w.store.history, c.id, at - p.restartWindow)
    requires Remediable(p, c, GatesOf(v.mem), at) <==> c.id !in v.mem.pending && Remediable(p, c, g, at)
    ensures var plan := HealthPlan(p, v, conns, at);
            && (HealthAction(c.id, ReplaceNew) in plan <==> c.id !in v.mem.pending && BudgetSpent(p, w, g, c, at))
            && (HealthAction(c.id, RestartInPlace) in plan <==>
                  c.id !in v.mem.pending && Remediable(p, c, g, at) && !BudgetSpent(p, w, g, c, at))
  {
    PlanFor(p, v, conns, at, c, ReplaceNew);
    PlanFor(p, v, conns, at, c, RestartInPlace);
  }

  /** What the health pass plans for a listed connector, in terms of the world the cycle began in. */
  lemma PlanNow(p: Policy, w: World, v: World, at: int, reports: seq<Conn>, c: Conn)
    requires Accurate(w, reports) && c in ActiveOf(w, reports) && Prelude(SeenWorld(w, at, reports), v)
    ensures var plan := HealthPlan(p, v, ActiveOf(w, reports), at);
            var g := GatesNow(w, reports, at);
            && (HealthAction(c.id, ReplaceNew) in plan <==> c.id !in v.mem.pending && BudgetSpent(p, w, g, c, at))
            && (HealthAction(c.id, RestartInPlace) in plan <==>
                  c.id !in v.mem.pending && Remediable(p, c, g, at) && !BudgetSpent(p, w, g, c, at))
  {
    ActiveOfExact(w, reports);
    GatesAgree(p, w, v, at, reports, c);
    PlanAgrees(p, w, v, ActiveOf(w, reports), GatesNow(w, reports, at), at, c);
  }

  lemma GatesAgree(p: Policy, w: World, v: World, at: int, reports: seq<Conn>, c: Conn)
    requires Prelude(SeenWorld(w, at, reports), v)
    ensures CountRestarts(v.store.history, c.id, at - p.restartWindow) ==
              CountRestarts(w.store.history, c.id, at - p.restartWindow)
    ensures Remediable(p, c, GatesOf(v.mem), at) <==>
              c.id !in v.mem.pending && Remediable(p, c, GatesNow(w, reports, at), at)
  {
    PreludeCounts(w.store.history, v.store.history, c.id, at - p.restartWindow);
  }

  /** The verdict is a replace for exactly the connectors that are `due`. */
  ghost predicate Foretold(p: Policy, conns: seq<Conn>, counts: map<Id, nat>, g: Gates, at: int, due: Conn -> bool) {
    conns == [] ||
    var last := conns[|conns| - 1];
    && Foretold(p, conns[..|conns| - 1], counts, g, at, due)
    && (Verdict(p, last, counts, g, at) == [HealthAction(last.id, ReplaceNew)] <==> due(last))
  }

  lemma {:induction false} ForetoldFor(p: Policy, conns: seq<Conn>, counts: map<Id, nat>, g: Gates, at: int,
                                       due: Conn -> bool, c: Conn)
    requires Foretold(p, conns, counts, g, at, due) && c in conns
    ensures Verdict(p, c, counts, g, at) == [HealthAction(c.id, ReplaceNew)] <==> due(c)
  {
    if c != conns[|conns| - 1] {
      ForetoldFor(p, conns[..|conns| - 1], counts, g, at, due, c);
    }
  }

  lemma {:induction false} AheadForetold(p: Policy, conns: seq<Conn>, counts: map<Id, nat>, g: Gates, at: int,
                                         due: Conn -> bool, id: Id)
    requires Foretold(p, conns, counts, g, at, due)
    ensures Foretold(p, Ahead(conns, id), counts, g, at, due)
  {
    if conns != [] && conns[|conns| - 1].id != id {
      AheadForetold(p, conns[..|conns| - 1], counts, g, at, due, id);
    }
  }

  lemma {:induction false} PlanCounts(p: Policy, conns: seq<Conn>, counts: map<Id, nat>, g: Gates, at: int,
                                      due: Conn -> bool)
    requires Foretold(p, conns, counts, g, at, due)
    ensures Replacements(HealthActions(p, conns, counts, g, at)) == Count(due, conns)
  {
    if conns != [] {
      var init, last := conns[..|conns| - 1], conns[|conns| - 1];
      PlanCounts(p, init, counts, g, at, due);
      VerdictStarts(0, HealthActions(p, init, counts, g, at), Verdict(p, last, counts, g, at), NO_FAULTS, last.id);
    }
  }

  lemma CountListed(p: Policy, history: seq<Row>, conns: seq<Conn>, at: int, c: Conn)
    requires c in conns && !c.cordoned
    ensures CountOf(RestartCounts(p, history, conns, at), c.id) == CountRestarts(history, c.id, at - p.restartWindow)
  {
  }

  lemma VerdictIs(p: Policy, c: Conn, counts: map<Id, nat>, g: Gates, at: int)
    ensures Verdict(p, c, counts, g, at) == [HealthAction(c.id, ReplaceNew)] <==>
            Remediable(p, c, g, at) && CountOf(counts, c.id) >= p.maxRestarts
  {
  }

  /** The verdict of the plan on a listed connector, in terms of the world the cycle began in. */
  lemma VerdictAgrees(p: Policy, w: World, x: World, at: int, reports: seq<Conn>, f: Faults, c: Conn)
    requires c in ActiveOf(w, reports) && Prelude(SeenWorld(w, at, reports), x)
    requires c.id in x.mem.pending <==> Shielded(p, w, at, reports, f, c.id)
    ensures var counts := RestartCounts(p, x.store.history, ActiveOf(w, reports), at);
            Verdict(p, c, counts, GatesOf(x.mem), at) == [HealthAction(c.id, ReplaceNew)] <==>
              Escalates(p, w, at, reports, f, c)
  {
    GatesAgree(p, w, x, at, reports, c);
    VerdictIs(p, c, RestartCounts(p, x.store.history, ActiveOf(w, reports), at), GatesOf(x.mem), at);
    if !c.cordoned {
      CountListed(p, x.store.history, ActiveOf(w, reports), at, c);
    }
  }

  /** So a replace starts for exactly the due connectors whose own attempt works. */
  lemma ForetoldStarts(p: Policy, conns: seq<Conn>, counts: map<Id, nat>, g: Gates, at: int, first: Id, f: Faults,
                       c: Conn, due: Conn -> bool)
    requires DistinctIds(conns) && c in conns && Foretold(p, conns, counts, g, at, due)
    ensures Starts(first, HealthActions(p, conns, counts, g, at), f, c.id) <==>
            due(c) && first + Count(due, Ahead(conns, c.id)) !in f.provision
  {
    PlanStarts(p, conns, counts, g, at, first, f, c);
    ForetoldFor(p, conns, counts, g, at, due, c);
    AheadForetold(p, conns, counts, g, at, due, c.id);
    PlanCounts(p, Ahead(conns, c.id), counts, g, at, due);
  }

  lemma {:induction false} AllForetold(p: Policy, conns: seq<Conn>, counts: map<Id, nat>, g: Gates, at: int,
                                       due: Conn -> bool)
    requires forall c :: c in conns ==> (Verdict(p, c, counts, g, at) == [HealthAction(c.id, ReplaceNew)] <==> due(c))
    ensures Foretold(p, conns, counts, g, at, due)
  {
    if conns != [] {
      AllForetold(p, conns[..|conns| - 1], counts, g, at, due);
      assert conns[|conns| - 1] in conns;
    }
  }

  /** The verdicts of the cycle's plan. */
  lemma PlanForetold(p: Policy, w: World, at: int, reports: seq<Conn>, load: Load, f: Faults)
    requires p.Valid() && Sound(w) && Accurate(w, reports)
    ensures var x := AdvancedWorld(p, w, at, reports, load, f);
            Foretold(p, ActiveOf(w, reports), RestartCounts(p, x.store.history, ActiveOf(w, reports), at),
                     GatesOf(x.mem), at, DueIn(p, w, at, reports, f))
  {
    var (conns, x) := (ActiveOf(w, reports), AdvancedWorld(p, w, at, reports, load, f));
    var counts := RestartCounts(p, x.store.history, conns, at);
    forall c | c in conns
      ensures Verdict(p, c, counts, GatesOf(x.mem), at) == [HealthAction(c.id, ReplaceNew)] <==>
              DueIn(p, w, at, reports, f)(c)
    {
      assert c.id in Ids(conns);
      AdvancedIs(p, w, at, reports, load, f, c.id);
      VerdictAgrees(p, w, x, at, reports, f, c);
    }
    AllForetold(p, conns, counts, GatesOf(x.mem), at, DueIn(p, w, at, reports, f));
  }

  lemma StartsFrom(p: Policy, x: World, conns: seq<Conn>, at: int, f: Faults, c: Conn, due: Conn -> bool)
    requires DistinctIds(conns) && c in conns
    requires Foretold(p, conns, RestartCounts(p, x.store.history, conns, at), GatesOf(x.mem), at, due)
    ensures Starts(x.cloud.nextId, HealthPlan(p, x, conns, at), f, c.id) <==>
            due(c) && x.cloud.nextId + Count(due, Ahead(conns, c.id)) !in f.provision
  {
    ForetoldStarts(p, conns, RestartCounts(p, x.store.history, conns, at), GatesOf(x.mem), at, x.cloud.nextId, f, c,
                   due);
  }

  lemma BeginIff(p: Policy, w: World, at: int, reports: seq<Conn>, load: Load, f: Faults, c: Conn, first: Id,
                 starts: bool)
    requires first == w.cloud.nextId + ScaleTries(p, w, reports, load, at)
    requires starts <==>
             && DueIn(p, w, at, reports, f)(c)
             && first + Count(DueIn(p, w, at, reports, f), Ahead(ActiveOf(w, reports), c.id)) !in f.provision
    ensures starts <==> WillBegin(p, w, at, reports, load, f, c)
  {
  }

  lemma AdvancedStarts(p: Policy, w: World, at: int, reports: seq<Conn>, load: Load, f: Faults, c: Conn)
    requires DistinctIds(ActiveOf(w, reports)) && c in ActiveOf(w, reports)
    requires var x := AdvancedWorld(p, w, at, reports, load, f);
             Foretold(p, ActiveOf(w, reports), RestartCounts(p, x.store.history, ActiveOf(w, reports), at),
                      GatesOf(x.mem), at, DueIn(p, w, at, reports, f))
    ensures var x := AdvancedWorld(p, w, at, reports, load, f);
            Starts(x.cloud.nextId, HealthPlan(p, x, ActiveOf(w, reports), at), f, c.id) <==>
              && DueIn(p, w, at, reports, f)(c)
              && x.cloud.nextId + Count(DueIn(p, w, at, reports, f), Ahead(ActiveOf(w, reports), c.id)) !in f.provision
  {
    StartsFrom(p, AdvancedWorld(p, w, at, reports, load, f), ActiveOf(w, reports), at, f, c,
               DueIn(p, w, at, reports, f));
  }

  lemma StartsBegin(p: Policy, w: World, at: int, reports: seq<Conn>, load: Load, f: Faults, c: Conn)
    requires var x := AdvancedWorld(p, w, at, reports, load, f);
             Starts(x.cloud.nextId, HealthPlan(p, x, ActiveOf(w, reports), at), f, c.id) <==>
               && DueIn(p, w, at, reports, f)(c)
               && x.cloud.nextId + Count(DueIn(p, w, at, reports, f), Ahead(ActiveOf(w, reports), c.id)) !in f.provision
    requires AdvancedWorld(p, w, at, reports, load, f).cloud.nextId ==
             w.cloud.nextId + ScaleTries(p, w, reports, load, at)
    ensures var x := AdvancedWorld(p, w, at, reports, load, f);
            Starts(x.cloud.nextId, HealthPlan(p, x, ActiveOf(w, reports), at), f, c.id) <==>
              WillBegin(p, w, at, reports, load, f, c)
  {
    var x := AdvancedWorld(p, w, at, reports, load, f);
    BeginIff(p, w, at, reports, load, f, c, x.cloud.nextId,
             Starts(x.cloud.nextId, HealthPlan(p, x, ActiveOf(w, reports), at), f, c.id));
  }

  /** The plan begins a replace of a listed connector exactly when it is due for one and its attempt works. */
  lemma StartsNow(p: Policy, w: World, at: int, reports: seq<Conn>, load: Load, f: Faults, c: Conn)
    requires p.Valid() && Sound(w) && Accurate(w, reports) && c in ActiveOf(w, reports)
    ensures var x := AdvancedWorld(p, w, at, reports, load, f);
            Starts(x.cloud.nextId, HealthPlan(p, x, ActiveOf(w, reports), at), f, c.id) <==>
              WillBegin(p, w, at, reports, load, f, c)
  {
    ActiveOfExact(w, reports);
    PlanForetold(p, w, at, reports, load, f);
    AdvancedStarts(p, w, at, reports, load, f, c);
    AdvancedNumbers(p, w, at, reports, load, f);
    StartsBegin(p, w, at, reports, load, f, c);
  }

  /** What remediation leaves of the record and of the pending replaces, from what the phases before it left. */
  lemma RemedyRecord(w: World, x: World, v: World, plan: seq<HealthAction>, at: int, f: Faults, id: Id)
    requires Prelude(w, x) && Remedied(x, v, plan, at, f, id)
    ensures w.trace <= v.trace && w.store.history <= v.store.history
    ensures RestartTried(w.store.history, v.store.history, id, at) <==> HealthAction(id, RestartInPlace) in plan
    ensures Began(w.trace, v.trace, id) <==> Starts(x.cloud.nextId, plan, f, id)
    ensures id in v.mem.pending <==> id in x.mem.pending || Starts(x.cloud.nextId, plan, f, id)
    ensures RoutingStopped(w.trace, v.trace, id) ==> id in x.mem.draining && id in v.mem.draining
    ensures RoutingStopped(w.trace, v.trace, id) <==> RoutingStopped(w.trace, x.trace, id)
    ensures Completed(w.trace, v.trace, id) <==> Completed(w.trace, x.trace, id)
  {
    RecordsThen(w, x, v, id, at);
    CompletedThen(w.trace, x.trace, v.trace, id);
    assert Completed(x.trace, v.trace, id) ==> RoutingStopped(x.trace, v.trace, id);
  }

  /** The cycle as a whole, as far as a listed connector is concerned. */
  lemma CycleRecord(p: Policy, w: World, at: int, reports: seq<Conn>, load: Load, f: Faults, c: Conn)
    requires p.Valid() && Sound(w) && Accurate(w, reports) && c in ActiveOf(w, reports)
    ensures var v, x := CycleStep(p, w, at, reports, load, f), AdvancedWorld(p, w, at, reports, load, f);
            && (RestartTried(w.store.history, v.store.history, c.id, at) <==>
                  HealthAction(c.id, RestartInPlace) in HealthPlan(p, x, ActiveOf(w, reports), at))
            && (Began(w.trace, v.trace, c.id) <==> WillBegin(p, w, at, reports, load, f, c))
            && (c.id in v.mem.pending <==>
                  Shielded(p, w, at, reports, f, c.id) || WillBegin(p, w, at, reports, load, f, c))
            && (RoutingStopped(w.trace, v.trace, c.id) ==> c.id in v.mem.draining)
            && (RoutingStopped(w.trace, v.trace, c.id) <==> RoutingStopped(w.trace, x.trace, c.id))
            && (Completed(w.trace, v.trace, c.id) <==> WillComplete(p, w, at, reports, f, c.id))
  {
    var (conns, x) := (ActiveOf(w, reports), AdvancedWorld(p, w, at, reports, load, f));
    var plan := HealthPlan(p, x, conns, at);
    assert c.id in Ids(conns);
    AdvancedIs(p, w, at, reports, load, f, c.id);
    StartsNow(p, w, at, reports, load, f, c);
    AllRemedied(x, plan, at, f, c.id);
    RemedyRecord(SeenWorld(w, at, reports), x, RemediateAll(x, plan, at, f), plan, at, f, c.id);
  }

  /** In any cycle, whatever else is pending, sick or failing, each listed connector is restarted, or a replace
      of it begins, exactly as its gates and its restart budget say at the start of the cycle, unless a replace
      in flight shields it: one that still waits and will not complete in this cycle. A replace that is due
      fails to begin only if its own create attempt fails. */
  lemma RemedyExact(p: Policy, w: World, at: int, reports: seq<Conn>, load: Load, f: Faults, c: Conn)
    requires p.Valid() && Sound(w) && Accurate(w, reports) && c in ActiveOf(w, reports)
    ensures var v, g := CycleStep(p, w, at, reports, load, f), GatesNow(w, reports, at);
            var shielded := Shielded(p, w, at, reports, f, c.id);
            && (RestartTried(w.store.history, v.store.history, c.id, at) <==>
                  !shielded && Remediable(p, c, g, at) && !BudgetSpent(p, w, g, c, at))
            && (Began(w.trace, v.trace, c.id) <==>
                  && !shielded && BudgetSpent(p, w, g, c, at)
                  && AttemptFor(p, w, at, reports, load, f, c) !in f.provision)
            && (c.id in v.mem.pending <==> shielded || Began(w.trace, v.trace, c.id))
  {
    CycleRecord(p, w, at, reports, load, f, c);
    assert c.id in Ids(ActiveOf(w, reports));
    AdvancedIs(p, w, at, reports, load, f, c.id);
    PlanNow(p, w, AdvancedWorld(p, w, at, reports, load, f), at, reports, c);
  }

  /** A cycle completes a replace exactly when that could be foretold from the world it began in. */
  lemma CompletedExact(p: Policy, w: World, at: int, reports: seq<Conn>, load: Load, f: Faults, c: Conn)
    requires p.Valid() && Sound(w) && Accurate(w, reports) && c in ActiveOf(w, reports)
    ensures Completed(w.trace, CycleStep(p, w, at, reports, load, f).trace, c.id) <==>
            WillComplete(p, w, at, reports, f, c.id)
  {
    CycleRecord(p, w, at, reports, load, f, c);
  }

  /** A completed replace is followed, in the very cycle that completes it, by another one for the connector it
      has just put into drain, exactly when that connector was remediable with its restart budget spent, and
      the create attempt for its second replacement works. */
  lemma SecondReplacementExact(p: Policy, w: World, at: int, reports: seq<Conn>, load: Load, f: Faults, c: Conn)
    requires p.Valid() && Sound(w) && Accurate(w, reports) && c in ActiveOf(w, reports)
    requires WillComplete(p, w, at, reports, f, c.id)
    ensures var v := CycleStep(p, w, at, reports, load, f);
            var again := BudgetSpent(p, w, GatesNow(w, reports, at), c, at)
                         && AttemptFor(p, w, at, reports, load, f, c) !in f.provision;
            && Completed(w.trace, v.trace, c.id) && c.id in v.mem.draining
            && (c.id in v.mem.pending <==> again) && (Began(w.trace, v.trace, c.id) <==> again)
  {
    CycleRecord(p, w, at, reports, load, f, c);
    assert Completed(w.trace, CycleStep(p, w, at, reports, load, f).trace, c.id) ==>
        RoutingStopped(w.trace, CycleStep(p, w, at, reports, load, f).trace, c.id);
  }

  /** A connector that begins to drain in a cycle is restarted, or a replace of it tried, in that same cycle
      exactly when its gates were open at the start and no replace in flight shields it: the list the health
      pass works on was computed before. */
  lemma StaleListExact(p: Policy, w: World, at: int, reports: seq<Conn>, load: Load, f: Faults, c: Conn)
    requires p.Valid() && Sound(w) && Accurate(w, reports) && c in ActiveOf(w, reports)
    requires RoutingStopped(w.trace, CycleStep(p, w, at, reports, load, f).trace, c.id)
    ensures var v := CycleStep(p, w, at, reports, load, f);
            var open := !Shielded(p, w, at, reports, f, c.id) && Remediable(p, c, GatesNow(w, reports, at), at);
            var spent := BudgetSpent(p, w, GatesNow(w, reports, at), c, at);
            && c.id in v.mem.draining
            && (RestartTried(w.store.history, v.store.history, c.id, at) <==> open && !spent)
            && (Began(w.trace, v.trace, c.id) <==>
                  open && spent && AttemptFor(p, w, at, reports, load, f, c) !in f.provision)
  {
    RemedyExact(p, w, at, reports, load, f, c);
    CycleRecord(p, w, at, reports, load, f, c);
  }

  // --- with the list refreshed -------------------------------------------------------------------

  /** The cycle with the connector list refreshed before remediation. */
  function RefreshedCycle(p: Policy, w: World, at: int, reports: seq<Conn>, load: Load, f: Faults): World {
    var x := AdvancedWorld(p, w, at, reports, load, f);
    HealthPhase(p, x, Active(ActiveOf(w, reports), x.mem.draining), at, f)
  }

  /** No connector whose routing such a cycle stops, for whatever cause, would be restarted or replaced in it;
      and a completed replace would leave no replace of the same connector behind. */
  lemma RefreshedCycleSpares(p: Policy, w: World, at: int, reports: seq<Conn>, load: Load, f: Faults, id: Id)
    requires p.Valid() && Sound(w) && Accurate(w, reports) && id in Ids(ActiveOf(w, reports))
    requires RoutingStopped(w.trace, RefreshedCycle(p, w, at, reports, load, f).trace, id)
    ensures var v := RefreshedCycle(p, w, at, reports, load, f);
            && !RestartTried(w.store.history, v.store.history, id, at) && !Began(w.trace, v.trace, id)
            && (WillComplete(p, w, at, reports, f, id) ==> id !in v.mem.pending)
  {
    var (conns, x) := (ActiveOf(w, reports), AdvancedWorld(p, w, at, reports, load, f));
    var plan := HealthPlan(p, x, Active(conns, x.mem.draining), at);
    AdvancedIs(p, w, at, reports, load, f, id);
    AllRemedied(x, plan, at, f, id);
    RemedyRecord(SeenWorld(w, at, reports), x, RemediateAll(x, plan, at, f), plan, at, f, id);
    ActiveOfExact(w, reports);
    RefreshedPlanSpares(p, x, conns, at, id);
    StartsNeeds(x.cloud.nextId, plan, f, id);
  }

  lemma {:induction false} StartsNeeds(first: Id, actions: seq<HealthAction>, f: Faults, id: Id)
    requires forall a :: a in actions ==> a.id != id
    ensures !Starts(first, actions, f, id)
  {
    if actions != [] {
      StartsNeeds(first, actions[..|actions| - 1], f, id);
      assert actions[|actions| - 1] in actions;
    }
  }

  lemma RefreshedPlanSpares(p: Policy, w: World, conns: seq<Conn>, now: int, id: Id)
    requires DistinctIds(conns) && id in w.mem.draining
    ensures forall a :: a in HealthPlan(p, w, Active(conns, w.mem.draining), now) ==> a.id != id
  {
    var rest := Active(conns, w.mem.draining);
    var counts := RestartCounts(p, w.store.history, rest, now);
    ActiveExact(conns, w.mem.draining);
    ActionsJustified(p, rest, counts, GatesOf(w.mem), now);
    forall a | a in HealthPlan(p, w, rest, now)
      ensures a.id != id
    {
      assert Justified(p, rest, counts, GatesOf(w.mem), now, a);
    }
  }
}
