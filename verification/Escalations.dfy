/** Restart before replace, as progress: a connector that stays due for remediation is replaced once its restart
    budget is spent. */
module Escalations {
  import opened Basics
  import opened Policies
  import opened Decider
  import opened Fleet
  import opened Effects
  import opened Steps
  import opened Completions
  import opened Remedies
  import opened HealthTimers

  /** The step is a cycle in which the gates of `c` are open and no replace in flight shields it. */
  ghost predicate OpenFor(p: Policy, w: World, s: Step, c: Conn) {
    && s.Cycle? && c in ActiveOf(w, s.reports)
    && !Shielded(p, w, s.at, s.reports, s.faults, c.id)
    && Remediable(p, c, GatesNow(w, s.reports, s.at), s.at)
  }

  ghost predicate DueCycle(p: Policy, w: World, s: Step, id: Id) {
    exists c: Conn :: c.id == id && OpenFor(p, w, s, c)
  }

  /** A replace of `id` begins in the step from `w` to `v`, or its own create attempt fails. */
  ghost predicate ReplaceTried(p: Policy, w: World, s: Step, v: World, id: Id) {
    s.Cycle? &&
    exists c :: c in ActiveOf(w, s.reports) && c.id == id &&
                (Began(w.trace, v.trace, id)
                 || AttemptFor(p, w, s.at, s.reports, s.load, s.faults, c) in s.faults.provision)
  }

  /** In how many of the first `i` steps `id` was due. */
  ghost function DueCycles(p: Policy, ws: seq<World>, steps: seq<Step>, id: Id, i: nat): nat
    requires |ws| == |steps| + 1 && i <= |steps|
  {
    if i == 0 then 0
    else DueCycles(p, ws, steps, id, i - 1) + if DueCycle(p, ws[i - 1], steps[i - 1], id) then 1 else 0
  }

  // --- one step ------------------------------------------------------------------

  lemma {:induction false} MoreRows(history: seq<Row>, longer: seq<Row>, id: Id, since: int)
    requires history <= longer
    ensures CountRestarts(longer, id, since) >= CountRestarts(history, id, since)
  {
    if |history| == |longer| {
      assert history == longer;
    } else {
      MoreRows(history, longer[..|longer| - 1], id, since);
    }
  }

  lemma MoreRestarts(history: seq<Row>, longer: seq<Row>, id: Id, since: int, at: int)
    requires history <= longer && RestartTried(history, longer, id, at) && at >= since
    ensures CountRestarts(longer, id, since) > CountRestarts(history, id, since)
  {
    var k :| |history| <= k < |longer| && longer[k].action == Restart && longer[k].id == Some(id) && longer[k].at == at;
    MoreRows(history, longer[..k], id, since);
    CountAppend(longer[..k], longer[k], id, since);
    assert longer[..k] + [longer[k]] == longer[..k + 1];
    MoreRows(longer[..k + 1], longer, id, since);
  }

  lemma {:induction false} EarlierSince(history: seq<Row>, id: Id, since: int, later: int)
    requires since <= later
    ensures CountRestarts(history, id, since) >= CountRestarts(history, id, later)
  {
    if history != [] {
      EarlierSince(history[..|history| - 1], id, since, later);
    }
  }

  /** No step takes a row back. */
  lemma HistoryGrows(p: Policy, w: World, s: Step)
    requires p.Valid() && Sound(w) && Enabled(p, w, s)
    ensures w.store.history <= Apply(p, w, s).store.history
  {
    var history := w.store.history;
    var inv := (x: World) => history <= x.store.history;
    assert Good(inv, w);
    StepKeeps(p, inv, w, s);
    assert Good(inv, Apply(p, w, s));
  }

  lemma SpentIff(p: Policy, w: World, g: Gates, c: Conn, at: int)
    requires Remediable(p, c, g, at)
    ensures BudgetSpent(p, w, g, c, at) <==> CountRestarts(w.store.history, c.id, at - p.restartWindow) >= p.maxRestarts
  {
  }

  /** What becomes of a connector that is due, by whether its budget is spent. */
  ghost predicate Handled(p: Policy, w: World, v: World, at: int, id: Id, spent: bool, attempt: Id, f: Faults) {
    if spent then Began(w.trace, v.trace, id) || attempt in f.provision
    else RestartTried(w.store.history, v.store.history, id, at)
  }

  lemma OpenHandled(p: Policy, w: World, at: int, reports: seq<Conn>, load: Load, f: Faults, c: Conn)
    returns (v: World, spent: bool, attempt: Id)
    requires p.Valid() && Sound(w) && Accurate(w, reports) && c in ActiveOf(w, reports)
    requires !Shielded(p, w, at, reports, f, c.id) && Remediable(p, c, GatesNow(w, reports, at), at)
    ensures v == CycleStep(p, w, at, reports, load, f) && attempt == AttemptFor(p, w, at, reports, load, f, c)
    ensures spent <==> CountRestarts(w.store.history, c.id, at - p.restartWindow) >= p.maxRestarts
    ensures Handled(p, w, v, at, c.id, spent, attempt, f)
  {
    v, attempt := CycleStep(p, w, at, reports, load, f), AttemptFor(p, w, at, reports, load, f, c);
    spent := BudgetSpent(p, w, GatesNow(w, reports, at), c, at);
    SpentIff(p, w, GatesNow(w, reports, at), c, at);
    RemedyExact(p, w, at, reports, load, f, c);
  }

  lemma HandledInTime(p: Policy, w: World, v: World, s: Step, c: Conn, since: int, spent: bool, attempt: Id)
    requires s.Cycle? && c in ActiveOf(w, s.reports) && since <= s.at <= since + p.restartWindow
    requires attempt == AttemptFor(p, w, s.at, s.reports, s.load, s.faults, c)
    requires spent <==> CountRestarts(w.store.history, c.id, s.at - p.restartWindow) >= p.maxRestarts
    requires Handled(p, w, v, s.at, c.id, spent, attempt, s.faults)
    ensures ActedOn(p, w, s, v, c.id, since)
  {
    EarlierSince(w.store.history, c.id, s.at - p.restartWindow, since);
  }

  /** A replace of `id` was tried, or, with budget left, a restart. */
  ghost predicate ActedOn(p: Policy, w: World, s: Step, v: World, id: Id, since: int) {
    || ReplaceTried(p, w, s, v, id)
    || (CountRestarts(w.store.history, id, since) < p.maxRestarts
        && RestartTried(w.store.history, v.store.history, id, s.at))
  }

  lemma OpenActs(p: Policy, w: World, s: Step, c: Conn, since: int)
    requires p.Valid() && Sound(w) && s.Cycle? && Accurate(w, s.reports) && OpenFor(p, w, s, c)
    requires since <= s.at <= since + p.restartWindow
    ensures ActedOn(p, w, s, CycleStep(p, w, s.at, s.reports, s.load, s.faults), c.id, since)
  {
    var v, spent, attempt := OpenHandled(p, w, s.at, s.reports, s.load, s.faults, c);
    HandledInTime(p, w, v, s, c, since, spent, attempt);
  }

  lemma DueActs(p: Policy, w: World, s: Step, id: Id, since: int)
    requires p.Valid() && Sound(w) && Enabled(p, w, s) && DueCycle(p, w, s, id)
    requires since <= s.at <= since + p.restartWindow
    ensures ActedOn(p, w, s, Apply(p, w, s), id, since)
  {
    var c: Conn :| c.id == id && OpenFor(p, w, s, c);
    OpenActs(p, w, s, c, since);
  }

  /** Each due cycle so far has left a restart, within the budget. */
  ghost predicate OnlyRestarted(p: Policy, w: World, id: Id, since: int, due: nat) {
    due <= p.maxRestarts && due <= CountRestarts(w.store.history, id, since)
  }

  lemma StepEscalates(p: Policy, w: World, s: Step, id: Id, since: int, due: nat)
    requires p.Valid() && Sound(w) && Enabled(p, w, s) && OnlyRestarted(p, w, id, since, due)
    requires DueCycle(p, w, s, id) ==> since <= s.at <= since + p.restartWindow
    ensures var v := Apply(p, w, s);
            || (DueCycle(p, w, s, id) && ReplaceTried(p, w, s, v, id))
            || OnlyRestarted(p, v, id, since, due + if DueCycle(p, w, s, id) then 1 else 0)
  {
    var v := Apply(p, w, s);
    HistoryGrows(p, w, s);
    if DueCycle(p, w, s, id) {
      DueActs(p, w, s, id, since);
      if !ReplaceTried(p, w, s, v, id) {
        MoreRestarts(w.store.history, v.store.history, id, since, s.at);
      }
    } else {
      MoreRows(w.store.history, v.store.history, id, since);
    }
  }

  /** In the step from `w` to `v` `id` is due, and a replace of it is tried. */
  ghost predicate Replaces(p: Policy, w: World, s: Step, v: World, id: Id) {
    DueCycle(p, w, s, id) && ReplaceTried(p, w, s, v, id)
  }

  lemma StepAt(p: Policy, ws: seq<World>, steps: seq<Step>, k: nat)
    requires p.Valid() && Run(p, ws, steps) && Sound(ws[0]) && k < |steps|
    ensures Enabled(p, ws[k], steps[k]) && ws[k + 1] == Apply(p, ws[k], steps[k]) && Sound(ws[k])
  {
    assert Good(x => true, ws[0]);
    RunKeeps(p, x => true, ws, steps, k);
  }

  /** All due cycles among the first `i` steps lie in the window after `since`. */
  ghost predicate InWindow(p: Policy, ws: seq<World>, steps: seq<Step>, id: Id, since: int, i: nat)
    requires |ws| == |steps| + 1 && i <= |steps|
  {
    i > 0 ==>
      && InWindow(p, ws, steps, id, since, i - 1)
      && (DueCycle(p, ws[i - 1], steps[i - 1], id) ==> since <= steps[i - 1].at <= since + p.restartWindow)
  }

  lemma LastEscalates(p: Policy, ws: seq<World>, steps: seq<Step>, id: Id, since: int, i: nat)
    requires p.Valid() && Run(p, ws, steps) && Sound(ws[0]) && i < |steps|
    requires DueCycle(p, ws[i], steps[i], id) ==> since <= steps[i].at <= since + p.restartWindow
    requires OnlyRestarted(p, ws[i], id, since, DueCycles(p, ws, steps, id, i))
    ensures || Replaces(p, ws[i], steps[i], ws[i + 1], id)
            || OnlyRestarted(p, ws[i + 1], id, since, DueCycles(p, ws, steps, id, i + 1))
  {
    StepAt(p, ws, steps, i);
    StepEscalates(p, ws[i], steps[i], id, since, DueCycles(p, ws, steps, id, i));
  }

  /** In every run, with all the cycles in which a connector is due for remediation within one restart window:
      either one of them begins a replace of it, or fails to only because the create attempt for its
      replacement fails; or they are no more than the restart budget, and each has left a restart. */
  lemma {:induction false} SickGetReplaced(p: Policy, ws: seq<World>, steps: seq<Step>, id: Id, since: int, i: nat)
    returns (tried: Option<nat>)
    requires p.Valid() && Run(p, ws, steps) && Sound(ws[0]) && i <= |steps| && InWindow(p, ws, steps, id, since, i)
    ensures match tried
            case None => OnlyRestarted(p, ws[i], id, since, DueCycles(p, ws, steps, id, i))
            case Some(k) => k < i && Replaces(p, ws[k], steps[k], ws[k + 1], id)
  {
    tried := None;
    if i > 0 {
      tried := SickGetReplaced(p, ws, steps, id, since, i - 1);
      if tried.None? {
        LastEscalates(p, ws, steps, id, since, i - 1);
        if Replaces(p, ws[i - 1], steps[i - 1], ws[i], id) {
          tried := Some(i - 1);
        }
      }
    }
  }

  // --- who is due ------------------------------------------------------------------

  /** The discoveries of this process, the one just being made included. */
  function Discoveries(w: World, reports: seq<Conn>, at: int): seq<Sighting> { Since(SeenWorld(w, at, reports)) }

  /** A connector nobody cordoned that is unhealthy at every discovery of a stretch reaching back at least the
      threshold, and was seen first at least the startup grace ago, is due as soon as no replace shields it. */
  lemma SustainedIsDue(p: Policy, ws: seq<World>, steps: seq<Step>, k: nat, c: Conn, from: nat, first: nat)
    requires p.Valid() && Run(p, ws, steps) && Initial(ws[0]) && k < |steps| && steps[k].Cycle?
    requires var (w, s) := (ws[k], steps[k]);
             && c in ActiveOf(w, s.reports) && !c.cordoned && IsUnhealthy(c)
             && !Shielded(p, w, s.at, s.reports, s.faults, c.id)
             && var ss := Discoveries(w, s.reports, s.at);
                && LongestStreak(ss, c.id, true, from) && s.at - ss[from].at >= p.unhealthyThreshold
                && LongestStreak(ss, c.id, false, first) && s.at - ss[first].at >= p.startupGrace
    ensures DueCycle(p, ws[k], steps[k], c.id)
  {
    var (w, s) := (ws[k], steps[k]);
    var seen := SeenWorld(w, s.at, s.reports);
    var ss := Discoveries(w, s.reports, s.at);
    RunTimed(p, ws, steps, k);
    LookTimed(Tick(w, s.at), FleetOf(w, s.reports));
    StreakAt(ss, c.id, true, from);
    StreakAt(ss, c.id, false, first);
    assert TimerOf(seen.mem, c.id, true) == Some(ss[from].at);
    assert TimerOf(seen.mem, c.id, false) == Some(ss[first].at);
    assert OpenFor(p, w, s, c);
  }

  /** There is one longest streak, and the recursive start is the time at its head. */
  lemma {:induction false} StreakAt(ss: seq<Sighting>, id: Id, sick: bool, i: nat)
    requires LongestStreak(ss, id, sick, i)
    ensures StreakStart(ss, id, sick) == Some(ss[i].at)
  {
    var init := ss[..|ss| - 1];
    if i < |init| {
      assert forall k :: i <= k < |init| ==> Shows(init[k], id, sick);
      StreakAt(init, id, sick, i);
    }
  }
}
