/** Restart budget and scale cooldowns over whole runs, manager restarts included. */
module RateLimits {
  import opened Basics
  import opened Policies
  import opened Decider
  import opened Fleet
  import opened Effects
  import opened Steps
  import opened Timelines

  // --- restart attempts ---------------------------------------------------------

  /** When restarts of `id` were attempted, failed attempts included. */
  function RestartTimes(history: seq<Row>, id: Id): seq<int> {
    if history == [] then []
    else
      var (earlier, row) := (RestartTimes(history[..|history| - 1], id), history[|history| - 1]);
      if row.id == Some(id) && row.action == Restart then earlier + [row.at] else earlier
  }

  lemma TimesAppend(history: seq<Row>, row: Row, id: Id)
    ensures RestartTimes(history + [row], id) ==
            if row.id == Some(id) && row.action == Restart then RestartTimes(history, id) + [row.at]
            else RestartTimes(history, id)
  {
    assert (history + [row])[..|history|] == history;
  }

  lemma {:induction false} CountsAgree(history: seq<Row>, id: Id, since: int)
    ensures CountRestarts(history, id, since) == CountFrom(RestartTimes(history, id), since)
  {
    if history != [] {
      var init, row := history[..|history| - 1], history[|history| - 1];
      CountsAgree(init, id, since);
      CountFromAppend(RestartTimes(init, id), row.at, since);
    }
  }

  ghost predicate Budgeted(p: Policy, history: seq<Row>, clock: int, id: Id) {
    var ts := RestartTimes(history, id);
    && Rising(ts) && Spread(ts, p.maxRestarts, p.restartWindow)
    && forall i :: 0 <= i < |ts| ==> ts[i] <= clock
  }

  /** Each automatic replace found the restart budget spent. */
  ghost predicate Earned(p: Policy, history: seq<Row>, e: Event) {
    e.ReplaceBegun? && !e.manual ==>
      CountIn(RestartTimes(history, e.id), e.at - p.restartWindow, e.at) >= p.maxRestarts
  }

  ghost predicate WithinBudget(p: Policy, w: World) {
    && (forall id :: Budgeted(p, w.store.history, w.clock, id))
    && (forall j :: 0 <= j < |w.trace| ==> Earned(p, w.store.history, w.trace[j]))
  }

  lemma BudgetedAppend(p: Policy, w: World, row: Row, id: Id)
    requires p.Valid() && Budgeted(p, w.store.history, w.clock, id)
    requires row.action == Restart && row.id == Some(id) ==>
        row.at == w.clock && CountRestarts(w.store.history, id, w.clock - p.restartWindow) < p.maxRestarts
    ensures Budgeted(p, w.store.history + [row], w.clock, id)
  {
    TimesAppend(w.store.history, row, id);
    if row.action == Restart && row.id == Some(id) {
      CountsAgree(w.store.history, id, w.clock - p.restartWindow);
      OneMoreAttempt(p, RestartTimes(w.store.history, id), w.clock);
    }
  }

  lemma OneMoreAttempt(p: Policy, ts: seq<int>, t: int)
    requires p.Valid() && Rising(ts) && Spread(ts, p.maxRestarts, p.restartWindow)
    requires (forall i :: 0 <= i < |ts| ==> ts[i] <= t) && CountFrom(ts, t - p.restartWindow) < p.maxRestarts
    ensures Rising(ts + [t]) && Spread(ts + [t], p.maxRestarts, p.restartWindow)
    ensures forall i :: 0 <= i < |ts + [t]| ==> (ts + [t])[i] <= t
  {
    SpreadAppend(ts, p.maxRestarts, p.restartWindow, t);
  }

  lemma EarnedAppend(p: Policy, history: seq<Row>, row: Row, e: Event)
    requires Earned(p, history, e)
    ensures Earned(p, history + [row], e)
  {
    if e.ReplaceBegun? {
      TimesAppend(history, row, e.id);
      CountInAppend(RestartTimes(history, e.id), row.at, e.at - p.restartWindow, e.at);
    }
  }

  /** The history may gain one allowed row, the record may gain plain or earned events, time may pass. */
  lemma BudgetExtends(p: Policy, w: World, v: World, row: Row)
    requires p.Valid() && WithinBudget(p, w) && w.clock <= v.clock && w.trace <= v.trace
    requires v.store.history == w.store.history || v.store.history == w.store.history + [row]
    requires row.action == Restart ==>
        && row.id.Some? && row.at == w.clock
        && CountRestarts(w.store.history, row.id.value, w.clock - p.restartWindow) < p.maxRestarts
    requires forall j :: |w.trace| <= j < |v.trace| ==> Earned(p, w.store.history, v.trace[j])
    ensures WithinBudget(p, v)
  {
    forall id
      ensures Budgeted(p, v.store.history, v.clock, id)
    {
      BudgetedAppend(p, w, row, id);
      assert Budgeted(p, w.store.history, w.clock, id);
    }
    forall j | 0 <= j < |v.trace|
      ensures Earned(p, v.store.history, v.trace[j])
    {
      assert Earned(p, w.store.history, v.trace[j]);
      EarnedAppend(p, w.store.history, row, v.trace[j]);
    }
  }

  lemma PairEarned(p: Policy, w: World, o: Id, manual: bool)
    requires Budgeted(p, w.store.history, w.clock, o)
    requires !manual ==> CountRestarts(w.store.history, o, w.clock - p.restartWindow) >= p.maxRestarts
    ensures forall n :: Earned(p, w.store.history, ReplaceBegun(o, n, w.clock, manual))
  {
    CountsAgree(w.store.history, o, w.clock - p.restartWindow);
    CountFromIsIn(RestartTimes(w.store.history, o), w.clock - p.restartWindow, w.clock);
  }

  lemma EffectBudget(p: Policy, w: World, e: Effect)
    requires p.Valid() && WithinBudget(p, w) && Sound(w) && Allowed(p, w, e)
    ensures WithinBudget(p, Perform(w, e))
  {
    var v := Perform(w, e);
    var row := if |v.store.history| > |w.store.history| then v.store.history[|w.store.history|]
               else Row(0, Cordon, None, true);
    if e.Pair? {
      assert Budgeted(p, w.store.history, w.clock, e.oldId);
      PairEarned(p, w, e.oldId, e.manual);
    }
    BudgetExtends(p, w, v, row);
  }

  lemma RunBudget(p: Policy, ws: seq<World>, steps: seq<Step>, i: nat)
    requires p.Valid() && Run(p, ws, steps) && Initial(ws[0]) && i <= |steps|
    ensures WithinBudget(p, ws[i])
  {
    var inv := w => WithinBudget(p, w);
    forall w, e | Sound(w) && inv(w) && Allowed(p, w, e)
      ensures inv(Perform(w, e))
    {
      EffectBudget(p, w, e);
    }
    InitialSound(ws[0]);
    assert Good(inv, ws[0]);
    RunKeeps(p, inv, ws, steps, i);
    assert Good(inv, ws[i]);
  }

  /** In every run, any closed interval as long as the restart window holds at most the budgeted number of
      restart attempts on one connector. */
  lemma RestartsLimited(p: Policy, ws: seq<World>, steps: seq<Step>, i: nat, id: Id, a: int)
    requires p.Valid() && Run(p, ws, steps) && Initial(ws[0]) && i <= |steps|
    ensures CountIn(RestartTimes(ws[i].store.history, id), a, a + p.restartWindow) <= p.maxRestarts
  {
    RunBudget(p, ws, steps, i);
    assert Budgeted(p, ws[i].store.history, ws[i].clock, id);
    AtMostInWindow(RestartTimes(ws[i].store.history, id), p.maxRestarts, p.restartWindow, a);
  }

  /** In every run, each health-driven replace of a connector was preceded by the full budget of recorded
      restart attempts within the restart window. */
  lemma ReplacesEarned(p: Policy, ws: seq<World>, steps: seq<Step>, i: nat, j: nat)
    requires p.Valid() && Run(p, ws, steps) && Initial(ws[0]) && i <= |steps| && j < |ws[i].trace|
    requires ws[i].trace[j].ReplaceBegun? && !ws[i].trace[j].manual
    ensures var e := ws[i].trace[j];
            CountIn(RestartTimes(ws[i].store.history, e.id), e.at - p.restartWindow, e.at) >= p.maxRestarts
  {
    RunBudget(p, ws, steps, i);
    assert Earned(p, ws[i].store.history, ws[i].trace[j]);
  }

  // --- cooldowns ------------------------------------------------------------------

  /** A scale-up that load triggered; a floor fill is not one. */
  predicate ByLoad(e: Event, up: bool) { if up then e.ScaledUp? && !e.fill else e.ScaledDown? }

  /** When the effective autoscale actions of one direction happened. */
  function ActionTimes(trace: seq<Event>, up: bool): seq<int> {
    if trace == [] then []
    else
      var (earlier, e) := (ActionTimes(trace[..|trace| - 1], up), trace[|trace| - 1]);
      if ByLoad(e, up) then earlier + [e.at] else earlier
  }

  /** How many connectors those of a closed interval added or removed. */
  function MovedIn(trace: seq<Event>, up: bool, a: int, b: int): nat {
    if trace == [] then 0
    else
      var e := trace[|trace| - 1];
      MovedIn(trace[..|trace| - 1], up, a, b) +
      if ByLoad(e, up) && a <= e.at <= b then (if up then e.added else e.removed) else 0
  }

  function Cooldown(p: Policy, up: bool): int { if up then p.upCooldown else p.downCooldown }

  function LastAction(s: Store, up: bool): Option<int> { if up then s.lastUp else s.lastDown }

  lemma ActionsAppend(trace: seq<Event>, e: Event, up: bool)
    ensures ActionTimes(trace + [e], up) ==
            if ByLoad(e, up) then ActionTimes(trace, up) + [e.at] else ActionTimes(trace, up)
  {
    assert (trace + [e])[..|trace|] == trace;
  }

  /** The actions keep their distance, and the stored time covers them all. */
  ghost predicate Cooled(p: Policy, trace: seq<Event>, last: Option<int>, clock: int, up: bool) {
    var ts := ActionTimes(trace, up);
    && Rising(ts) && Spread(ts, 1, Cooldown(p, up) - 1)
    && (ts != [] ==> last.Some?)
    && (last.Some? ==> last.value <= clock)
    && (forall i :: 0 <= i < |ts| ==> ts[i] <= last.value)
  }

  /** No action moves more than one step. */
  ghost predicate Stepped(p: Policy, trace: seq<Event>, up: bool) {
    forall j :: 0 <= j < |trace| && ByLoad(trace[j], up) ==>
      (if up then trace[j].added else trace[j].removed) <= p.scaleStep
  }

  ghost predicate Paced(p: Policy, w: World, up: bool) {
    Cooled(p, w.trace, LastAction(w.store, up), w.clock, up) && Stepped(p, w.trace, up)
  }

  lemma CooledAppend(p: Policy, trace: seq<Event>, last: Option<int>, clock: int, up: bool, e: Event)
    requires Cooled(p, trace, last, clock, up) && ByLoad(e, up) && e.at == clock
    requires last.Some? ==> clock - last.value >= Cooldown(p, up)
    ensures Cooled(p, trace + [e], Some(clock), clock, up)
  {
    ActionsAppend(trace, e, up);
    if last.Some? {
      SpacedAppend(ActionTimes(trace, up), last.value, Cooldown(p, up), clock);
    }
  }

  /** Events that are not load actions leave the action times alone. */
  lemma {:induction false} PlainEvents(trace: seq<Event>, longer: seq<Event>, up: bool)
    requires trace <= longer
    requires forall j :: |trace| <= j < |longer| ==> !ByLoad(longer[j], up)
    ensures ActionTimes(longer, up) == ActionTimes(trace, up)
  {
    if |trace| == |longer| {
      assert trace == longer;
    } else {
      PlainEvents(trace, longer[..|longer| - 1], up);
    }
  }

  lemma PlainPaced(p: Policy, w: World, v: World, up: bool)
    requires Paced(p, w, up) && w.clock <= v.clock && w.trace <= v.trace
    requires forall j :: |w.trace| <= j < |v.trace| ==> !ByLoad(v.trace[j], up)
    requires LastAction(v.store, up) == LastAction(w.store, up) || LastAction(v.store, up) == Some(v.clock)
    ensures Paced(p, v, up)
  {
    PlainEvents(w.trace, v.trace, up);
  }

  /** Every effect but the announcement of a load action of this direction. */
  predicate Plain(e: Effect, up: bool) { if up then !(e.AutoUp? && !e.fill) else !e.AutoDown? }

  lemma PlainEffect(p: Policy, w: World, e: Effect, up: bool)
    requires Allowed(p, w, e) && Plain(e, up)
    ensures var v := Perform(w, e);
            && w.clock <= v.clock && w.trace <= v.trace
            && (forall j :: |w.trace| <= j < |v.trace| ==> !ByLoad(v.trace[j], up))
            && (LastAction(v.store, up) == LastAction(w.store, up) || LastAction(v.store, up) == Some(v.clock))
  {
  }

  lemma EffectPaced(p: Policy, w: World, e: Effect, up: bool)
    requires Paced(p, w, up) && Allowed(p, w, e)
    ensures Paced(p, Perform(w, e), up)
  {
    if Plain(e, up) {
      PlainEffect(p, w, e, up);
      PlainPaced(p, w, Perform(w, e), up);
    } else {
      var event := if up then ScaledUp(w.clock, e.added, false) else ScaledDown(w.clock, e.removed);
      CooledAppend(p, w.trace, LastAction(w.store, up), w.clock, up, event);
      assert Perform(w, e).trace == w.trace + [event];
    }
  }

  lemma RunPaced(p: Policy, ws: seq<World>, steps: seq<Step>, i: nat, up: bool)
    requires p.Valid() && Run(p, ws, steps) && Initial(ws[0]) && i <= |steps|
    ensures Paced(p, ws[i], up)
  {
    var inv := w => Paced(p, w, up);
    forall w, e | Sound(w) && inv(w) && Allowed(p, w, e)
      ensures inv(Perform(w, e))
    {
      EffectPaced(p, w, e, up);
    }
    InitialSound(ws[0]);
    ActionsAppend([], Adopted(ws[0].cloud.containers), up);
    assert [] + ws[0].trace == ws[0].trace;
    assert Good(inv, ws[0]);
    RunKeeps(p, inv, ws, steps, i);
    assert Good(inv, ws[i]);
  }

  lemma {:induction false} MovedBySteps(p: Policy, trace: seq<Event>, up: bool, a: int, b: int)
    requires p.Valid() && Stepped(p, trace, up)
    ensures MovedIn(trace, up, a, b) <= Repeated(CountIn(ActionTimes(trace, up), a, b), p.scaleStep)
  {
    if trace != [] {
      var init, e := trace[..|trace| - 1], trace[|trace| - 1];
      MovedBySteps(p, init, up, a, b);
      if ByLoad(e, up) {
        CountInAppend(ActionTimes(init, up), e.at, a, b);
      }
    }
  }

  /** In every run, an interval of length `span` holds at most one more load-driven scale-up (or autoscale
      down) than the whole cooldowns that fit in it, and moves at most a step for each. Floor fills are not
      counted: they skip the cooldown, though they arm it. */
  lemma ScalingPaced(p: Policy, ws: seq<World>, steps: seq<Step>, i: nat, up: bool, a: int, span: nat)
    requires p.Valid() && Run(p, ws, steps) && Initial(ws[0]) && i <= |steps| && Cooldown(p, up) > 0
    ensures CountIn(ActionTimes(ws[i].trace, up), a, a + span) <= 1 + span / Cooldown(p, up)
    ensures MovedIn(ws[i].trace, up, a, a + span) <= (1 + span / Cooldown(p, up)) * p.scaleStep
  {
    RunPaced(p, ws, steps, i, up);
    var n := CountIn(ActionTimes(ws[i].trace, up), a, a + span);
    SpacedCount(ActionTimes(ws[i].trace, up), Cooldown(p, up), a, span);
    MovedBySteps(p, ws[i].trace, up, a, a + span);
    RepeatedRises(n, 1 + span / Cooldown(p, up), p.scaleStep);
    RepeatedProduct(1 + span / Cooldown(p, up), p.scaleStep);
  }

  // --- floor fills -----------------------------------------------------------------

  /** Every scale-up is covered by the stored time, and each load-driven one came a cooldown after all before. */
  ghost predicate Rested(p: Policy, w: World) {
    && (w.store.lastUp.Some? ==> w.store.lastUp.value <= w.clock)
    && (forall i :: 0 <= i < |w.trace| && w.trace[i].ScaledUp? ==>
          w.store.lastUp.Some? && w.trace[i].at <= w.store.lastUp.value)
    && (forall i, j :: 0 <= i < j < |w.trace| && w.trace[i].ScaledUp? && w.trace[j].ScaledUp? && !w.trace[j].fill ==>
          w.trace[j].at - w.trace[i].at >= p.upCooldown)
  }

  lemma RestedAppend(p: Policy, w: World, n: nat, fill: bool)
    requires Rested(p, w)
    requires !fill && w.store.lastUp.Some? ==> w.clock - w.store.lastUp.value >= p.upCooldown
    ensures Rested(p, Note(ArmUp(w, w.clock), ScaledUp(w.clock, n, fill)))
  {
  }

  lemma RestedPlain(p: Policy, w: World, v: World)
    requires Rested(p, w) && w.clock <= v.clock && w.trace <= v.trace
    requires forall j :: |w.trace| <= j < |v.trace| ==> !v.trace[j].ScaledUp?
    requires v.store.lastUp == w.store.lastUp || v.store.lastUp == Some(v.clock)
    ensures Rested(p, v)
  {
  }

  lemma OtherEffects(p: Policy, w: World, e: Effect)
    requires Allowed(p, w, e) && !e.AutoUp?
    ensures var v := Perform(w, e);
            && w.clock <= v.clock && w.trace <= v.trace
            && (forall j :: |w.trace| <= j < |v.trace| ==> !v.trace[j].ScaledUp?)
            && (v.store.lastUp == w.store.lastUp || v.store.lastUp == Some(v.clock))
  {
  }

  lemma EffectRested(p: Policy, w: World, e: Effect)
    requires Rested(p, w) && Allowed(p, w, e)
    ensures Rested(p, Perform(w, e))
  {
    if e.AutoUp? {
      RestedAppend(p, w, e.added, e.fill);
    } else {
      OtherEffects(p, w, e);
      RestedPlain(p, w, Perform(w, e));
    }
  }

  /** Floor fills skip the cooldown but arm it: in every run a load-driven scale-up comes at least a cooldown
      after every scale-up before it, floor fills included. */
  lemma FillsArmCooldown(p: Policy, ws: seq<World>, steps: seq<Step>, k: nat, i: nat, j: nat)
    requires p.Valid() && Run(p, ws, steps) && Initial(ws[0]) && k <= |steps| && i < j < |ws[k].trace|
    requires ws[k].trace[i].ScaledUp? && ws[k].trace[j].ScaledUp? && !ws[k].trace[j].fill
    ensures ws[k].trace[j].at - ws[k].trace[i].at >= p.upCooldown
  {
    var inv := w => Rested(p, w);
    forall w, e | Sound(w) && inv(w) && Allowed(p, w, e)
      ensures inv(Perform(w, e))
    {
      EffectRested(p, w, e);
    }
    InitialSound(ws[0]);
    assert Good(inv, ws[0]);
    RunKeeps(p, inv, ws, steps, k);
    assert Good(inv, ws[k]);
  }
}
