/** The health timers are an exact summary of the discoveries: what the duration gate lets through was
    unhealthy at every discovery of the threshold. */
module HealthTimers {
  import opened Basics
  import opened Policies
  import opened Decider
  import opened Fleet
  import opened Effects
  import opened Steps

  /** A sighting shows `id` unhealthy, or merely present. */
  predicate Shows(s: Sighting, id: Id, sick: bool) { if sick then id in s.unhealthy else id in s.present }

  /** Start of the unbroken run of sightings, up to the last one, that show `id`. */
  function StreakStart(ss: seq<Sighting>, id: Id, sick: bool): Option<int> {
    if ss == [] || !Shows(ss[|ss| - 1], id, sick) then None
    else
      match StreakStart(ss[..|ss| - 1], id, sick)
      case None => Some(ss[|ss| - 1].at)
      case Some(t) => Some(t)
  }

  /** `ss[i..]` is the longest unbroken run, up to the last sighting, that shows `id`. */
  ghost predicate LongestStreak(ss: seq<Sighting>, id: Id, sick: bool, i: int) {
    && 0 <= i < |ss|
    && (forall k :: i <= k < |ss| ==> Shows(ss[k], id, sick))
    && (i > 0 ==> !Shows(ss[i - 1], id, sick))
  }

  /** The recursive start is the time at the head of the longest streak; there is none exactly when the last
      sighting does not show `id`. */
  lemma {:induction false} StreakExact(ss: seq<Sighting>, id: Id, sick: bool)
    ensures StreakStart(ss, id, sick).None? <==> ss == [] || !Shows(ss[|ss| - 1], id, sick)
    ensures StreakStart(ss, id, sick).Some? ==>
              exists i :: LongestStreak(ss, id, sick, i) && ss[i].at == StreakStart(ss, id, sick).value
  {
    if ss != [] && Shows(ss[|ss| - 1], id, sick) {
      var init := ss[..|ss| - 1];
      StreakExact(init, id, sick);
      if StreakStart(init, id, sick).Some? {
        var i :| LongestStreak(init, id, sick, i) && init[i].at == StreakStart(init, id, sick).value;
        assert ss[i] == init[i];
        assert i > 0 ==> ss[i - 1] == init[i - 1];
        assert LongestStreak(ss, id, sick, i);
      } else {
        assert LongestStreak(ss, id, sick, |ss| - 1);
      }
    }
  }

  function Timer(m: Memory, sick: bool): map<Id, int> { if sick then m.firstUnhealthy else m.firstSeen }

  function TimerOf(m: Memory, id: Id, sick: bool): Option<int> {
    if id in Timer(m, sick) then Some(Timer(m, sick)[id]) else None
  }

  /** The sightings of the current manager process. */
  function Since(w: World): seq<Sighting> {
    if w.boot <= |w.sightings| then w.sightings[w.boot..] else []
  }

  ghost predicate Timed(w: World) {
    && w.boot <= |w.sightings|
    && forall id, sick :: TimerOf(w.mem, id, sick) == StreakStart(Since(w), id, sick)
  }

  lemma LookTimed(w: World, fleet: seq<Conn>)
    requires Timed(w)
    ensures Timed(Observe(w, fleet, w.clock))
  {
    var v := Observe(w, fleet, w.clock);
    var last := v.sightings[|w.sightings|];
    assert Since(v) == Since(w) + [last];
    forall id, sick
      ensures TimerOf(v.mem, id, sick) == StreakStart(Since(v), id, sick)
    {
      assert Since(v)[..|Since(v)| - 1] == Since(w);
      assert TimerOf(w.mem, id, sick) == StreakStart(Since(w), id, sick);
    }
  }

  lemma SameTimed(w: World, v: World)
    requires Timed(w) && v.sightings == w.sightings && v.boot == w.boot
    requires v.mem.firstSeen == w.mem.firstSeen && v.mem.firstUnhealthy == w.mem.firstUnhealthy
    ensures Timed(v)
  {
    forall id, sick
      ensures TimerOf(v.mem, id, sick) == StreakStart(Since(v), id, sick)
    {
      assert TimerOf(w.mem, id, sick) == StreakStart(Since(w), id, sick);
    }
  }

  lemma EffectTimed(p: Policy, w: World, e: Effect)
    requires Timed(w) && Allowed(p, w, e)
    ensures Timed(Perform(w, e))
  {
    if e.Look? {
      LookTimed(w, e.fleet);
    } else if !e.Rebooted? {
      SameTimed(w, Perform(w, e));
    }
  }

  /** In every run, after any sequence of completed discoveries, each timer is exactly the start of the
      longest unbroken run of discoveries of this manager process, up to the latest, that show the connector
      unhealthy (or present). */
  lemma TimersRefineHistory(p: Policy, ws: seq<World>, steps: seq<Step>, i: nat, id: Id, sick: bool)
    requires p.Valid() && Run(p, ws, steps) && Initial(ws[0]) && i <= |steps|
    ensures var (ss, timer) := (Since(ws[i]), Timer(ws[i].mem, sick));
            && (id in timer <==> ss != [] && Shows(ss[|ss| - 1], id, sick))
            && (id in timer ==> exists k :: LongestStreak(ss, id, sick, k) && ss[k].at == timer[id])
  {
    RunTimed(p, ws, steps, i);
    assert TimerOf(ws[i].mem, id, sick) == StreakStart(Since(ws[i]), id, sick);
    StreakExact(Since(ws[i]), id, sick);
  }

  lemma RunTimed(p: Policy, ws: seq<World>, steps: seq<Step>, i: nat)
    requires p.Valid() && Run(p, ws, steps) && Initial(ws[0]) && i <= |steps|
    ensures Timed(ws[i])
  {
    var inv := w => Timed(w);
    forall w, e | Sound(w) && inv(w) && Allowed(p, w, e)
      ensures inv(Perform(w, e))
    {
      EffectTimed(p, w, e);
    }
    InitialSound(ws[0]);
    assert Good(inv, ws[0]);
    RunKeeps(p, inv, ws, steps, i);
    assert Good(inv, ws[i]);
  }

  // --- what the gate lets through ------------------------------------------------

  /** `id` was unhealthy at every discovery from one no later than `t - p.unhealthyThreshold` to one at `t`. */
  ghost predicate Sustained(p: Policy, sightings: seq<Sighting>, id: Id, t: int) {
    exists i, j :: 0 <= i <= j < |sightings| && Unbroken(sightings, id, i, j)
                   && sightings[i].at <= t - p.unhealthyThreshold && sightings[j].at == t
  }

  ghost predicate Unbroken(sightings: seq<Sighting>, id: Id, i: nat, j: nat) {
    forall k :: i <= k <= j < |sightings| ==> id in sightings[k].unhealthy
  }

  /** Every automatic restart attempt and every automatic replace was sustained. */
  ghost predicate AllSustained(p: Policy, w: World) {
    && (forall j :: 0 <= j < |w.store.history| && w.store.history[j].action == Restart &&
                    w.store.history[j].id.Some? ==>
                      Sustained(p, w.sightings, w.store.history[j].id.value, w.store.history[j].at))
    && (forall j :: 0 <= j < |w.trace| && w.trace[j].ReplaceBegun? && !w.trace[j].manual ==>
                      Sustained(p, w.sightings, w.trace[j].id, w.trace[j].at))
  }

  lemma SustainedStands(p: Policy, sightings: seq<Sighting>, longer: seq<Sighting>, id: Id, t: int)
    requires sightings <= longer && Sustained(p, sightings, id, t)
    ensures Sustained(p, longer, id, t)
  {
    var i, j :| 0 <= i <= j < |sightings| && Unbroken(sightings, id, i, j)
                && sightings[i].at <= t - p.unhealthyThreshold && sightings[j].at == t;
    forall k | i <= k <= j
      ensures id in longer[k].unhealthy
    {
      assert longer[k] == sightings[k];
    }
    assert Unbroken(longer, id, i, j) && longer[i] == sightings[i] && longer[j] == sightings[j];
  }

  lemma GateSustained(p: Policy, w: World, id: Id)
    requires p.Valid() && Timed(w) && HealthGate(p, w, id)
    ensures Sustained(p, w.sightings, id, w.clock)
  {
    var last := |w.sightings| - 1;
    if p.unhealthyThreshold > 0 {
      assert TimerOf(w.mem, id, true) == StreakStart(Since(w), id, true);
      StreakExact(Since(w), id, true);
      var i :| LongestStreak(Since(w), id, true, i) && Since(w)[i].at == w.mem.firstUnhealthy[id];
      forall k | w.boot + i <= k <= last
        ensures id in w.sightings[k].unhealthy
      {
        assert Shows(Since(w)[k - w.boot], id, true);
      }
      assert Unbroken(w.sightings, id, w.boot + i, last);
    } else {
      assert Unbroken(w.sightings, id, last, last);
    }
  }

  lemma SustainedExtends(p: Policy, w: World, v: World)
    requires AllSustained(p, w) && w.sightings <= v.sightings
    requires w.store.history <= v.store.history && w.trace <= v.trace
    requires forall j :: |w.store.history| <= j < |v.store.history| && v.store.history[j].action == Restart &&
                         v.store.history[j].id.Some? ==>
                           Sustained(p, v.sightings, v.store.history[j].id.value, v.store.history[j].at)
    requires forall j :: |w.trace| <= j < |v.trace| && v.trace[j].ReplaceBegun? && !v.trace[j].manual ==>
                           Sustained(p, v.sightings, v.trace[j].id, v.trace[j].at)
    ensures AllSustained(p, v)
  {
    forall j | 0 <= j < |v.store.history| && v.store.history[j].action == Restart && v.store.history[j].id.Some?
      ensures Sustained(p, v.sightings, v.store.history[j].id.value, v.store.history[j].at)
    {
      if j < |w.store.history| {
        assert v.store.history[j] == w.store.history[j];
        SustainedStands(p, w.sightings, v.sightings, v.store.history[j].id.value, v.store.history[j].at);
      }
    }
    forall j | 0 <= j < |v.trace| && v.trace[j].ReplaceBegun? && !v.trace[j].manual
      ensures Sustained(p, v.sightings, v.trace[j].id, v.trace[j].at)
    {
      if j < |w.trace| {
        assert v.trace[j] == w.trace[j];
        SustainedStands(p, w.sightings, v.sightings, v.trace[j].id, v.trace[j].at);
      }
    }
  }

  lemma EffectSustained(p: Policy, w: World, e: Effect)
    requires p.Valid() && AllSustained(p, w) && Timed(w) && Allowed(p, w, e)
    ensures AllSustained(p, Perform(w, e))
  {
    if e.Write? && e.row.action == Restart {
      GateSustained(p, w, e.row.id.value);
    } else if e.Pair? && !e.manual {
      GateSustained(p, w, e.oldId);
    }
    SustainedExtends(p, w, Perform(w, e));
  }

  /** In every run each automatic restart attempt and each health-driven replace of a connector at time `t`
      had that connector unhealthy at every discovery from one at least a threshold old to the one at `t`. */
  lemma RemediationSustained(p: Policy, ws: seq<World>, steps: seq<Step>, i: nat)
    requires p.Valid() && Run(p, ws, steps) && Initial(ws[0]) && i <= |steps|
    ensures AllSustained(p, ws[i])
  {
    var inv := w => Timed(w) && AllSustained(p, w);
    forall w, e | Sound(w) && inv(w) && Allowed(p, w, e)
      ensures inv(Perform(w, e))
    {
      EffectTimed(p, w, e);
      EffectSustained(p, w, e);
    }
    InitialSound(ws[0]);
    assert Good(inv, ws[0]);
    RunKeeps(p, inv, ws, steps, i);
    assert Good(inv, ws[i]);
  }
}
