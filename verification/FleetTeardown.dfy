/** Tearing the whole fleet down: a drain for every active connector, then every drain awaited, in whatever
    order the drains finish. */
module FleetTeardown {
  import opened Basics
  import opened Policies
  import opened Decider
  import opened Fleet
  import opened Effects
  import opened Ledger
  import opened Steps

  /** The drains whose tails the steps finished, and those that removed their container. */
  function Finished(steps: seq<Step>): set<Id> { set s | s in steps && s.DrainTail? :: s.id }

  function Cleared(steps: seq<Step>): set<Id> { set s | s in steps && s.DrainTail? && s.ok :: s.id }

  ghost predicate OnlyTails(steps: seq<Step>) { forall s :: s in steps ==> s.DrainTail? }

  lemma TailsAppend(steps: seq<Step>, s: Step)
    requires s.DrainTail?
    ensures Finished(steps + [s]) == Finished(steps) + {s.id}
    ensures Cleared(steps + [s]) == Cleared(steps) + if s.ok then {s.id} else {}
  {
  }

  /** What the first `i` tails leave of the drains and the containers. */
  ghost predicate TailsTake(first: World, w: World, steps: seq<Step>, i: nat) {
    && w.mem.draining.Keys == first.mem.draining.Keys - Finished(steps)
    && w.cloud.containers == first.cloud.containers - Cleared(steps)
    && |w.mem.draining.Keys| == |first.mem.draining.Keys| - i
  }

  lemma TailTakes(p: Policy, first: World, w: World, earlier: seq<Step>, s: Step, v: World)
    requires TailsTake(first, w, earlier, |earlier|)
    requires s.DrainTail? && Enabled(p, w, s) && v == Apply(p, w, s)
    ensures TailsTake(first, v, earlier + [s], |earlier| + 1)
  {
    TailsAppend(earlier, s);
    TailStep(p, w, s);
  }

  ghost predicate TailKeeps(p: Policy, take: (World, seq<Step>) -> bool) {
    forall w, earlier, s: Step :: take(w, earlier) && s.DrainTail? && Enabled(p, w, s) ==>
      take(Apply(p, w, s), earlier + [s])
  }

  lemma {:induction false} TailFold(p: Policy, take: (World, seq<Step>) -> bool, ws: seq<World>, steps: seq<Step>,
                                    i: nat)
    requires TailKeeps(p, take) && Run(p, ws, steps) && OnlyTails(steps) && i <= |steps| && take(ws[0], [])
    ensures take(ws[i], steps[..i])
  {
    if i > 0 {
      TailFold(p, take, ws, steps, i - 1);
      assert steps[..i] == steps[..i - 1] + [steps[i - 1]];
    } else {
      assert steps[..0] == [];
    }
  }

  lemma TailsExact(p: Policy, ws: seq<World>, steps: seq<Step>, i: nat)
    requires Run(p, ws, steps) && OnlyTails(steps) && i <= |steps|
    ensures TailsTake(ws[0], ws[i], steps[..i], i)
  {
    var first := ws[0];
    var take := (w: World, earlier: seq<Step>) => TailsTake(first, w, earlier, |earlier|);
    forall w, earlier, s: Step | take(w, earlier) && s.DrainTail? && Enabled(p, w, s)
      ensures take(Apply(p, w, s), earlier + [s])
    {
      TailTakes(p, first, w, earlier, s, Apply(p, w, s));
    }
    TailFold(p, take, ws, steps, i);
  }

  lemma TailStep(p: Policy, w: World, s: Step)
    requires Enabled(p, w, s) && s.DrainTail?
    ensures var v := Apply(p, w, s);
            && v.mem.draining.Keys == w.mem.draining.Keys - {s.id}
            && v.cloud.containers == w.cloud.containers - (if s.ok then {s.id} else {})
            && |v.mem.draining.Keys| == |w.mem.draining.Keys| - 1
  {
    assert s.id in w.mem.draining.Keys;
  }

  /** A container that teardown starts no drain for: its deletion failed, or it has no logical connector to
      delete because an earlier drain of it could not remove it. */
  predicate LeftOut(w: World, f: Faults, id: Id) {
    id in w.cloud.containers && id !in w.mem.draining && (id !in w.cloud.logical || id in f.delete)
  }

  lemma TeardownDrains(p: Policy, w: World, at: int, reports: seq<Conn>, f: Faults)
    requires Sound(w) && Accurate(w, reports)
    ensures var v := TeardownStart(w, at, reports, f).0;
            && v.cloud.containers == w.cloud.containers
            && v.mem.draining.Keys == set id | id in w.cloud.containers && !LeftOut(w, f, id)
  {
    ActiveOfExact(w, reports);
    DrainsStarted(w, ActiveOf(w, reports), at, f, ByTeardown);
  }

  lemma StartThenTails(p: Policy, w: World, at: int, reports: seq<Conn>, f: Faults, ws: seq<World>, steps: seq<Step>)
    requires Sound(w) && Accurate(w, reports) && w.clock <= at
    requires Run(p, ws, steps) && OnlyTails(steps) && ws[0] == Apply(p, w, Teardown(at, reports, f))
    ensures ws[0].cloud.containers == w.cloud.containers
    ensures ws[0].mem.draining.Keys == set id | id in w.cloud.containers && !LeftOut(w, f, id)
  {
    TeardownDrains(p, Tick(w, at), at, reports, f);
  }

  /** Teardown finishes after exactly as many drains as it has in flight once it has started them all,
      whatever their order and whether or not each removes its container. What is left then are the
      containers no drain was started for and those whose removal failed. */
  lemma TeardownExact(p: Policy, w: World, at: int, reports: seq<Conn>, f: Faults, ws: seq<World>, steps: seq<Step>)
    requires Sound(w) && Accurate(w, reports) && w.clock <= at
    requires Run(p, ws, steps) && OnlyTails(steps) && ws[0] == Apply(p, w, Teardown(at, reports, f))
    ensures |steps| <= |ws[0].mem.draining|
    ensures ws[|steps|].mem.draining == map[] <==> |steps| == |ws[0].mem.draining|
    ensures ws[|steps|].mem.draining == map[] ==>
              forall id :: id in ws[|steps|].cloud.containers <==>
                LeftOut(w, f, id) || id in Finished(steps) - Cleared(steps)
  {
    StartThenTails(p, w, at, reports, f, ws, steps);
    TailsEnd(p, ws, steps);
  }

  lemma TailsEnd(p: Policy, ws: seq<World>, steps: seq<Step>)
    requires Run(p, ws, steps) && OnlyTails(steps)
    ensures |steps| <= |ws[0].mem.draining|
    ensures ws[|steps|].mem.draining == map[] <==> |steps| == |ws[0].mem.draining|
    ensures Cleared(steps) <= Finished(steps) <= ws[0].mem.draining.Keys
    ensures ws[|steps|].mem.draining == map[] ==> Finished(steps) == ws[0].mem.draining.Keys
    ensures ws[|steps|].cloud.containers == ws[0].cloud.containers - Cleared(steps)
  {
    TailsExact(p, ws, steps, |steps|);
    assert steps[..|steps|] == steps;
    forall id | id in Finished(steps)
      ensures id in ws[0].mem.draining
    {
      TailWasDraining(p, ws, steps, id);
    }
    NoDrains(ws[0].mem.draining, Finished(steps), ws[|steps|].mem.draining, |steps|);
  }

  lemma NoDrains(before: map<Id, int>, done: set<Id>, after: map<Id, int>, n: nat)
    requires done <= before.Keys && after.Keys == before.Keys - done && |after.Keys| == |before.Keys| - n
    ensures n <= |before| && (after == map[] <==> n == |before|)
    ensures after == map[] ==> done == before.Keys
  {
    assert |before| == |before.Keys| && |after| == |after.Keys|;
    if after != map[] {
      var id :| id in after;
      assert id in after.Keys;
    }
  }

  lemma TailWasDraining(p: Policy, ws: seq<World>, steps: seq<Step>, id: Id)
    requires Run(p, ws, steps) && OnlyTails(steps) && id in Finished(steps)
    ensures id in ws[0].mem.draining
  {
    var s :| s in steps && s.DrainTail? && s.id == id;
    var k :| 0 <= k < |steps| && steps[k] == s;
    TailsExact(p, ws, steps, k);
    assert id in ws[k].mem.draining.Keys;
  }

  /** The containers that the remains of failed removals have left stuck. */
  function StuckIds(w: World): set<Id> { set id | id in w.cloud.containers && Stuck(w, id) }

  /** With no faults teardown leaves exactly the containers that were stuck before it, so the fleet is gone
      if and only if none was. */
  lemma TeardownCompletes(p: Policy, w: World, at: int, reports: seq<Conn>, f: Faults, ws: seq<World>, steps: seq<Step>)
    requires Sound(w) && Accurate(w, reports) && w.clock <= at && f.delete == {}
    requires Run(p, ws, steps) && OnlyTails(steps) && ws[0] == Apply(p, w, Teardown(at, reports, f))
    requires ws[|steps|].mem.draining == map[] && forall s :: s in steps ==> s.ok
    ensures ws[|steps|].cloud.containers == StuckIds(w)
  {
    TeardownExact(p, w, at, reports, f, ws, steps);
    assert Cleared(steps) == Finished(steps);
    var v := ws[|steps|];
    forall id
      ensures id in v.cloud.containers <==> Stuck(w, id)
    {
    }
  }
}
