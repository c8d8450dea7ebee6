/** What each override, each provision and each end of a drain leaves behind, and when it is refused. */
module Overrides {
  import opened Basics
  import opened Policies
  import opened Decider
  import opened Fleet
  import opened Effects
  import opened Steps
  import opened Convergence

  // --- who may be taken ------------------------------------------------------------

  /** Nobody cordoned, no old connector and no replacement of a pending replace, and nobody first seen less than a
      startup grace ago. */
  ghost predicate MayGo(p: Policy, m: Memory, c: Conn, now: int) {
    && !c.cordoned && c.id !in m.pending && (forall o :: o in m.pending ==> m.pending[o].newId != c.id)
    && (p.startupGrace > 0 && c.id in m.firstSeen ==> now - m.firstSeen[c.id] >= p.startupGrace)
  }

  lemma MayGoExact(p: Policy, m: Memory, c: Conn, now: int)
    ensures EligibleVictim(p, m, c, now) <==> MayGo(p, m, c, now)
  {
  }

  /** `places` lists, in ascending order, exactly the places of those that may go. */
  ghost predicate Candidates(p: Policy, m: Memory, conns: seq<Conn>, now: int, places: seq<nat>) {
    && (forall j, k :: 0 <= j < k < |places| ==> places[j] < places[k])
    && (forall k :: 0 <= k < |places| ==> places[k] < |conns| && MayGo(p, m, conns[places[k]], now))
    && (forall i :: 0 <= i < |conns| && MayGo(p, m, conns[i], now) ==> i in places)
  }

  lemma CandidatesMore(p: Policy, m: Memory, conns: seq<Conn>, now: int, places: seq<nat>, c: Conn)
    requires Candidates(p, m, conns, now, places)
    ensures MayGo(p, m, c, now) ==> Candidates(p, m, conns + [c], now, places + [|conns|])
    ensures !MayGo(p, m, c, now) ==> Candidates(p, m, conns + [c], now, places)
  {
    var longer, more := conns + [c], places + [|conns|];
    assert more[|places|] == |conns|;
    forall i | 0 <= i < |longer| && MayGo(p, m, longer[i], now)
      ensures i in more && (i < |conns| ==> i in places)
    {
      if i < |conns| {
        assert longer[i] == conns[i] && i in places;
      }
    }
  }

  /** The eligible are exactly those that may go, in discovery order. */
  lemma {:induction false} EligibleInOrder(p: Policy, m: Memory, conns: seq<Conn>, now: int) returns (places: seq<nat>)
    ensures Candidates(p, m, conns, now, places) && |Eligible(p, m, conns, now)| == |places|
    ensures forall k :: 0 <= k < |places| ==> Eligible(p, m, conns, now)[k] == conns[places[k]]
  {
    places := [];
    if conns != [] {
      var init, last := conns[..|conns| - 1], conns[|conns| - 1];
      places := EligibleInOrder(p, m, init, now);
      MayGoExact(p, m, last, now);
      CandidatesMore(p, m, init, now, places, last);
      assert init + [last] == conns;
      if MayGo(p, m, last, now) {
        places := places + [|init|];
      }
    }
  }

  // --- scaling by hand ---------------------------------------------------------------

  /** Up: refused at the ceiling and when nothing starts; otherwise one more connector, and the cooldown armed. */
  lemma HandUpExact(p: Policy, w: World, at: int, reports: seq<Conn>, f: Faults)
    requires InventoryOk(w) && Accurate(w, reports)
    ensures var (v, ok) := ManualUp(p, w, at, reports, f);
            var n := w.cloud.nextId;
            && (ok <==> |ActiveSet(w)| < p.maxConnectors && n !in f.provision)
            && (ok ==> n !in ActiveSet(w) && ActiveSet(v) == ActiveSet(w) + {n} && v.store.lastUp == Some(at))
            && (!ok ==> ActiveSet(v) == ActiveSet(w) && v.store.lastUp == w.store.lastUp)
            && v.store.lastDown == w.store.lastDown && (|ActiveSet(w)| >= p.maxConnectors ==> v == w)
  {
    ActiveOfExact(w, reports);
    CountIsActive(w, ActiveOf(w, reports));
  }

  /** The connector that a scale-down by hand would take: the first that may go. */
  ghost predicate FirstToGo(p: Policy, m: Memory, conns: seq<Conn>, now: int, i: nat) {
    && i < |conns| && MayGo(p, m, conns[i], now)
    && forall j :: 0 <= j < i ==> !MayGo(p, m, conns[j], now)
  }

  lemma FirstIsFirst(p: Policy, m: Memory, conns: seq<Conn>, now: int, i: nat)
    requires FirstToGo(p, m, conns, now, i)
    ensures PickVictims(p, m, conns, 1, now) == [conns[i]]
  {
    var places := EligibleInOrder(p, m, conns, now);
    assert i in places;
    assert MayGo(p, m, conns[places[0]], now) && places[0] <= i;
  }

  lemma {:induction false} NobodyGoes(p: Policy, m: Memory, conns: seq<Conn>, now: int)
    requires forall i :: 0 <= i < |conns| ==> !MayGo(p, m, conns[i], now)
    ensures Eligible(p, m, conns, now) == []
  {
    if conns != [] {
      NobodyGoes(p, m, conns[..|conns| - 1], now);
      MayGoExact(p, m, conns[|conns| - 1], now);
    }
  }

  /** Down: refused at the floor as counted, and when nobody may go; otherwise the first that may go begins to
      drain and the cooldown is armed, or its deletion fails and neither happens. */
  lemma HandDownTakes(p: Policy, w: World, at: int, reports: seq<Conn>, f: Faults, i: nat)
    requires Accurate(w, reports) && FirstToGo(p, w.mem, ActiveOf(w, reports), at, i)
    ensures var (v, ok) := ManualDown(p, w, at, reports, f);
            var id := ActiveOf(w, reports)[i].id;
            && (ok <==> |ActiveSet(w)| > p.minConnectors && id in w.cloud.logical && id !in f.delete)
            && (ok ==> id in ActiveSet(w) && ActiveSet(v) == ActiveSet(w) - {id} && v.store.lastDown == Some(at))
            && (!ok ==> ActiveSet(v) == ActiveSet(w) && v.store.lastDown == w.store.lastDown)
            && v.store.lastUp == w.store.lastUp
  {
    var conns := ActiveOf(w, reports);
    ActiveOfExact(w, reports);
    CountIsActive(w, conns);
    FirstIsFirst(p, w.mem, conns, at, i);
    assert conns[i] in conns && conns[i].id in Ids(conns);
  }

  lemma HandDownRefused(p: Policy, w: World, at: int, reports: seq<Conn>, f: Faults)
    requires forall i :: 0 <= i < |ActiveOf(w, reports)| ==> !MayGo(p, w.mem, ActiveOf(w, reports)[i], at)
    ensures ManualDown(p, w, at, reports, f) == (w, false)
  {
    NobodyGoes(p, w.mem, ActiveOf(w, reports), at);
  }

  // --- replacing and cordoning by hand --------------------------------------------------

  /** A replace by hand: refused for an unknown connector and for one being replaced; otherwise the replacement is
      brought up and the replace registered last, or, if nothing starts, none is. */
  lemma HandReplaceExact(w: World, id: Id, at: int, reports: seq<Conn>, f: Faults)
    requires Accurate(w, reports)
    ensures var (v, ok) := ManualReplace(w, id, at, reports, f);
            var n := w.cloud.nextId;
            && (ok <==> id in w.cloud.containers && id !in w.mem.pending && n !in f.provision)
            && (ok ==> v.cloud == Cloud(n + 1, w.cloud.containers + {n}, w.cloud.logical + {n})
                       && v.mem == w.mem.(pending := w.mem.pending[id := Pending(n, at)], order := w.mem.order + [id]))
            && (!ok ==> v.mem == w.mem && v.cloud.containers == w.cloud.containers)
            && (id !in w.cloud.containers || id in w.mem.pending ==> v == w)
  {
    DiscoverExact(reports, w.store.cordons);
  }

  /** A cordon is set for a known connector only; lifting one always works; each is recorded. */
  lemma HandCordonExact(w: World, id: Id, cordoned: bool, at: int, reports: seq<Conn>)
    requires Accurate(w, reports)
    ensures var (v, ok) := ManualCordon(w, id, cordoned, at, reports);
            && (ok <==> !cordoned || id in w.cloud.containers)
            && (ok ==> (forall x :: x in v.store.cordons <==> if x == id then cordoned else x in w.store.cordons)
                       && |v.store.history| == |w.store.history| + 1
                       && v.store.history[|w.store.history|].id == Some(id))
            && (!ok ==> v == w)
            && v.cloud == w.cloud && v.mem == w.mem && v.trace == w.trace
  {
    DiscoverExact(reports, w.store.cordons);
  }

  // --- provisions, drains and teardown ------------------------------------------------------

  /** What a provision leaves: nothing if the create fails, a logical connector without a container if a later call
      does, and both if none does. It is recorded either way. */
  lemma ProvisionLeaves(w: World, at: int, f: Faults)
    requires InventoryOk(w)
    ensures var (v, id) := ProvisionOne(w, at, f);
            var n := w.cloud.nextId;
            && (n in v.cloud.logical <==> n !in f.provision || f.provision[n] != CreateFails)
            && (n in v.cloud.containers <==> n !in f.provision)
            && (id == if n in f.provision then None else Some(n))
            && (forall x :: x != n ==> (x in v.cloud.logical <==> x in w.cloud.logical)
                                       && (x in v.cloud.containers <==> x in w.cloud.containers))
            && v.store.history == w.store.history + [Row(at, Provision, id, id.Some?)] && v.mem == w.mem
  {
  }

  /** What the end of a drain leaves: no container and no cordon if it works, both if it does not. The drain is over
      either way, and recorded under the time it began. */
  lemma DrainLeaves(w: World, id: Id, at: int, ok: bool)
    requires id in w.mem.draining
    ensures var v := FinishDrain(w, id, at, ok);
            && v.mem.draining.Keys == w.mem.draining.Keys - {id} && v.cloud.logical == w.cloud.logical
            && (id in v.cloud.containers <==> id in w.cloud.containers && !ok)
            && (id in v.store.cordons <==> id in w.store.cordons && !ok)
            && (forall x :: x != id ==> (x in v.cloud.containers <==> x in w.cloud.containers)
                                        && (x in v.store.cordons <==> x in w.store.cordons))
            && v.store.history == w.store.history + [Row(w.mem.draining[id], Deprovision, Some(id), ok)]
  {
  }

  /** A restart leaves a row that says whether it worked, and nothing else. */
  lemma RestartLeaves(w: World, id: Id, at: int, f: Faults)
    ensures var v := Remediate(w, HealthAction(id, RestartInPlace), at, f);
            && v.store.history == w.store.history + [Row(at, Restart, Some(id), id !in f.restart)]
            && v.cloud == w.cloud && v.mem == w.mem && v.trace == w.trace && v.store.cordons == w.store.cordons
  {
  }

  /** A completion that works leaves the old connector in mid-drain and the replace over; one that does not leaves
      both as they were. Its last row says which. */
  lemma CompletionLeaves(p: Policy, w: World, conns: seq<Conn>, o: Id, at: int, f: Faults)
    requires o in w.mem.pending && o in Ids(conns) && w.mem.pending[o].newId in HealthyIds(conns)
    ensures var v := AdvanceReplace(p, w, conns, o, at, f);
            var works := o in w.cloud.logical && o !in f.delete;
            && v.store.history != [] && v.store.history[|v.store.history| - 1] == Row(at, Replace, Some(o), works)
            && (works ==> v.mem.draining == w.mem.draining[o := at] && v.mem.pending == w.mem.pending - {o})
            && (!works ==> v.mem == w.mem && v.cloud == w.cloud)
  {
  }

  /** Teardown reports as many drains as it starts: one for each active connector that can be deleted. */
  lemma TeardownStarts(w: World, at: int, reports: seq<Conn>, f: Faults)
    requires Accurate(w, reports)
    ensures TeardownStart(w, at, reports, f).1 ==
            |set id | id in ActiveSet(w) && id in w.cloud.logical && id !in f.delete|
  {
    var conns := ActiveOf(w, reports);
    ActiveOfExact(w, reports);
    StartedExact(w, conns, at, f, ByTeardown);
    RemovableIds(conns, w.cloud.logical, f);
    assert Removable(conns, w.cloud.logical, f) ==
           set id | id in ActiveSet(w) && id in w.cloud.logical && id !in f.delete;
  }
}
