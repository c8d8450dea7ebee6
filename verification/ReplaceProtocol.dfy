/** The wait-for-healthy replace: who may be torn down, when, and on what evidence. */
module ReplaceProtocol {
  import opened Basics
  import opened Policies
  import opened Decider
  import opened Fleet
  import opened Effects
  import opened Steps

  // --- the shape of the pending replaces --------------------------------------

  /** Follows the pending replaces from `id`, at most `hops` times. */
  function Follow(pending: map<Id, Pending>, id: Id, hops: nat): Id
    decreases hops
  {
    if hops == 0 || id !in pending then id else Follow(pending, pending[id].newId, hops - 1)
  }

  lemma {:induction false} FollowRises(w: World, id: Id, hops: nat)
    requires Younger(w) && id in w.mem.pending && hops > 0
    ensures Follow(w.mem.pending, id, hops) > id
    decreases hops
  {
    var next := w.mem.pending[id].newId;
    if hops > 1 && next in w.mem.pending {
      FollowRises(w, next, hops - 1);
    }
  }

  /** `x` comes before `y` in `s`. */
  ghost predicate Before(s: seq<Id>, x: Id, y: Id) {
    s != [] &&
    var init := s[..|s| - 1];
    Before(init, x, y) || (s[|s| - 1] == y && x in init)
  }

  lemma BeforeAppend(s: seq<Id>, z: Id, x: Id, y: Id)
    ensures Before(s + [z], x, y) <==> Before(s, x, y) || (z == y && x in s)
  {
    assert (s + [z])[..|s|] == s;
  }

  lemma {:induction false} BeforeWithout(s: seq<Id>, z: Id, x: Id, y: Id)
    requires x != z && y != z && Before(s, x, y)
    ensures Before(Without(s, z), x, y)
  {
    var init, last := s[..|s| - 1], s[|s| - 1];
    if last != z {
      BeforeAppend(Without(init, z), last, x, y);
    }
    if Before(init, x, y) {
      BeforeWithout(init, z, x, y);
    }
  }

  /** Each replace is registered before the replace of its own replacement. */
  ghost predicate InOrder(w: World) {
    forall o :: o in w.mem.pending && w.mem.pending[o].newId in w.mem.pending ==>
      Before(w.mem.order, o, w.mem.pending[o].newId)
  }

  lemma ReleaseInOrder(w: World, o: Id)
    requires InOrder(w) && o in w.mem.pending
    ensures InOrder(DropPending(w, o))
  {
    var v := DropPending(w, o);
    forall x | x in v.mem.pending && v.mem.pending[x].newId in v.mem.pending
      ensures Before(v.mem.order, x, v.mem.pending[x].newId)
    {
      BeforeWithout(w.mem.order, o, x, w.mem.pending[x].newId);
    }
  }

  lemma PairInOrder(w: World, o: Id, f: Faults, manual: bool)
    requires InOrder(w) && OrderOk(w) && Younger(w) && o !in w.mem.pending && o < w.cloud.nextId
    ensures InOrder(BeginReplace(w, o, w.clock, f, manual).0)
  {
    var v := BeginReplace(w, o, w.clock, f, manual).0;
    forall x | x in v.mem.pending && v.mem.pending[x].newId in v.mem.pending
      ensures Before(v.mem.order, x, v.mem.pending[x].newId)
    {
      assert w.cloud.nextId !in w.mem.pending;
      BeforeAppend(w.mem.order, o, x, v.mem.pending[x].newId);
    }
  }

  lemma EffectInOrder(p: Policy, w: World, e: Effect)
    requires InOrder(w) && Sound(w) && Allowed(p, w, e)
    ensures InOrder(Perform(w, e))
  {
    if e.Release? {
      ReleaseInOrder(w, e.oldId);
    } else if e.Pair? {
      PairInOrder(w, e.oldId, e.f, e.manual);
    }
  }

  lemma RunInOrder(p: Policy, ws: seq<World>, steps: seq<Step>, i: nat)
    requires p.Valid() && Run(p, ws, steps) && Initial(ws[0]) && i <= |steps|
    ensures Sound(ws[i]) && InOrder(ws[i])
  {
    var inv := w => InOrder(w);
    forall w, e | Sound(w) && inv(w) && Allowed(p, w, e)
      ensures inv(Perform(w, e))
    {
      EffectInOrder(p, w, e);
    }
    InitialSound(ws[0]);
    assert Good(inv, ws[0]);
    RunKeeps(p, inv, ws, steps, i);
    assert Good(inv, ws[i]);
  }

  /** In every reachable world the pending replaces are disjoint paths in creation order: no two share a
      replacement, following replacements from a connector never leads back to it, and a replace is visited
      before the replace of its own replacement. */
  lemma PendingFormsPaths(p: Policy, ws: seq<World>, steps: seq<Step>, i: nat, a: Id, b: Id, hops: nat)
    requires p.Valid() && Run(p, ws, steps) && Initial(ws[0]) && i <= |steps|
    requires a in ws[i].mem.pending && b in ws[i].mem.pending && hops > 0
    ensures a != b ==> ws[i].mem.pending[a].newId != ws[i].mem.pending[b].newId
    ensures Follow(ws[i].mem.pending, a, hops) > a
    ensures ws[i].mem.pending[a].newId < ws[i].cloud.nextId
    ensures ws[i].mem.pending[a].newId == b ==> Before(ws[i].mem.order, a, b)
  {
    RunInOrder(p, ws, steps, i);
    FollowRises(ws[i], a, hops);
  }

  // --- evidence for each teardown ---------------------------------------------

  /** A replace of `o` by `n` began at or before `latest`. */
  ghost predicate Begun(trace: seq<Event>, o: Id, n: Id, latest: int) {
    exists k :: 0 <= k < |trace| && trace[k].ReplaceBegun? && trace[k].id == o && trace[k].newId == n &&
                trace[k].at <= latest
  }

  /** A cycle's discovery at `at` showed `id` healthy, or did not. */
  ghost predicate Sighted(sightings: seq<Sighting>, at: int, id: Id, healthy: bool) {
    exists k :: 0 <= k < |sightings| && sightings[k].at == at && (id in sightings[k].healthy <==> healthy)
  }

  /** An old connector goes only when its own replacement was just seen healthy; a replacement goes only
      when its own attempt has timed out without it being healthy. */
  ghost predicate Warranted(p: Policy, trace: seq<Event>, sightings: seq<Sighting>, e: Event) {
    match e
    case Deleted(id, at, ByReplace(n)) => Begun(trace, id, n, at) && Sighted(sightings, at, n, true)
    case Deleted(id, at, ByTimeout(o)) =>
      Begun(trace, o, id, at - p.replaceTimeout) && Sighted(sightings, at, id, false)
    case ReplaceBegun(o, n, _, _) => o < n
    case _ => true
  }

  lemma WarrantStands(p: Policy, trace: seq<Event>, sightings: seq<Sighting>, trace': seq<Event>,
                      sightings': seq<Sighting>, e: Event)
    requires trace <= trace' && sightings <= sightings' && Warranted(p, trace, sightings, e)
    ensures Warranted(p, trace', sightings', e)
  {
    match e
    case Deleted(id, at, ByReplace(n)) =>
      BegunStands(trace, trace', id, n, at);
      SightedStands(sightings, sightings', at, n, true);
    case Deleted(id, at, ByTimeout(o)) =>
      BegunStands(trace, trace', o, id, at - p.replaceTimeout);
      SightedStands(sightings, sightings', at, id, false);
    case _ =>
  }

  lemma BegunStands(trace: seq<Event>, trace': seq<Event>, o: Id, n: Id, latest: int)
    requires trace <= trace' && Begun(trace, o, n, latest)
    ensures Begun(trace', o, n, latest)
  {
    var k :| 0 <= k < |trace| && trace[k].ReplaceBegun? && trace[k].id == o && trace[k].newId == n &&
             trace[k].at <= latest;
    assert trace'[k] == trace[k];
  }

  lemma SightedStands(sightings: seq<Sighting>, sightings': seq<Sighting>, at: int, id: Id, healthy: bool)
    requires sightings <= sightings' && Sighted(sightings, at, id, healthy)
    ensures Sighted(sightings', at, id, healthy)
  {
    var k :| 0 <= k < |sightings| && sightings[k].at == at && (id in sightings[k].healthy <==> healthy);
    assert sightings'[k] == sightings[k];
  }

  ghost predicate Evidence(p: Policy, w: World) {
    && (forall j :: 0 <= j < |w.trace| ==> Warranted(p, w.trace, w.sightings, w.trace[j]))
    && (forall o :: o in w.mem.pending ==> Begun(w.trace, o, w.mem.pending[o].newId, w.mem.pending[o].startedAt))
  }

  /** The worlds agree except that the record may be longer; the new entries carry their own warrant. */
  lemma EvidenceExtends(p: Policy, w: World, v: World)
    requires Evidence(p, w) && w.trace <= v.trace && w.sightings <= v.sightings
    requires forall j :: |w.trace| <= j < |v.trace| ==> Warranted(p, v.trace, v.sightings, v.trace[j])
    requires forall o :: o in v.mem.pending ==>
        (o in w.mem.pending && v.mem.pending[o] == w.mem.pending[o])
        || Begun(v.trace, o, v.mem.pending[o].newId, v.mem.pending[o].startedAt)
    ensures Evidence(p, v)
  {
    forall j | 0 <= j < |v.trace|
      ensures Warranted(p, v.trace, v.sightings, v.trace[j])
    {
      if j < |w.trace| {
        WarrantStands(p, w.trace, w.sightings, v.trace, v.sightings, w.trace[j]);
      }
    }
    forall o | o in v.mem.pending
      ensures Begun(v.trace, o, v.mem.pending[o].newId, v.mem.pending[o].startedAt)
    {
      if o in w.mem.pending && v.mem.pending[o] == w.mem.pending[o] {
        BegunStands(w.trace, v.trace, o, w.mem.pending[o].newId, w.mem.pending[o].startedAt);
      }
    }
  }

  lemma PairEvidence(p: Policy, w: World, o: Id, f: Faults, manual: bool)
    requires Evidence(p, w) && Sound(w) && o in w.cloud.containers
    ensures Evidence(p, BeginReplace(w, o, w.clock, f, manual).0)
  {
    var (v, ok) := BeginReplace(w, o, w.clock, f, manual);
    if ok {
      assert v.trace[|v.trace| - 1] == ReplaceBegun(o, w.cloud.nextId, w.clock, manual);
      assert Begun(v.trace, o, w.cloud.nextId, w.clock);
    }
    EvidenceExtends(p, w, v);
  }

  lemma ShrinkWarranted(p: Policy, w: World, e: Effect, e': Event)
    requires Evidence(p, w) && Sound(w) && e.Shrink? && Allowed(p, w, e) && e' == Deleted(e.id, w.clock, e.cause)
    ensures Warranted(p, w.trace, w.sightings, e')
  {
    match e.cause
    case ByReplace(n) =>
      BegunLater(w.trace, e.id, n, w.mem.pending[e.id].startedAt, w.clock);
      assert w.sightings[|w.sightings| - 1].at == w.clock;
    case ByTimeout(o) =>
      BegunLater(w.trace, o, e.id, w.mem.pending[o].startedAt, w.clock - p.replaceTimeout);
      assert w.sightings[|w.sightings| - 1].at == w.clock;
    case _ =>
  }

  lemma ShrinkEvidence(p: Policy, w: World, e: Effect)
    requires Evidence(p, w) && Sound(w) && e.Shrink? && Allowed(p, w, e)
    ensures Evidence(p, Perform(w, e))
  {
    var v := Perform(w, e);
    if e.id in w.cloud.logical && e.subject !in e.f.delete {
      var last := Deleted(e.id, w.clock, e.cause);
      ShrinkWarranted(p, w, e, last);
      WarrantStands(p, w.trace, w.sightings, v.trace, v.sightings, last);
    }
    EvidenceExtends(p, w, v);
  }

  lemma BegunLater(trace: seq<Event>, o: Id, n: Id, t: int, latest: int)
    requires Begun(trace, o, n, t) && t <= latest
    ensures Begun(trace, o, n, latest)
  {
    var k :| 0 <= k < |trace| && trace[k].ReplaceBegun? && trace[k].id == o && trace[k].newId == n && trace[k].at <= t;
  }

  lemma EffectEvidence(p: Policy, w: World, e: Effect)
    requires Evidence(p, w) && Sound(w) && Allowed(p, w, e)
    ensures Evidence(p, Perform(w, e))
  {
    if e.Pair? {
      PairEvidence(p, w, e.oldId, e.f, e.manual);
    } else if e.Shrink? {
      ShrinkEvidence(p, w, e);
    } else {
      EvidenceExtends(p, w, Perform(w, e));
    }
  }

  /** In every run: an old connector is deleted for a replace only at a discovery that shows its own
      replacement alive and not docker-unhealthy, and a timeout deletes only that attempt's replacement, a
      full timeout after the attempt began, at a discovery that does not show it healthy. */
  lemma TeardownsWarranted(p: Policy, ws: seq<World>, steps: seq<Step>, i: nat, j: nat)
    requires p.Valid() && Run(p, ws, steps) && Initial(ws[0]) && i <= |steps| && j < |ws[i].trace|
    ensures Warranted(p, ws[i].trace, ws[i].sightings, ws[i].trace[j])
  {
    var inv := w => Evidence(p, w);
    forall w, e | Sound(w) && inv(w) && Allowed(p, w, e)
      ensures inv(Perform(w, e))
    {
      EffectEvidence(p, w, e);
    }
    InitialSound(ws[0]);
    assert Good(inv, ws[0]);
    RunKeeps(p, inv, ws, steps, i);
    assert Good(inv, ws[i]);
  }

  // --- which attempt a teardown ends ----------------------------------------------

  /** One attempt to replace a connector. */
  datatype Attempt = Attempt(newId: Id, startedAt: int)

  /** The latest attempt to replace `o`. */
  function LatestAttempt(trace: seq<Event>, o: Id): Option<Attempt> {
    if trace == [] then None
    else
      var e := trace[|trace| - 1];
      if e.ReplaceBegun? && e.id == o then Some(Attempt(e.newId, e.at)) else LatestAttempt(trace[..|trace| - 1], o)
  }

  /** A deletion by a replace, for health or for a timeout, ends the latest attempt for that connector, and a
      timeout not before it is due. */
  ghost predicate EndsLatest(p: Policy, before: seq<Event>, e: Event) {
    match e
    case Deleted(id, at, ByReplace(n)) =>
      LatestAttempt(before, id).Some? && LatestAttempt(before, id).value.newId == n
    case Deleted(id, at, ByTimeout(o)) =>
      var latest := LatestAttempt(before, o);
      latest.Some? && latest.value.newId == id && at - latest.value.startedAt >= p.replaceTimeout
    case _ => true
  }

  /** Every deletion so far ended the attempt that was the latest at that point, and each pending replace is the
      latest attempt now. */
  ghost predicate UpToDate(p: Policy, w: World) {
    && (forall j :: 0 <= j < |w.trace| ==> EndsLatest(p, w.trace[..j], w.trace[j]))
    && (forall o :: o in w.mem.pending ==>
          LatestAttempt(w.trace, o) == Some(Attempt(w.mem.pending[o].newId, w.mem.pending[o].startedAt)))
  }

  lemma {:induction false} LatestStands(trace: seq<Event>, longer: seq<Event>, o: Id)
    requires trace <= longer
    requires forall j :: |trace| <= j < |longer| ==> !(longer[j].ReplaceBegun? && longer[j].id == o)
    ensures LatestAttempt(longer, o) == LatestAttempt(trace, o)
  {
    if |trace| == |longer| {
      assert trace == longer;
    } else {
      LatestStands(trace, longer[..|longer| - 1], o);
    }
  }

  /** Events that neither begin nor end an attempt, with the pending replaces as they were or fewer. */
  lemma UpToDateExtends(p: Policy, w: World, v: World)
    requires UpToDate(p, w) && w.trace <= v.trace
    requires forall j :: |w.trace| <= j < |v.trace| ==>
               !v.trace[j].ReplaceBegun? && EndsLatest(p, v.trace[..j], v.trace[j])
    requires forall o :: o in v.mem.pending ==> o in w.mem.pending && v.mem.pending[o] == w.mem.pending[o]
    ensures UpToDate(p, v)
  {
    forall j | 0 <= j < |v.trace|
      ensures EndsLatest(p, v.trace[..j], v.trace[j])
    {
      if j < |w.trace| {
        assert v.trace[..j] == w.trace[..j] && v.trace[j] == w.trace[j];
      }
    }
    forall o | o in v.mem.pending
      ensures LatestAttempt(v.trace, o) == Some(Attempt(v.mem.pending[o].newId, v.mem.pending[o].startedAt))
    {
      LatestStands(w.trace, v.trace, o);
    }
  }

  lemma ShrinkUpToDate(p: Policy, w: World, e: Effect)
    requires UpToDate(p, w) && e.Shrink? && Allowed(p, w, e)
    ensures UpToDate(p, Perform(w, e))
  {
    var v := Perform(w, e);
    if e.id in w.cloud.logical && e.subject !in e.f.delete {
      assert v.trace[..|w.trace|] == w.trace;
      assert EndsLatest(p, w.trace, Deleted(e.id, w.clock, e.cause));
    }
    UpToDateExtends(p, w, v);
  }

  lemma GrowUpToDate(p: Policy, w: World, f: Faults)
    requires UpToDate(p, w)
    ensures UpToDate(p, ProvisionOne(w, w.clock, f).0)
  {
    UpToDateExtends(p, w, ProvisionOne(w, w.clock, f).0);
  }

  lemma PairUpToDate(p: Policy, w: World, o: Id, f: Faults, manual: bool)
    requires UpToDate(p, w)
    ensures UpToDate(p, BeginReplace(w, o, w.clock, f, manual).0)
  {
    var (x, id) := ProvisionOne(w, w.clock, f);
    GrowUpToDate(p, w, f);
    if id.Some? {
      BegunUpToDate(p, x, BeginReplace(w, o, w.clock, f, manual).0, o, id.value, manual);
    }
  }

  lemma BegunUpToDate(p: Policy, x: World, v: World, o: Id, n: Id, manual: bool)
    requires UpToDate(p, x) && v.trace == x.trace + [ReplaceBegun(o, n, x.clock, manual)]
    requires v.mem.pending == x.mem.pending[o := Pending(n, x.clock)]
    ensures UpToDate(p, v)
  {
    var longer := v.trace;
    assert longer[..|x.trace|] == x.trace;
    forall j | 0 <= j < |longer|
      ensures EndsLatest(p, longer[..j], longer[j])
    {
      if j < |x.trace| {
        assert longer[..j] == x.trace[..j];
      }
    }
    forall y | y in x.mem.pending && y != o
      ensures LatestAttempt(longer, y) == LatestAttempt(x.trace, y)
    {
      LatestStands(x.trace, longer, y);
    }
  }

  lemma EffectUpToDate(p: Policy, w: World, e: Effect)
    requires UpToDate(p, w) && Allowed(p, w, e)
    ensures UpToDate(p, Perform(w, e))
  {
    if e.Pair? {
      PairUpToDate(p, w, e.oldId, e.f, e.manual);
    } else if e.Shrink? {
      ShrinkUpToDate(p, w, e);
    } else if e.Grow? {
      GrowUpToDate(p, w, e.f);
    } else {
      UpToDateExtends(p, w, Perform(w, e));
    }
  }

  /** In every run each deletion made by a replace ends the latest attempt begun for that connector: a
      completion deletes it for that attempt's own replacement, and a timeout deletes that replacement, a full
      timeout after that attempt began. */
  lemma TeardownsEndLatest(p: Policy, ws: seq<World>, steps: seq<Step>, i: nat, j: nat)
    requires p.Valid() && Run(p, ws, steps) && Initial(ws[0]) && i <= |steps| && j < |ws[i].trace|
    ensures EndsLatest(p, ws[i].trace[..j], ws[i].trace[j])
  {
    var inv := w => UpToDate(p, w);
    forall w, e | Sound(w) && inv(w) && Allowed(p, w, e)
      ensures inv(Perform(w, e))
    {
      EffectUpToDate(p, w, e);
    }
    InitialSound(ws[0]);
    assert Good(inv, ws[0]);
    RunKeeps(p, inv, ws, steps, i);
    assert Good(inv, ws[i]);
  }

  // --- no wedge ----------------------------------------------------------------

  ghost predicate Failed(history: seq<Row>, since: nat, at: int, id: Id) {
    exists k :: since <= k < |history| && history[k] == Row(at, Deprovision, Some(id), false)
  }

  /** If `o` is still pending, its attempt is young, or its replacement was seen healthy and deleting `o`
      failed after the first `since` rows of the history. */
  ghost predicate Settled(p: Policy, w: World, conns: seq<Conn>, since: nat, o: Id) {
    o in w.mem.pending ==>
      || w.clock - w.mem.pending[o].startedAt < p.replaceTimeout
      || (w.mem.pending[o].newId in HealthyIds(conns) && Failed(w.store.history, since, w.clock, o))
  }

  lemma FailedStands(history: seq<Row>, history': seq<Row>, since: nat, at: int, id: Id)
    requires history <= history' && Failed(history, since, at, id)
    ensures Failed(history', since, at, id)
  {
    var k :| since <= k < |history| && history[k] == Row(at, Deprovision, Some(id), false);
    assert history'[k] == history[k];
  }

  /** A pending replace that one phase leaves as it was stays settled. */
  lemma SettledStands(p: Policy, w: World, v: World, conns: seq<Conn>, since: nat, o: Id)
    requires Settled(p, w, conns, since, o) && v.clock == w.clock && w.store.history <= v.store.history
    requires o in v.mem.pending ==> o in w.mem.pending && v.mem.pending[o] == w.mem.pending[o]
    ensures Settled(p, v, conns, since, o)
  {
    if o in v.mem.pending && w.clock - w.mem.pending[o].startedAt >= p.replaceTimeout {
      FailedStands(w.store.history, v.store.history, since, w.clock, o);
    }
  }

  lemma AdvanceSettles(p: Policy, w: World, conns: seq<Conn>, o: Id, f: Faults, since: nat)
    requires o in w.mem.pending && since <= |w.store.history|
    ensures var v := AdvanceReplace(p, w, conns, o, w.clock, f);
            && Settled(p, v, conns, since, o)
            && v.clock == w.clock && w.store.history <= v.store.history
            && forall x :: x in v.mem.pending ==> x in w.mem.pending && v.mem.pending[x] == w.mem.pending[x]
  {
    var v := AdvanceReplace(p, w, conns, o, w.clock, f);
    if o in v.mem.pending && w.mem.pending[o].newId in HealthyIds(conns) && o in Ids(conns) {
      assert v.store.history[|w.store.history|] == Row(w.clock, Deprovision, Some(o), false);
    }
  }

  lemma {:induction false} AdvancesSettle(p: Policy, w: World, conns: seq<Conn>, keys: seq<Id>, f: Faults, since: nat)
    requires since <= |w.store.history|
    ensures var v := AdvanceReplaces(p, w, conns, keys, w.clock, f);
            && (forall o :: o in keys ==> Settled(p, v, conns, since, o))
            && v.clock == w.clock && w.store.history <= v.store.history
            && forall x :: x in v.mem.pending ==> x in w.mem.pending && v.mem.pending[x] == w.mem.pending[x]
  {
    if keys != [] {
      var init, last := keys[..|keys| - 1], keys[|keys| - 1];
      AdvancesSettle(p, w, conns, init, f, since);
      var before := AdvanceReplaces(p, w, conns, init, w.clock, f);
      var v := AdvanceReplaces(p, w, conns, keys, w.clock, f);
      if last in before.mem.pending {
        AdvanceSettles(p, before, conns, last, f, since);
      }
      forall o | o in keys
        ensures Settled(p, v, conns, since, o)
      {
        if o != last {
          assert o in init;
          SettledStands(p, before, v, conns, since, o);
        }
      }
    }
  }

  lemma {:induction false} RemediatesSettle(p: Policy, w: World, conns: seq<Conn>, actions: seq<HealthAction>,
                                            at: int, f: Faults, since: nat, o: Id)
    requires p.Valid() && w.clock == at && Settled(p, w, conns, since, o)
    ensures var v := RemediateAll(w, actions, at, f);
            && Settled(p, v, conns, since, o) && v.clock == at
  {
    if actions != [] {
      var init, a := actions[..|actions| - 1], actions[|actions| - 1];
      RemediatesSettle(p, w, conns, init, at, f, since, o);
      var before := RemediateAll(w, init, at, f);
      var v := Remediate(before, a, at, f);
      if !(a.kind == ReplaceNew && a.id == o) || v.mem == before.mem {
        SettledStands(p, before, v, conns, since, o);
      }
    }
  }

  /** No pending replace is wedged: after any cycle at `at`, each one is younger than the timeout, or its
      replacement was seen healthy and deleting the old connector failed in this very cycle. */
  lemma NothingWedged(p: Policy, w: World, at: int, reports: seq<Conn>, load: Load, f: Faults, o: Id)
    requires p.Valid() && Sound(w) && Accurate(w, reports) && w.clock <= at
    ensures Settled(p, CycleStep(p, w, at, reports, load, f), ActiveOf(w, reports), |w.store.history|, o)
  {
    var conns := ActiveOf(w, reports);
    var seen := Observe(Tick(w, at), FleetOf(w, reports), at);
    var scaled := ScalePhase(p, seen, conns, load, at, f);
    FrozenAfterLook(w, reports, at);
    ActScaleHistory(p, seen, conns, load, f);
    AdvancesSettle(p, scaled, conns, scaled.mem.order, f, |w.store.history|);
    var advanced := ReplacePhase(p, scaled, conns, at, f);
    if o in advanced.mem.pending {
      assert o in scaled.mem.order;
    }
    RemediatesSettle(p, advanced, conns, HealthPlan(p, advanced, conns, at), at, f, |w.store.history|, o);
  }

  lemma ActScaleHistory(p: Policy, w: World, conns: seq<Conn>, load: Load, f: Faults)
    requires Sound(w) && Frozen(w, conns)
    ensures var v := ScalePhase(p, w, conns, load, w.clock, f);
            v.clock == w.clock && OrderOk(v) && |w.store.history| <= |v.store.history|
  {
    var d := ScaleDecision(p, w, conns, load, w.clock);
    match d.direction
    case Stay =>
    case Up =>
      if d.count >= 0 {
        ManyFrame(w, w.clock, f, d.count);
        ManyHistory(w, w.clock, f, d.count);
      }
    case Down =>
      if d.count >= 0 {
        AllFrame(w, PickVictims(p, w.mem, conns, d.count, w.clock), w.clock, f, ByScaleDown);
        AllHistory(w, PickVictims(p, w.mem, conns, d.count, w.clock), w.clock, f, ByScaleDown);
      }
  }

  lemma {:induction false} ManyHistory(w: World, at: int, f: Faults, k: nat)
    ensures w.store.history <= ProvisionMany(w, at, f, k).0.store.history
  {
    if k > 0 {
      ManyHistory(w, at, f, k - 1);
    }
  }

  lemma {:induction false} AllHistory(w: World, victims: seq<Conn>, at: int, f: Faults, cause: Cause)
    ensures w.store.history <= DeprovisionAll(w, victims, at, f, cause).0.store.history
  {
    if victims != [] {
      AllHistory(w, victims[..|victims| - 1], at, f, cause);
    }
  }
}
