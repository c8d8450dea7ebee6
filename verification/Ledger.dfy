/** The record of events accounts for every connector: creations, starts, deletions and removals determine
    both inventories, and drains come before removals. */
module Ledger {
  import opened Basics
  import opened Policies
  import opened Decider
  import opened Fleet
  import opened Effects
  import opened Steps

  datatype Mark = WasCreated | WasStarted | WasDeleted | WasRemoved

  /** Whether one event marks `id`. An adopted connector counts as created and started. */
  predicate Marks(e: Event, id: Id, m: Mark) {
    match m
    case WasCreated => (e.Created? && e.id == id) || (e.Adopted? && id in e.ids)
    case WasStarted => (e.Started? && e.id == id) || (e.Adopted? && id in e.ids)
    case WasDeleted => e.Deleted? && e.id == id
    case WasRemoved => e.Removed? && e.id == id
  }

  predicate Did(trace: seq<Event>, id: Id, m: Mark) {
    trace != [] && (Marks(trace[|trace| - 1], id, m) || Did(trace[..|trace| - 1], id, m))
  }

  /** When routing to `id` was last stopped. */
  function DeletedAt(trace: seq<Event>, id: Id): int {
    if trace == [] then 0
    else if Marks(trace[|trace| - 1], id, WasDeleted) then trace[|trace| - 1].at
    else DeletedAt(trace[..|trace| - 1], id)
  }

  lemma DidAppend(trace: seq<Event>, e: Event, id: Id)
    ensures forall m :: Did(trace + [e], id, m) <==> Marks(e, id, m) || Did(trace, id, m)
    ensures DeletedAt(trace + [e], id) == if Marks(e, id, WasDeleted) then e.at else DeletedAt(trace, id)
  {
    assert (trace + [e])[..|trace|] == trace;
  }

  // --- accounting ------------------------------------------------------------

  /** What the record says about `id` is what the inventories and the drains in flight say. */
  ghost predicate Entry(c: Cloud, draining: map<Id, int>, trace: seq<Event>, id: Id) {
    && (id in c.logical <==> Did(trace, id, WasCreated) && !Did(trace, id, WasDeleted))
    && (id in c.containers <==> Did(trace, id, WasStarted) && !Did(trace, id, WasRemoved))
    && (Did(trace, id, WasCreated) ==> id < c.nextId)
    && (Did(trace, id, WasStarted) ==> Did(trace, id, WasCreated))
    && (Did(trace, id, WasDeleted) ==> Did(trace, id, WasStarted))
    && (Did(trace, id, WasRemoved) ==> Did(trace, id, WasDeleted))
    && (id in draining ==>
          Did(trace, id, WasDeleted) && !Did(trace, id, WasRemoved) && DeletedAt(trace, id) == draining[id])
  }

  ghost predicate Accounted(w: World) {
    forall id :: Entry(w.cloud, w.mem.draining, w.trace, id)
  }

  /** What each kind of event must find: nothing happens to a connector twice, and a removal comes at least
      the drain grace after the deletion. */
  ghost predicate InPlace(p: Policy, before: seq<Event>, e: Event) {
    match e
    case Created(id, _) => !Did(before, id, WasCreated)
    case Started(id, _) => Did(before, id, WasCreated) && !Did(before, id, WasStarted)
    case Deleted(id, _, _) => Did(before, id, WasStarted) && !Did(before, id, WasDeleted)
    case Removed(id, at) =>
      && Did(before, id, WasDeleted) && !Did(before, id, WasRemoved)
      && DeletedAt(before, id) + p.drainGrace <= at
    case Adopted(_) => before == []
    case _ => true
  }

  ghost predicate Orderly(p: Policy, trace: seq<Event>) {
    trace == [] || (Orderly(p, trace[..|trace| - 1]) && InPlace(p, trace[..|trace| - 1], trace[|trace| - 1]))
  }

  lemma OrderlyAppend(p: Policy, trace: seq<Event>, e: Event)
    requires Orderly(p, trace) && InPlace(p, trace, e)
    ensures Orderly(p, trace + [e])
  {
    assert (trace + [e])[..|trace|] == trace;
  }

  ghost predicate Booked(p: Policy, w: World) { Accounted(w) && Orderly(p, w.trace) && w.trace != [] }

  /** The inventories and the drains after one event, as the event says. */
  ghost predicate Follows(c: Cloud, d: map<Id, int>, e: Event, c': Cloud, d': map<Id, int>) {
    match e
    case Created(id, _) => id == c.nextId && c' == Cloud(id + 1, c.containers, c.logical + {id}) && d' == d
    case Started(id, _) =>
      && id in c.logical && id !in c.containers
      && c' == c.(containers := c.containers + {id}) && d' == d
    case Deleted(id, at, _) =>
      && id in c.logical && id in c.containers
      && c' == c.(logical := c.logical - {id}) && d' == d[id := at]
    case Removed(id, at) => id in d && c' == c.(containers := c.containers - {id}) && d' == d - {id}
    case Adopted(_) => false
    case _ => c' == c && d' == d
  }

  lemma EntryFollows(c: Cloud, d: map<Id, int>, trace: seq<Event>, e: Event, c': Cloud, d': map<Id, int>, id: Id)
    requires Entry(c, d, trace, id) && Follows(c, d, e, c', d')
    requires e.Started? ==> !Did(trace, e.id, WasStarted)
    requires e.Deleted? ==> !Did(trace, e.id, WasRemoved)
    ensures Entry(c', d', trace + [e], id)
  {
    DidAppend(trace, e, id);
  }

  /** One event, noted together with the change it reports, keeps the books. */
  lemma BookedFollows(p: Policy, w: World, e: Event, v: World)
    requires Booked(p, w) && Follows(w.cloud, w.mem.draining, e, v.cloud, v.mem.draining) && v.trace == w.trace + [e]
    requires e.Removed? ==> w.mem.draining[e.id] + p.drainGrace <= e.at
    requires e.Started? ==> !Did(w.trace, e.id, WasStarted)
    ensures Booked(p, v)
  {
    if e.Created? || e.Started? || e.Deleted? || e.Removed? {
      assert Entry(w.cloud, w.mem.draining, w.trace, e.id);
    }
    OrderlyAppend(p, w.trace, e);
    forall id
      ensures Entry(v.cloud, v.mem.draining, v.trace, id)
    {
      EntryFollows(w.cloud, w.mem.draining, w.trace, e, v.cloud, v.mem.draining, id);
    }
  }

  /** A rebooted manager forgets its drains; the rest of the books stand. */
  lemma BookedForgets(p: Policy, w: World, v: World)
    requires Booked(p, w) && v.cloud == w.cloud && v.trace == w.trace
    requires v.mem.draining == w.mem.draining || v.mem.draining == map[]
    ensures Booked(p, v)
  {
    forall id
      ensures Entry(v.cloud, v.mem.draining, v.trace, id)
    {
      assert Entry(w.cloud, w.mem.draining, w.trace, id);
    }
  }

  lemma GrowBooked(p: Policy, w: World, at: int, f: Faults)
    requires Booked(p, w) && Sound(w)
    ensures Booked(p, ProvisionOne(w, at, f).0)
  {
    var id := w.cloud.nextId;
    var minted := Note(w.(cloud := Cloud(id + 1, w.cloud.containers, w.cloud.logical + {id})), Created(id, at));
    if id in f.provision && f.provision[id] == CreateFails {
      var skipped := w.cloud.(nextId := id + 1);
      forall x
        ensures Entry(skipped, w.mem.draining, w.trace, x)
      {
        assert Entry(w.cloud, w.mem.draining, w.trace, x);
      }
    } else {
      BookedFollows(p, w, Created(id, at), minted);
      if id in f.provision {
        BookedForgets(p, minted, ProvisionOne(w, at, f).0);
      } else {
        assert Entry(w.cloud, w.mem.draining, w.trace, id);
        DidAppend(w.trace, Created(id, at), id);
        BookedFollows(p, minted, Started(id, at), ProvisionOne(w, at, f).0);
      }
    }
  }

  lemma EffectBooked(p: Policy, w: World, e: Effect)
    requires Booked(p, w) && Sound(w) && Allowed(p, w, e)
    ensures Booked(p, Perform(w, e))
  {
    var v := Perform(w, e);
    if e.Grow? {
      GrowBooked(p, w, w.clock, e.f);
    } else if e.Pair? {
      GrowBooked(p, w, w.clock, e.f);
      var (grown, id) := ProvisionOne(w, w.clock, e.f);
      if id.Some? {
        BookedFollows(p, grown, ReplaceBegun(e.oldId, id.value, w.clock, e.manual), v);
      }
    } else if e.Shrink? && e.id in w.cloud.logical && e.subject !in e.f.delete {
      BookedFollows(p, w, Deleted(e.id, w.clock, e.cause), v);
    } else if e.Drained? && e.ok {
      BookedFollows(p, w, Removed(e.id, w.clock), v);
    } else if e.Drained? {
      forall id
        ensures Entry(v.cloud, v.mem.draining, v.trace, id)
      {
        assert Entry(w.cloud, w.mem.draining, w.trace, id);
      }
    } else if e.AutoUp? {
      BookedFollows(p, w, ScaledUp(w.clock, e.added, e.fill), v);
    } else if e.AutoDown? {
      BookedFollows(p, w, ScaledDown(w.clock, e.removed), v);
    } else {
      BookedForgets(p, w, v);
    }
  }

  ghost function BooksHold(p: Policy): World -> bool { w => Booked(p, w) }

  lemma BookedKept(p: Policy)
    ensures Keeps(p, BooksHold(p))
  {
    var inv := BooksHold(p);
    forall w, e | Sound(w) && inv(w) && Allowed(p, w, e)
      ensures inv(Perform(w, e))
    {
      assert Booked(p, w);
      EffectBooked(p, w, e);
    }
  }

  lemma InitialBooked(p: Policy, w: World)
    requires Initial(w)
    ensures Booked(p, w)
  {
    OrderlyAppend(p, [], Adopted(w.cloud.containers));
    assert [] + w.trace == w.trace;
    forall id
      ensures Entry(w.cloud, w.mem.draining, w.trace, id)
    {
      DidAppend([], Adopted(w.cloud.containers), id);
    }
  }

  lemma RunBooked(p: Policy, ws: seq<World>, steps: seq<Step>, i: nat)
    requires p.Valid() && Run(p, ws, steps) && Initial(ws[0]) && i <= |steps|
    ensures Booked(p, ws[i]) && Sound(ws[i])
  {
    InitialBooked(p, ws[0]);
    InitialSound(ws[0]);
    BookedKept(p);
    assert Good(BooksHold(p), ws[0]);
    RunKeeps(p, BooksHold(p), ws, steps, i);
    assert Good(BooksHold(p), ws[i]);
  }

  // --- main results ----------------------------------------------------------

  /** In every run every connector ever created is in exactly one place: running (both inventories), a
      container only (draining, or stuck after a drain that did not finish), leaked (logical only: created,
      then token minting or the start failed), or gone. */
  lemma EveryConnectorAccounted(p: Policy, ws: seq<World>, steps: seq<Step>, i: nat, id: Id)
    requires p.Valid() && Run(p, ws, steps) && Initial(ws[0]) && i <= |steps|
    ensures var w := ws[i];
            && (id in w.cloud.logical + w.cloud.containers ==> Did(w.trace, id, WasCreated))
            && (id in w.cloud.logical && id in w.cloud.containers <==>
                Did(w.trace, id, WasStarted) && !Did(w.trace, id, WasDeleted))
            && (id in w.cloud.logical && id !in w.cloud.containers <==>
                Did(w.trace, id, WasCreated) && !Did(w.trace, id, WasStarted))
            && (id !in w.cloud.logical && id in w.cloud.containers <==>
                Did(w.trace, id, WasDeleted) && !Did(w.trace, id, WasRemoved))
            && (id in w.mem.draining ==> id !in w.cloud.logical && id in w.cloud.containers)
  {
    RunBooked(p, ws, steps, i);
    assert Entry(ws[i].cloud, ws[i].mem.draining, ws[i].trace, id);
  }

  lemma {:induction false} DeletionIndex(trace: seq<Event>, id: Id) returns (i: nat)
    requires Did(trace, id, WasDeleted)
    ensures i < |trace| && trace[i].Deleted? && trace[i].id == id && trace[i].at == DeletedAt(trace, id)
  {
    if Marks(trace[|trace| - 1], id, WasDeleted) {
      i := |trace| - 1;
    } else {
      i := DeletionIndex(trace[..|trace| - 1], id);
    }
  }

  lemma {:induction false} OrderlyAt(p: Policy, trace: seq<Event>, j: nat)
    requires Orderly(p, trace) && j < |trace|
    ensures InPlace(p, trace[..j], trace[j])
  {
    if j < |trace| - 1 {
      OrderlyAt(p, trace[..|trace| - 1], j);
      assert trace[..|trace| - 1][..j] == trace[..j];
    }
  }

  lemma {:induction false} DidAt(trace: seq<Event>, i: nat, id: Id, m: Mark)
    requires i < |trace| && Marks(trace[i], id, m)
    ensures Did(trace, id, m)
  {
    if i < |trace| - 1 {
      DidAt(trace[..|trace| - 1], i, id, m);
    }
  }

  /** Drain before delete, over every interleaving: each container removal follows the deletion of that
      connector by at least the drain grace. */
  lemma DrainBeforeRemoval(p: Policy, ws: seq<World>, steps: seq<Step>, k: nat, j: nat)
    requires p.Valid() && Run(p, ws, steps) && Initial(ws[0]) && k <= |steps|
    requires j < |ws[k].trace| && ws[k].trace[j].Removed?
    ensures exists i :: 0 <= i < j && ws[k].trace[i].Deleted? && ws[k].trace[i].id == ws[k].trace[j].id
                        && ws[k].trace[i].at + p.drainGrace <= ws[k].trace[j].at
  {
    var trace := ws[k].trace;
    RunBooked(p, ws, steps, k);
    OrderlyAt(p, trace, j);
    var i := DeletionIndex(trace[..j], trace[j].id);
    assert trace[..j][i] == trace[i];
  }

  /** Routing to a connector is stopped at most once, and its container removed at most once, in any run:
      it never has two drains in flight. */
  lemma DeletedOnceRemovedOnce(p: Policy, ws: seq<World>, steps: seq<Step>, k: nat, i: nat, j: nat)
    requires p.Valid() && Run(p, ws, steps) && Initial(ws[0]) && k <= |steps| && i < j < |ws[k].trace|
    ensures var (a, b) := (ws[k].trace[i], ws[k].trace[j]);
            && !(a.Deleted? && b.Deleted? && a.id == b.id)
            && !(a.Removed? && b.Removed? && a.id == b.id)
            && !(a.Created? && b.Created? && a.id == b.id)
            && !(a.Started? && b.Started? && a.id == b.id)
  {
    var trace := ws[k].trace;
    RunBooked(p, ws, steps, k);
    OrderlyAt(p, trace, j);
    assert trace[..j][i] == trace[i];
    var a := trace[i];
    if a.Deleted? {
      DidAt(trace[..j], i, a.id, WasDeleted);
    } else if a.Removed? {
      DidAt(trace[..j], i, a.id, WasRemoved);
    } else if a.Created? {
      DidAt(trace[..j], i, a.id, WasCreated);
    } else if a.Started? {
      DidAt(trace[..j], i, a.id, WasStarted);
    }
  }

  // --- the counters ----------------------------------------------------------

  /** How often the up counter and the down counter were raised. */
  function Ups(trace: seq<Event>): int {
    if trace == [] then 0 else Ups(trace[..|trace| - 1]) + if trace[|trace| - 1].Started? then 1 else 0
  }

  function Downs(trace: seq<Event>): int {
    if trace == [] then 0 else Downs(trace[..|trace| - 1]) + if trace[|trace| - 1].Removed? then 1 else 0
  }

  lemma TallyAppend(trace: seq<Event>, e: Event)
    ensures Ups(trace + [e]) == Ups(trace) + if e.Started? then 1 else 0
    ensures Downs(trace + [e]) == Downs(trace) + if e.Removed? then 1 else 0
  {
    assert (trace + [e])[..|trace|] == trace;
  }

  ghost predicate Balanced(w: World, adopted: int) {
    |w.cloud.containers| == adopted + Ups(w.trace) - Downs(w.trace)
  }

  lemma GrowBalanced(w: World, at: int, f: Faults, adopted: int)
    requires Balanced(w, adopted) && w.cloud.nextId !in w.cloud.containers
    ensures Balanced(ProvisionOne(w, at, f).0, adopted)
  {
    var id := w.cloud.nextId;
    TallyAppend(w.trace, Created(id, at));
    TallyAppend(w.trace + [Created(id, at)], Started(id, at));
  }

  lemma PairBalanced(w: World, o: Id, at: int, f: Faults, manual: bool, adopted: int)
    requires Balanced(w, adopted) && w.cloud.nextId !in w.cloud.containers
    ensures Balanced(BeginReplace(w, o, at, f, manual).0, adopted)
  {
    GrowBalanced(w, at, f, adopted);
    var (grown, id) := ProvisionOne(w, at, f);
    if id.Some? {
      TallyAppend(grown.trace, ReplaceBegun(o, id.value, at, manual));
    }
  }

  lemma DrainBalanced(w: World, id: Id, at: int, ok: bool, adopted: int)
    requires Balanced(w, adopted) && InventoryOk(w) && id in w.mem.draining
    ensures Balanced(FinishDrain(w, id, at, ok), adopted)
  {
    TallyAppend(w.trace, Removed(id, at));
    assert id in w.cloud.containers;
  }

  /** An event that neither starts nor removes a container, with the containers as they were. */
  lemma PlainBalanced(w: World, e: Event, v: World, adopted: int)
    requires Balanced(w, adopted) && v.cloud.containers == w.cloud.containers
    requires v.trace == w.trace || (v.trace == w.trace + [e] && !e.Started? && !e.Removed?)
    ensures Balanced(v, adopted)
  {
    TallyAppend(w.trace, e);
  }

  lemma EffectBalanced(p: Policy, w: World, e: Effect, adopted: int)
    requires Balanced(w, adopted) && Sound(w) && Allowed(p, w, e)
    ensures Balanced(Perform(w, e), adopted)
  {
    var v := Perform(w, e);
    if e.Grow? {
      GrowBalanced(w, w.clock, e.f, adopted);
    } else if e.Pair? {
      PairBalanced(w, e.oldId, w.clock, e.f, e.manual, adopted);
    } else if e.Drained? {
      DrainBalanced(w, e.id, w.clock, e.ok, adopted);
    } else if e.Shrink? {
      PlainBalanced(w, Deleted(e.id, w.clock, e.cause), v, adopted);
    } else if e.AutoUp? {
      PlainBalanced(w, ScaledUp(w.clock, e.added, e.fill), v, adopted);
    } else {
      PlainBalanced(w, ScaledDown(w.clock, if e.AutoDown? then e.removed else 0), v, adopted);
    }
  }

  /** The up counter minus the down counter is the change in the number of containers. */
  lemma CountersBalance(p: Policy, ws: seq<World>, steps: seq<Step>, i: nat)
    requires p.Valid() && Run(p, ws, steps) && Initial(ws[0]) && i <= |steps|
    ensures |ws[i].cloud.containers| == |ws[0].cloud.containers| + Ups(ws[i].trace) - Downs(ws[i].trace)
  {
    var adopted := |ws[0].cloud.containers|;
    var inv := w => Balanced(w, adopted);
    forall w, e | Sound(w) && inv(w) && Allowed(p, w, e)
      ensures inv(Perform(w, e))
    {
      EffectBalanced(p, w, e, adopted);
    }
    InitialSound(ws[0]);
    TallyAppend([], Adopted(ws[0].cloud.containers));
    assert [] + ws[0].trace == ws[0].trace;
    assert Good(inv, ws[0]);
    RunKeeps(p, inv, ws, steps, i);
    assert Good(inv, ws[i]);
  }

  // --- stuck containers ------------------------------------------------------

  /** A container whose logical connector is gone and whose drain is over. */
  predicate Stuck(w: World, id: Id) {
    id in w.cloud.containers && id !in w.cloud.logical && id !in w.mem.draining
  }

  /** A failed removal, or a manager restart during the grace, leaves a container that nothing the manager
      does ever removes: every later `connectorDelete` for it fails, teardown's included. */
  lemma StuckForever(p: Policy, ws: seq<World>, steps: seq<Step>, i: nat, j: nat, id: Id)
    requires p.Valid() && Run(p, ws, steps) && Initial(ws[0]) && i <= j <= |steps|
    requires Stuck(ws[i], id)
    ensures Stuck(ws[j], id)
  {
    InitialSound(ws[0]);
    assert Good(x => true, ws[0]);
    RunKeeps(p, x => true, ws, steps, i);
    RunSuffix(p, ws, steps, i);
    StuckStays(p, ws[i..], steps[i..], j - i, id);
  }

  lemma StuckStays(p: Policy, ws: seq<World>, steps: seq<Step>, i: nat, id: Id)
    requires p.Valid() && Run(p, ws, steps) && Sound(ws[0]) && i <= |steps| && Stuck(ws[0], id)
    ensures Stuck(ws[i], id)
  {
    var inv := w => Stuck(w, id);
    forall w, e | Sound(w) && inv(w) && Allowed(p, w, e)
      ensures inv(Perform(w, e))
    {
      EffectStuck(p, w, e, id);
    }
    assert Good(inv, ws[0]);
    RunKeeps(p, inv, ws, steps, i);
    assert Good(inv, ws[i]);
  }

  /** What remains of a run is a run. */
  lemma RunSuffix(p: Policy, ws: seq<World>, steps: seq<Step>, i: nat)
    requires Run(p, ws, steps) && i <= |steps|
    ensures Run(p, ws[i..], steps[i..])
  {
  }

  lemma EffectStuck(p: Policy, w: World, e: Effect, id: Id)
    requires Stuck(w, id) && Sound(w) && Allowed(p, w, e)
    ensures Stuck(Perform(w, e), id)
  {
  }
}
