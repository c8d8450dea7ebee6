/** Every lock-held step is a sequence of small guarded effects. A property of worlds that every allowed
    effect keeps is therefore kept by every step and every run: the fold-by-fold reasoning is done once, here. */
module Effects {
  import opened Basics
  import opened Policies
  import opened Decider
  import opened Fleet

  datatype Effect =
    | Pass(at: int)
    | Look(fleet: seq<Conn>)
    | Grow(f: Faults)
    | Shrink(id: Id, subject: Id, f: Faults, cause: Cause)
    | Release(oldId: Id)
    | Pair(oldId: Id, f: Faults, manual: bool)
    | Write(row: Row)
    | AutoUp(added: nat, fill: bool)
    | AutoDown(removed: nat)
    | HandUp
    | HandDown
    | Drained(id: Id, ok: bool)
    | SetCordons(cordons: set<Id>)
    | Rebooted

  function Perform(w: World, e: Effect): World {
    match e
    case Pass(at) => Tick(w, at)
    case Look(fleet) => Observe(w, fleet, w.clock)
    case Grow(f) => ProvisionOne(w, w.clock, f).0
    case Shrink(id, subject, f, cause) => DeprovisionOne(w, id, subject, w.clock, f, cause).0
    case Release(o) => DropPending(w, o)
    case Pair(o, f, manual) => BeginReplace(w, o, w.clock, f, manual).0
    case Write(row) => Record(w, row)
    case AutoUp(n, fill) => Note(ArmUp(w, w.clock), ScaledUp(w.clock, n, fill))
    case AutoDown(n) => Note(ArmDown(w, w.clock), ScaledDown(w.clock, n))
    case HandUp => ArmUp(w, w.clock)
    case HandDown => ArmDown(w, w.clock)
    case Drained(id, ok) => if id in w.mem.draining then FinishDrain(w, id, w.clock, ok) else w
    case SetCordons(cs) => w.(store := w.store.(cordons := cs))
    case Rebooted => Reboot(w)
  }

  /** What the code has checked whenever it performs the effect. */
  ghost predicate Allowed(p: Policy, w: World, e: Effect) {
    match e
    case Pass(at) => w.clock <= at
    case Look(fleet) => DistinctIds(fleet) && Ids(fleet) == w.cloud.containers
    case Grow(f) => true
    case Shrink(id, subject, f, cause) => id in w.cloud.containers && MayShrink(p, w, id, cause)
    case Release(o) => o in w.mem.pending
    case Pair(o, f, manual) =>
      && o in w.cloud.containers && o !in w.mem.pending
      && (!manual ==> CountRestarts(w.store.history, o, w.clock - p.restartWindow) >= p.maxRestarts
                      && HealthGate(p, w, o))
    case Write(row) => row.action == Restart ==>
        && row.id.Some? && row.at == w.clock
        && CountRestarts(w.store.history, row.id.value, w.clock - p.restartWindow) < p.maxRestarts
        && HealthGate(p, w, row.id.value)
    case AutoUp(n, fill) => n > 0 && (!fill ==>
        && n <= p.scaleStep
        && (w.store.lastUp.Some? ==> w.clock - w.store.lastUp.value >= p.upCooldown))
    case AutoDown(n) =>
      && 0 < n <= p.scaleStep
      && (w.store.lastDown.Some? ==> w.clock - w.store.lastDown.value >= p.downCooldown)
    case HandUp => true
    case HandDown => true
    case Drained(id, ok) => id in w.mem.draining && w.mem.draining[id] + p.drainGrace <= w.clock
    case SetCordons(cs) => true
    case Rebooted => true
  }

  /** Which deletion the pending replaces and the latest sighting allow. */
  ghost predicate MayShrink(p: Policy, w: World, id: Id, cause: Cause) {
    match cause
    case ByScaleDown => id !in Protected(w.mem) && w.mem.pending == map[]
    case ByManual => id !in Protected(w.mem)
    case ByReplace(n) => id in w.mem.pending && w.mem.pending[id].newId == n && SeenNow(w, n, true)
    case ByTimeout(o) => o in w.mem.pending && w.mem.pending[o].newId == id
                         && w.clock - w.mem.pending[o].startedAt >= p.replaceTimeout && SeenNow(w, id, false)
    case ByTeardown => true
  }

  /** The latest sighting was made now, and shows `id` healthy, or not. */
  ghost predicate SeenNow(w: World, id: Id, healthy: bool) {
    && w.sightings != []
    && w.sightings[|w.sightings| - 1].at == w.clock
    && (id in w.sightings[|w.sightings| - 1].healthy <==> healthy)
  }

  /** The latest sighting was made now and shows `id` unhealthy, and the duration gate is open. */
  ghost predicate HealthGate(p: Policy, w: World, id: Id) {
    && w.sightings != []
    && w.sightings[|w.sightings| - 1].at == w.clock
    && id in w.sightings[|w.sightings| - 1].unhealthy
    && (p.unhealthyThreshold > 0 ==>
          id in w.mem.firstUnhealthy && w.clock - w.mem.firstUnhealthy[id] >= p.unhealthyThreshold)
  }

  // --- the base invariant ----------------------------------------------------

  ghost predicate InventoryOk(w: World) {
    && (forall id :: id in w.cloud.containers ==> id < w.cloud.nextId)
    && (forall id :: id in w.cloud.logical ==> id < w.cloud.nextId)
    && (forall id :: id in w.mem.draining ==>
        id in w.cloud.containers && id !in w.cloud.logical && w.mem.draining[id] <= w.clock)
  }

  /** Each replacement is younger than the connector it replaces, so the pairs form no cycle. */
  ghost predicate Younger(w: World) {
    forall o :: o in w.mem.pending ==>
      o < w.mem.pending[o].newId < w.cloud.nextId && w.mem.pending[o].startedAt <= w.clock
  }

  /** No two connectors share a replacement. */
  ghost predicate OwnReplacement(w: World) {
    forall a, b :: a in w.mem.pending && b in w.mem.pending && a != b ==>
      w.mem.pending[a].newId != w.mem.pending[b].newId
  }

  ghost predicate OrderOk(w: World) {
    Distinct(w.mem.order) && forall o :: o in w.mem.order <==> o in w.mem.pending
  }

  ghost predicate Sound(w: World) { InventoryOk(w) && Younger(w) && OwnReplacement(w) && OrderOk(w) }

  lemma InventoryKept(p: Policy, w: World, e: Effect)
    requires InventoryOk(w) && Allowed(p, w, e)
    ensures InventoryOk(Perform(w, e))
  {
  }

  lemma YoungerKept(p: Policy, w: World, e: Effect)
    requires InventoryOk(w) && Younger(w) && Allowed(p, w, e)
    ensures Younger(Perform(w, e))
  {
  }

  lemma OwnReplacementKept(p: Policy, w: World, e: Effect)
    requires Younger(w) && OwnReplacement(w) && Allowed(p, w, e)
    ensures OwnReplacement(Perform(w, e))
  {
  }

  lemma OrderKept(p: Policy, w: World, e: Effect)
    requires OrderOk(w) && Allowed(p, w, e)
    ensures OrderOk(Perform(w, e))
  {
    match e
    case Release(o) => WithoutDistinct(w.mem.order, o);
    case _ =>
  }

  /** Ids stay below the next fresh one, a draining connector has a container and no logical connector,
      and the pending replaces pair each old connector with a younger replacement of its own. */
  lemma SoundKept(p: Policy, w: World, e: Effect)
    requires Sound(w) && Allowed(p, w, e)
    ensures Sound(Perform(w, e))
  {
    InventoryKept(p, w, e);
    YoungerKept(p, w, e);
    OwnReplacementKept(p, w, e);
    OrderKept(p, w, e);
  }
}
