/** The managed fleet as a state machine: what each lock-held section of the control loop does to the
    inventories, the persisted store, the manager's memory, and the record of events. */
module Fleet {
  import opened Basics
  import opened Policies
  import opened Decider

  // --- state -----------------------------------------------------------------

  /** What Twingate (`logical`) and the compute platform (`containers`) hold. `nextId` numbers the next
      `connectorCreate` attempt, and is the id that attempt gets when it succeeds. */
  datatype Cloud = Cloud(nextId: nat, containers: set<Id>, logical: set<Id>)

  datatype Action = Provision | Deprovision | Restart | Replace | Cordon | Uncordon

  /** One row of the action history. */
  datatype Row = Row(at: int, action: Action, id: Option<Id>, ok: bool)

  /** What survives a manager restart. */
  datatype Store = Store(cordons: set<Id>, lastUp: Option<int>, lastDown: Option<int>, history: seq<Row>)

  /** A replacement waiting for health before the old connector is torn down. */
  datatype Pending = Pending(newId: Id, startedAt: int)

  /** The manager's in-memory state. `order` is the insertion order of `pending`; `draining` holds the
      start time of each drain in flight. */
  datatype Memory = Memory(
    pending: map<Id, Pending>,
    order: seq<Id>,
    draining: map<Id, int>,
    firstSeen: map<Id, int>,
    firstUnhealthy: map<Id, int>)

  datatype Cause =
    | ByScaleDown
    | ByManual
    | ByReplace(newId: Id)
    | ByTimeout(oldId: Id)
    | ByTeardown

  /** The record of what happened. A fleet found running is `Adopted`. `ScaledUp.fill` marks a floor fill. */
  datatype Event =
    | Adopted(ids: set<Id>)
    | Created(id: Id, at: int)
    | Started(id: Id, at: int)
    | Deleted(id: Id, at: int, cause: Cause)
    | Removed(id: Id, at: int)
    | ScaledUp(at: int, added: nat, fill: bool)
    | ScaledDown(at: int, removed: nat)
    | ReplaceBegun(id: Id, newId: Id, at: int, manual: bool)

  /** One completed discovery of the cycle: who was there, who was unhealthy, and who was affirmatively
      healthy enough to stand in for another. */
  datatype Sighting = Sighting(at: int, present: set<Id>, unhealthy: set<Id>, healthy: set<Id>)

  /** `sightings[boot..]` are those of the current manager process. */
  datatype World = World(
    cloud: Cloud,
    store: Store,
    mem: Memory,
    trace: seq<Event>,
    sightings: seq<Sighting>,
    boot: nat,
    clock: int)

  // --- the environment's choices ---------------------------------------------

  datatype ProvisionFault = CreateFails | TokensFail | StartFails

  /** Which calls fail during one step. `provision` is keyed by create attempt; `delete` by the victim or
      the pending replace being processed; `restart` by connector. */
  datatype Faults = Faults(provision: map<Id, ProvisionFault>, delete: set<Id>, restart: set<Id>)

  const NO_FAULTS := Faults(map[], {}, {})

  // --- recording -------------------------------------------------------------

  function Record(w: World, row: Row): World {
    w.(store := w.store.(history := w.store.history + [row]))
  }

  function Note(w: World, e: Event): World { w.(trace := w.trace + [e]) }

  function CountRestarts(history: seq<Row>, id: Id, since: int): nat {
    if history == [] then 0
    else
      var row := history[|history| - 1];
      CountRestarts(history[..|history| - 1], id, since) +
      if row.id == Some(id) && row.action == Restart && row.at >= since then 1 else 0
  }

  // --- provision and deprovision ---------------------------------------------

  /** `connectorCreate`, then token minting, then the container. A failure after the create leaves a
      logical connector behind. */
  function ProvisionOne(w: World, at: int, f: Faults): (World, Option<Id>) {
    var id := w.cloud.nextId;
    var taken := w.(cloud := w.cloud.(nextId := id + 1));
    var minted := Note(w.(cloud := w.cloud.(nextId := id + 1, logical := w.cloud.logical + {id})), Created(id, at));
    var failed := Row(at, Provision, None, false);
    if id in f.provision && f.provision[id] == CreateFails then (Record(taken, failed), None)
    else if id in f.provision then (Record(minted, failed), None)
    else
      var started := Note(minted.(cloud := minted.cloud.(containers := minted.cloud.containers + {id})),
                          Started(id, at));
      (Record(started, Row(at, Provision, Some(id), true)), Some(id))
  }

  /** `connectorDelete`, and on success a drain in flight. Deleting needs a logical connector. */
  function DeprovisionOne(w: World, id: Id, subject: Id, at: int, f: Faults, cause: Cause): (World, bool) {
    if id in w.cloud.logical && subject !in f.delete then
      (Note(w.(cloud := w.cloud.(logical := w.cloud.logical - {id}),
               mem := w.mem.(draining := w.mem.draining[id := at])), Deleted(id, at, cause)), true)
    else (Record(w, Row(at, Deprovision, Some(id), false)), false)
  }

  /** The tail of a drain: stop and remove the container. The drain ends whether or not that worked. */
  function FinishDrain(w: World, id: Id, at: int, ok: bool): World
    requires id in w.mem.draining
  {
    var row := Row(w.mem.draining[id], Deprovision, Some(id), ok);
    var ended := w.(mem := w.mem.(draining := w.mem.draining - {id}));
    if ok then
      Note(Record(ended.(cloud := ended.cloud.(containers := ended.cloud.containers - {id}),
                         store := ended.store.(cordons := ended.store.cordons - {id})), row), Removed(id, at))
    else Record(ended, row)
  }

  // --- discovery -------------------------------------------------------------

  /** Marks each reported connector with the operator's cordon. */
  function Discover(reports: seq<Conn>, cordons: set<Id>): (fleet: seq<Conn>)
    ensures |fleet| == |reports|
    ensures forall i :: 0 <= i < |fleet| ==> fleet[i] == reports[i].(cordoned := reports[i].id in cordons)
  {
    if reports == [] then []
    else
      var c := reports[|reports| - 1];
      Discover(reports[..|reports| - 1], cordons) + [c.(cordoned := c.id in cordons)]
  }

  /** The connectors not in mid-drain, in discovery order. */
  function Active(fleet: seq<Conn>, draining: map<Id, int>): seq<Conn> {
    if fleet == [] then []
    else
      var c := fleet[|fleet| - 1];
      Active(fleet[..|fleet| - 1], draining) + if c.id in draining then [] else [c]
  }

  function UnhealthyIds(fleet: seq<Conn>): set<Id> { set c | c in fleet && IsUnhealthy(c) :: c.id }

  /** Affirmatively alive, and not failing its health check. */
  predicate HealthyReplacement(c: Conn) { c.state == Some(Alive) && c.docker != Some(Unhealthy) }

  function HealthyIds(fleet: seq<Conn>): set<Id> { set c | c in fleet && HealthyReplacement(c) :: c.id }

  /** Keeps known start times, stamps newcomers, forgets the rest. */
  function Timers(known: map<Id, int>, ids: set<Id>, now: int): map<Id, int> {
    map id | id in ids :: if id in known then known[id] else now
  }

  function Observe(w: World, fleet: seq<Conn>, at: int): World {
    w.(mem := w.mem.(firstSeen := Timers(w.mem.firstSeen, Ids(fleet), at),
                     firstUnhealthy := Timers(w.mem.firstUnhealthy, UnhealthyIds(fleet), at)),
       sightings := w.sightings + [Sighting(at, Ids(fleet), UnhealthyIds(fleet), HealthyIds(fleet))])
  }

  // --- scaling ---------------------------------------------------------------

  /** Both ends of every pending replace. */
  function Protected(m: Memory): set<Id> {
    m.pending.Keys + set id | id in m.pending :: m.pending[id].newId
  }

  predicate WithinGrace(p: Policy, m: Memory, id: Id, now: int) {
    p.startupGrace > 0 && id in m.firstSeen && now - m.firstSeen[id] < p.startupGrace
  }

  predicate EligibleVictim(p: Policy, m: Memory, c: Conn, now: int) {
    !c.cordoned && c.id !in Protected(m) && !WithinGrace(p, m, c.id, now)
  }

  function Eligible(p: Policy, m: Memory, conns: seq<Conn>, now: int): seq<Conn> {
    if conns == [] then []
    else
      var c := conns[|conns| - 1];
      Eligible(p, m, conns[..|conns| - 1], now) + if EligibleVictim(p, m, c, now) then [c] else []
  }

  /** The first `count` eligible connectors in discovery order. */
  function PickVictims(p: Policy, m: Memory, conns: seq<Conn>, count: nat, now: int): seq<Conn> {
    var eligible := Eligible(p, m, conns, now);
    eligible[..Min(count, |eligible|)]
  }

  /** `k` provisions in a row, and how many started. */
  function ProvisionMany(w: World, at: int, f: Faults, k: nat): (World, nat) {
    if k == 0 then (w, 0)
    else
      var (before, n) := ProvisionMany(w, at, f, k - 1);
      var (after, id) := ProvisionOne(before, at, f);
      (after, if id.Some? then n + 1 else n)
  }

  /** Deprovisions the victims in order, and counts the drains started. */
  function DeprovisionAll(w: World, victims: seq<Conn>, at: int, f: Faults, cause: Cause): (World, nat) {
    if victims == [] then (w, 0)
    else
      var (before, n) := DeprovisionAll(w, victims[..|victims| - 1], at, f, cause);
      var id := victims[|victims| - 1].id;
      var (after, ok) := DeprovisionOne(before, id, id, at, f, cause);
      (after, if ok then n + 1 else n)
  }

  function ArmUp(w: World, at: int): World { w.(store := w.store.(lastUp := Some(at))) }

  function ArmDown(w: World, at: int): World { w.(store := w.store.(lastDown := Some(at))) }

  function ActScale(p: Policy, w: World, d: Decision, conns: seq<Conn>, at: int, f: Faults): World
    requires d.count >= 0
  {
    match d.direction
    case Stay => w
    case Up =>
      var (after, n) := ProvisionMany(w, at, f, d.count);
      if n > 0 then Note(ArmUp(after, at), ScaledUp(at, n, |conns| < p.minConnectors)) else after
    case Down =>
      var (after, n) := DeprovisionAll(w, PickVictims(p, w.mem, conns, d.count, at), at, f, ByScaleDown);
      if n > 0 then Note(ArmDown(after, at), ScaledDown(at, n)) else after
  }

  // --- replace ---------------------------------------------------------------

  function DropPending(w: World, oldId: Id): World {
    w.(mem := w.mem.(pending := w.mem.pending - {oldId}, order := Without(w.mem.order, oldId)))
  }

  /** Provision the replacement first, then register the pending replace. */
  function BeginReplace(w: World, oldId: Id, at: int, f: Faults, manual: bool): (World, bool) {
    match ProvisionOne(w, at, f)
    case (after, None) => (after, false)
    case (after, Some(id)) =>
      (Note(after.(mem := after.mem.(pending := after.mem.pending[oldId := Pending(id, at)],
                                     order := if oldId in after.mem.pending then after.mem.order
                                              else after.mem.order + [oldId])),
            ReplaceBegun(oldId, id, at, manual)), true)
  }

  /** One pending replace: done, complete, timed out, or still waiting. */
  function AdvanceReplace(p: Policy, w: World, conns: seq<Conn>, oldId: Id, at: int, f: Faults): World
    requires oldId in w.mem.pending
  {
    var pend := w.mem.pending[oldId];
    if oldId !in Ids(conns) then DropPending(w, oldId)
    else if pend.newId in HealthyIds(conns) then
      var (after, removed) := DeprovisionOne(w, oldId, oldId, at, f, ByReplace(pend.newId));
      Record(if removed then DropPending(after, oldId) else after, Row(at, Replace, Some(oldId), removed))
    else if at - pend.startedAt >= p.replaceTimeout then
      DropPending(if pend.newId in Ids(conns)
                  then DeprovisionOne(w, pend.newId, oldId, at, f, ByTimeout(oldId)).0
                  else w, oldId)
    else w
  }

  /** The pending replaces listed by `keys`, in that order. A key is only ever dropped by its own turn. */
  function AdvanceReplaces(p: Policy, w: World, conns: seq<Conn>, keys: seq<Id>, at: int, f: Faults): World {
    if keys == [] then w
    else
      var before := AdvanceReplaces(p, w, conns, keys[..|keys| - 1], at, f);
      var oldId := keys[|keys| - 1];
      if oldId in before.mem.pending then AdvanceReplace(p, before, conns, oldId, at, f) else before
  }

  // --- health ----------------------------------------------------------------

  function RestartCounts(p: Policy, history: seq<Row>, conns: seq<Conn>, now: int): map<Id, nat> {
    map c | c in conns && !c.cordoned :: c.id := CountRestarts(history, c.id, now - p.restartWindow)
  }

  function GatesOf(m: Memory): Gates { Gates(m.firstSeen, m.firstUnhealthy, m.pending.Keys) }

  function HealthPlan(p: Policy, w: World, conns: seq<Conn>, now: int): seq<HealthAction> {
    HealthActions(p, conns, RestartCounts(p, w.store.history, conns, now), GatesOf(w.mem), now)
  }

  /** A restart attempt is recorded whether or not it worked. */
  function Remediate(w: World, a: HealthAction, at: int, f: Faults): World {
    match a.kind
    case RestartInPlace => Record(w, Row(at, Restart, Some(a.id), a.id !in f.restart))
    case ReplaceNew => BeginReplace(w, a.id, at, f, false).0
  }

  function RemediateAll(w: World, actions: seq<HealthAction>, at: int, f: Faults): World {
    if actions == [] then w
    else Remediate(RemediateAll(w, actions[..|actions| - 1], at, f), actions[|actions| - 1], at, f)
  }

  // --- lock-held steps -------------------------------------------------------

  function Tick(w: World, at: int): World { w.(clock := at) }

  function FleetOf(w: World, reports: seq<Conn>): seq<Conn> { Discover(reports, w.store.cordons) }

  function ActiveOf(w: World, reports: seq<Conn>): seq<Conn> { Active(FleetOf(w, reports), w.mem.draining) }

  function ScaleDecision(p: Policy, w: World, conns: seq<Conn>, load: Load, at: int): Decision {
    DecideScale(p, load, |conns|, w.store.lastUp, w.store.lastDown, at, w.mem.pending != map[])
  }

  /** The scale phase, with the connector list fixed at discovery. */
  function ScalePhase(p: Policy, w: World, conns: seq<Conn>, load: Load, at: int, f: Faults): World {
    var d := ScaleDecision(p, w, conns, load, at);
    if d.count >= 0 then ActScale(p, w, d, conns, at, f) else w
  }

  function ReplacePhase(p: Policy, w: World, conns: seq<Conn>, at: int, f: Faults): World {
    AdvanceReplaces(p, w, conns, w.mem.order, at, f)
  }

  function HealthPhase(p: Policy, w: World, conns: seq<Conn>, at: int, f: Faults): World {
    RemediateAll(w, HealthPlan(p, w, conns, at), at, f)
  }

  /** Scale, advance replaces, remediate: all three on the one list computed at discovery. */
  function Act(p: Policy, w: World, conns: seq<Conn>, load: Load, at: int, f: Faults): World {
    HealthPhase(p, ReplacePhase(p, ScalePhase(p, w, conns, load, at, f), conns, at, f), conns, at, f)
  }

  function CycleStep(p: Policy, w: World, at: int, reports: seq<Conn>, load: Load, f: Faults): World {
    var seen := Observe(Tick(w, at), FleetOf(w, reports), at);
    Act(p, seen, ActiveOf(w, reports), load, at, f)
  }

  function ManualUp(p: Policy, w: World, at: int, reports: seq<Conn>, f: Faults): (World, bool) {
    if |ActiveOf(w, reports)| >= p.maxConnectors then (w, false)
    else match ProvisionOne(w, at, f)
      case (after, None) => (after, false)
      case (after, Some(_)) => (ArmUp(after, at), true)
  }

  function ManualDown(p: Policy, w: World, at: int, reports: seq<Conn>, f: Faults): (World, bool) {
    var conns := ActiveOf(w, reports);
    var victims := PickVictims(p, w.mem, conns, 1, at);
    if |conns| <= p.minConnectors || victims == [] then (w, false)
    else
      var (after, ok) := DeprovisionOne(w, victims[0].id, victims[0].id, at, f, ByManual);
      (if ok then ArmDown(after, at) else after, ok)
  }

  /** Refused for an unknown connector and for one already being replaced. */
  function ManualReplace(w: World, id: Id, at: int, reports: seq<Conn>, f: Faults): (World, bool) {
    if id !in Ids(FleetOf(w, reports)) || id in w.mem.pending then (w, false)
    else BeginReplace(w, id, at, f, true)
  }

  /** Cordoning an unknown connector is refused; lifting a cordon never is. */
  function ManualCordon(w: World, id: Id, cordoned: bool, at: int, reports: seq<Conn>): (World, bool) {
    if cordoned && id !in Ids(FleetOf(w, reports)) then (w, false)
    else
      (Record(w.(store := w.store.(cordons := if cordoned then w.store.cordons + {id} else w.store.cordons - {id})),
              Row(at, if cordoned then Cordon else Uncordon, Some(id), true)), true)
  }

  /** Starts a drain for every active connector, whatever the floor. */
  function TeardownStart(w: World, at: int, reports: seq<Conn>, f: Faults): (World, nat) {
    DeprovisionAll(w, ActiveOf(w, reports), at, f, ByTeardown)
  }

  /** A manager restart forgets the in-memory state, drains in flight included. */
  function Reboot(w: World): World {
    w.(mem := Memory(map[], [], map[], map[], map[]), boot := |w.sightings|)
  }

  // --- runs ------------------------------------------------------------------

  /** `FailedDiscovery` is a cycle or an override whose discovery failed; `DrainTail` is the end of a drain. */
  datatype Step =
    | Cycle(at: int, reports: seq<Conn>, load: Load, faults: Faults)
    | FailedDiscovery(at: int)
    | DrainTail(at: int, id: Id, ok: bool)
    | ScaleUpByHand(at: int, reports: seq<Conn>, faults: Faults)
    | ScaleDownByHand(at: int, reports: seq<Conn>, faults: Faults)
    | ReplaceByHand(at: int, id: Id, reports: seq<Conn>, faults: Faults)
    | CordonByHand(at: int, id: Id, cordoned: bool, reports: seq<Conn>)
    | Teardown(at: int, reports: seq<Conn>, faults: Faults)
    | ManagerRestart(at: int)

  /** Discovery lists each container once. */
  ghost predicate Accurate(w: World, reports: seq<Conn>) {
    DistinctIds(reports) && Ids(reports) == w.cloud.containers
  }

  /** Time does not run backwards, discovery is accurate, and a drain waits out its grace. */
  ghost predicate Enabled(p: Policy, w: World, s: Step) {
    && w.clock <= s.at
    && match s
       case Cycle(_, reports, _, _) => Accurate(w, reports)
       case DrainTail(at, id, _) => id in w.mem.draining && w.mem.draining[id] + p.drainGrace <= at
       case ScaleUpByHand(_, reports, _) => Accurate(w, reports)
       case ScaleDownByHand(_, reports, _) => Accurate(w, reports)
       case ReplaceByHand(_, _, reports, _) => Accurate(w, reports)
       case CordonByHand(_, _, _, reports) => Accurate(w, reports)
       case Teardown(_, reports, _) => Accurate(w, reports)
       case FailedDiscovery(_) => true
       case ManagerRestart(_) => true
  }

  ghost function Apply(p: Policy, w: World, s: Step): World
    requires Enabled(p, w, s)
  {
    match s
    case Cycle(at, reports, load, f) => CycleStep(p, w, at, reports, load, f)
    case FailedDiscovery(at) => Tick(w, at)
    case DrainTail(at, id, ok) => FinishDrain(Tick(w, at), id, at, ok)
    case ScaleUpByHand(at, reports, f) => ManualUp(p, Tick(w, at), at, reports, f).0
    case ScaleDownByHand(at, reports, f) => ManualDown(p, Tick(w, at), at, reports, f).0
    case ReplaceByHand(at, id, reports, f) => ManualReplace(Tick(w, at), id, at, reports, f).0
    case CordonByHand(at, id, cordoned, reports) => ManualCordon(Tick(w, at), id, cordoned, at, reports).0
    case Teardown(at, reports, f) => TeardownStart(Tick(w, at), at, reports, f).0
    case ManagerRestart(at) => Reboot(Tick(w, at))
  }

  /** `ws` is a run: each world follows from the one before by the matching step. */
  ghost predicate Run(p: Policy, ws: seq<World>, steps: seq<Step>) {
    && |ws| == |steps| + 1
    && forall i {:trigger steps[i]} :: 0 <= i < |steps| ==>
      Enabled(p, ws[i], steps[i]) && ws[i + 1] == Apply(p, ws[i], steps[i])
  }

  /** A manager that starts with an empty store and adopts the fleet it finds. */
  ghost predicate Initial(w: World) {
    && w.cloud.containers == w.cloud.logical
    && (forall id :: id in w.cloud.logical ==> id < w.cloud.nextId)
    && w.store.lastUp.None? && w.store.lastDown.None? && w.store.history == []
    && w.mem == Memory(map[], [], map[], map[], map[])
    && w.trace == [Adopted(w.cloud.containers)]
    && w.sightings == [] && w.boot == 0
  }
}
