# Fleet Commander: a verified model of the connector fleet

Fleet Commander keeps a fleet of Twingate Connectors at the right size and in good health. A cycle discovers
the fleet, collects load samples, decides and acts; operators can scale, replace, cordon and tear down by hand;
the waiting part of every drain runs in the background, outside the lock that serializes everything else.

This project models that system in Dafny and proves what it keeps over every run, for every load, every health
report, every API failure and every interleaving of cycles, drains and overrides. Check it with
`dafny verify dfyconfig.toml`.

## How it is put together

- `Policies`, `Decider`: the rules and the two decisions, pure, with the loops the source has as methods. `Criteria`:
  both decisions in terms of the readings, reports, timers and policy fields alone.
- `Fleet`: the state machine. A `World` holds the two inventories (logical connectors at Twingate, containers on
  the platform), the persisted store, the manager's memory, and a record of events and discoveries. Each
  lock-held section is one step: a cycle, a failed discovery, the tail of a drain, each override, teardown, a
  manager restart. `Run` is any sequence of enabled steps.
- `Effects`, `Steps`: every step is a sequence of small guarded effects, so a property that each effect keeps holds
  in every run (`RunKeeps`). The run theorems of `Ledger`, `ReplaceProtocol`, `RateLimits` and `HealthTimers` are
  all obtained from it.
- `Floor`: the redundancy floor. The hard part is the replace phase of one cycle, where a timeout tears down a
  replacement that may itself be waiting to be replaced. A potential (survivors less the debt of old connectors
  that began to drain in this cycle) never falls over the whole phase.
- `Ceiling`: the ceiling over runs, counted the same way, and the steps that may lift the fleet past it.
- `Draining`, `Completions`, `Remedies`: connectors in mid-drain are left alone, but the connector list is computed
  once per cycle and goes stale. For every listed connector of every cycle, whatever else is pending, sick or failing,
  `CompletedExact` and `RemedyExact` say whether its replace completes and whether it is restarted or replaced, in terms
  of the world the cycle began in and the calls that fail.
- `Reports`: the same in the fields of what discovery reports: whose replace completes, who is remediated, and what
  every teardown of a run had seen. `Overrides`: what each override, provision and end of a drain leaves behind.
- `Escalations`: restart before replace as progress over runs.
- `Cordons`: what a cordon keeps the manager from doing, and what it does not. `Convergence`: how many cycles it takes
  to reach a bound, and when a scale-down is blocked. `FleetTeardown`: what is left when everything is drained.
- `Witnesses`, `StuckFleets`: runs from an empty store that show what the fleet does not promise.
- `Reductions`, `Aggregators`, `Triggers`, `Hotspots`: percentiles in exact arithmetic, the pruned sample buffers, and
  how the fleet value of a window relates to the connectors' own values.
- `IsoTimestamps`: the text comparison behind the restart count. `EcsRestart`: one token in one live ECS task.
- `StateStores`, `Platforms`, `ControlLoops`: the store, the driven APIs and the control loop as objects. Each method
  of `ControlLoop` is proved to change the state exactly as the matching step of `Fleet` does, so the run theorems
  hold of sequences of its calls.

## What is taken as given

- Connector ids are distinct and not empty, and Twingate never reuses one. A create attempt takes the next number
  whether or not it succeeds.
- `connectorDelete` succeeds only for a logical connector that exists. Any call may fail at any time otherwise. A call
  that reports a failure has had no effect, except for the ECS calls of `EcsRestart`, whose answers may be lost.
- The listing of managed containers is accurate, store writes succeed, and restarting a container in place leaves
  it listed (for ECS see `EcsRestart.RestartOutcome`).
- Lock-held sections are atomic and happen in the order of their clock readings, which never decrease. A drain
  waits out at least its grace.
- The policy is one that configuration validation accepts (`Policy.Valid`, `src/fc/config.py:153-285`).

## Where the code does less than its documentation says

- A container whose removal failed has no logical connector any more, so every later `connectorDelete` for it fails
  and nothing the manager does removes it, teardown included (`Ledger.StuckForever`, and for every policy a run that
  leaves one behind: `StuckFleets.TeardownLeavesStuck`). `documentation/ARCHITECTURE.md:154` says it is picked up again
  on the next cycle.
- Scale-down candidates are the first eligible connectors in discovery order, whether or not they can be deleted. A
  container left by a failed removal stays eligible; while it comes first and one connector is asked for, low load
  removes nobody, however many others could go (`StuckFleets.BlockedFleet`, and exactly whom a cycle takes:
  `Convergence.LowCycleExact`).
- A manual scale-down checks the raw count, which includes a connector waiting to be replaced, so it can go below the
  floor (`Witnesses.HandDownBreach`, and exactly when: `Floor.HandDownExact`). `README.md:300-301` says overrides
  respect the floor.
- Completing a replace frees the slot that shielded the old connector from remediation. If its gates are open and its
  restart budget is spent, the same cycle provisions a second replacement for it, past the ceiling
  (`Witnesses.ReplacedTwice`, and exactly when, in any cycle: `Remedies.SecondReplacementExact`). With a refreshed list
  it would not (`Remedies.RefreshedCycleSpares`).
- Advancing the pending replaces does not look at cordons: a connector cordoned while a replace of it is in flight is
  deleted and drained once its replacement is healthy, and a cordoned replacement is torn down on a timeout
  (`Witnesses.CordonedYetReplaced`, and exactly when: `Cordons.CordonedStoppedExact`).
  `documentation/ARCHITECTURE.md:162` says the manager takes its hands off entirely.
- `documentation/CONFIGURATION.md:58` calls `max_connectors` a ceiling at which provisioning stops. What can go past
  it, connectors waiting to be replaced not counted: a second replacement as above, a timed-out replace whose
  replacement is not taken away, a replace by hand of a connector in mid-drain, a failed removal, and a manager restart
  (`Ceiling.StepCeiling`).
- The mean scale-up trigger need not imply the any trigger: for CPU percentiles it does if and only if the percentile
  is zero or divides a hundred (`Hotspots.MeanImpliesAnyExact`).
- An ECS restart does not look at the answer of its final `RunTask`: when that starts nothing, the restart reports
  success and the connector has no listed task (`EcsRestart.RestartedToNothing`, `EcsRestart.RestartOutcome`).

## Model

| member | source | states |
|---|---|---|
| Floor.FloorHolds | src/fc/loop.py:309-327 | In every run, once as many connectors as the floor are running, not draining and not waiting to be replaced, every later state has as many: cycles with any load, health and API failures, drains that succeed or fail, manual scale-ups and replaces, manager restarts, and every manual scale-down that does not itself breach the floor; only those and teardown are excluded |
| Floor.StepFloor | src/fc/loop.py:1255-1303 | Teardown apart, one step keeps the floor if and only if it is not a manual scale-down that finds a removable victim above the counted floor with no survivor to spare |
| Floor.CycleFloor | src/fc/loop.py:314-327 | One whole cycle keeps the floor: scaling, then advancing the replaces, then remediation, all on one connector list |
| Floor.AdvancesPotential | src/fc/loop.py:1096-1161 | The replace phase as a whole costs no survivor, with replacement chains and several timeouts in one cycle |
| Floor.ScaleFloor | src/fc/loop.py:639-662 | The scale phase never goes below the floor, whichever deletions fail |
| Floor.HealthFloor | src/fc/loop.py:1050-1056 | Remediation costs no survivor, because the replacement comes first |
| Floor.HandDownCost | src/fc/loop.py:1291-1301 | A manual scale-down takes exactly one survivor when it starts a drain, and none otherwise |
| Floor.HandDownExact | src/fc/loop.py:1292-1294 | A manual scale-down keeps the floor if and only if the count it checks is at the floor, nobody is eligible, the first eligible connector cannot be deleted, or a survivor is to spare |
| Floor.UnpairedHandDownSafe | src/fc/loop.py:1292-1294 | With no replace pending a manual scale-down never breaches the floor |
| Ceiling.CeilingHolds | src/fc/loop.py:314-327 | In every run of safe steps, once the connectors running, not draining and not waiting to be replaced are within the ceiling they stay so, and the active ones exceed it by no more than the replaces pending |
| Ceiling.StepCeiling | src/fc/loop.py:1255-1392 | Which steps are safe: a cycle if no replace times out without its replacement being taken away and none begins of a connector that the cycle has begun to drain; any other step if and only if it is not a failed removal, a replace by hand in mid-drain or a manager restart that lacks the room |
| Ceiling.CycleCeiling | src/fc/loop.py:314-327 | A whole cycle of that kind keeps the ceiling: scaling, replacement chains and several timeouts, then remediation |
| Witnesses.HandDownBreach | src/fc/loop.py:1291-1301 | For every policy, a run from a fleet at the floor: one manual replace, one manual scale-down, one survivor short |
| Ledger.EveryConnectorAccounted | src/fc/loop.py:730-764 | In every run the record of events determines where each id is: running, container only, leaked after a failed mint or start, or gone; a draining one has a container and no logical connector |
| Ledger.DrainBeforeRemoval | src/fc/loop.py:857-861 | In every run each container removal follows the deletion of that connector by at least the drain grace |
| Ledger.DeletedOnceRemovedOnce | src/fc/loop.py:803-836 | In every run nothing is created, started, deleted or removed twice, so no connector has two drains in flight |
| Ledger.CountersBalance | src/fc/loop.py:753-753 | In every run the containers now are those at the start plus the ups less the downs counted |
| Ledger.StuckForever | src/fc/loop.py:863-884 | Once a drain has ended without removing its container, that container stays, whatever happens later |
| Ledger.EffectBooked | src/fc/loop.py:730-836 | Each change of an inventory is recorded by exactly the event that reports it, in an order that respects create, start, delete, remove |
| ReplaceProtocol.PendingFormsPaths | src/fc/loop.py:1053-1056 | In every run the pending replaces have replacements of their own, younger than what they replace: following them never leads back, and each is visited before the replace of its own replacement |
| ReplaceProtocol.TeardownsWarranted | src/fc/loop.py:1104-1161 | In every run an old connector is deleted by a replace only at a discovery that shows its own replacement alive and not docker-unhealthy, and a timeout deletes only that attempt's replacement, a full timeout after the attempt began |
| ReplaceProtocol.TeardownsEndLatest | src/fc/loop.py:1096-1161 | In every run each deletion by a replace, for health or for a timeout, ends the latest attempt begun for that connector, and a timeout not before it is due |
| ReplaceProtocol.NothingWedged | src/fc/loop.py:1100-1161 | After any cycle each remaining replace is younger than the timeout, or its replacement was seen healthy and deleting the old connector failed in this cycle |
| Draining.DrainingLeftAlone | src/fc/loop.py:309-311 | A connector draining when a cycle begins is not on its list, and nothing is done to it or recorded about it in that cycle |
| Draining.HandDownSparesPairs | src/fc/loop.py:664-696 | A manual scale-down takes at most one connector, never an end of a pending replace, a cordoned one, or one in its startup grace |
| Remedies.CompletedExact | src/fc/loop.py:1100-1133 | A cycle completes a replace if and only if, when it begins, the replacement is seen healthy, the old connector can be deleted, and no replace visited earlier times out and tears the old connector down |
| Reports.CompletedOnReports | src/fc/loop.py:1100-1179 | A cycle retires a connector for its replacement if and only if the replacement is reported alive and not failing its health check, is not in mid-drain, the connector can be deleted, and no replace visited earlier times out and takes it away |
| Reports.EndsWarranted | src/fc/loop.py:1104-1179 | In every run each deletion that ends a replace was made by a cycle whose own reports warrant it: a retirement on a report of the replacement alive and not failing its health check, a timeout without one |
| Reports.RemediedOnReport | src/fc/loop.py:589-635 | Whether a cycle restarts a reported connector, or begins a replace of it, in the fields of its report, the timers and the restarts recorded |
| Completions.AdvancedRoutes | src/fc/loop.py:1096-1161 | Before remediation a cycle has stopped routing to exactly those that scaling took, whose replace completes, or that a timeout tears down |
| Remedies.RemedyExact | src/fc/loop.py:314-327 | In any cycle, whatever else is pending, sick or failing, each listed connector is restarted, or gets a replace begun, exactly as its gates and its restart budget say when the cycle begins, unless a replace of it still waits and will not complete in that cycle; a replace that is due does not begin only if its own create attempt, whose number is given, fails |
| Remedies.StaleListExact | src/fc/loop.py:324-327 | A connector whose routing a cycle stops is restarted in that same cycle, or gets a replace begun, if and only if its gates were open when the cycle began and no replace in flight shields it, by whether its budget is spent; a replace needs its own create attempt to work |
| Remedies.SecondReplacementExact | src/fc/loop.py:1104-1145 | When a cycle will complete a replace, it drains that connector, and begins another replace of it if and only if it is remediable with its restart budget spent and the create attempt for the second replacement works, whatever else is going on |
| Remedies.RefreshedCycleSpares | src/fc/loop.py:324-327 | With the connector list refreshed before the health pass, no cycle would restart or replace a connector whose routing it has stopped, nor leave a replace of one whose replace it has completed |
| Remedies.ReplaceTurn | src/fc/loop.py:1096-1161 | After the replace phase a listed connector has a pending replace exactly when its replace was still waiting and did not complete |
| Witnesses.ReplacedTwice | src/fc/loop.py:1104-1145 | A run of three cycles in which a fleet at its ceiling of two ends with four containers |
| Cordons.CordonHonoured | src/fc/engine/decider.py:404-408 | In no cycle, whatever the load, the health reports and the failures, is there a scale-down, a restart, or a new health-driven replace of a cordoned connector |
| Cordons.CordonedStoppedExact | src/fc/loop.py:1096-1161 | A cycle stops routing to a cordoned connector if and only if a replace of it begun earlier completes, or it is a replacement that a timeout tears down |
| Witnesses.CordonedYetReplaced | src/fc/loop.py:1096-1161 | A run: a restart, a health-driven replace, a cordon by hand, and a cycle that deletes and drains the cordoned connector |
| RateLimits.RestartsLimited | src/fc/loop.py:617-633 | In every run, manager restarts included, any closed interval as long as the restart window holds at most the budgeted restart attempts on one connector, failed ones included |
| RateLimits.ReplacesEarned | src/fc/engine/decider.py:425-442 | In every run each health-driven replace found the full restart budget recorded within the window before it |
| Escalations.SickGetReplaced | src/fc/engine/decider.py:425-442 | In every run, with the cycles in which a connector is due for remediation all within one restart window: one of them begins a replace of it, failing to only if its create attempt fails, or they are no more than the restart budget and each has left a restart |
| Escalations.SustainedIsDue | src/fc/engine/decider.py:404-424 | A connector that nobody cordoned, unhealthy at every discovery of a stretch as long as the threshold and seen first at least a startup grace ago, is due in the cycle unless a replace in flight shields it |
| RateLimits.ScalingPaced | src/fc/loop.py:648-662 | In every run an interval holds at most one more load-driven scale-up (autoscale down) than the cooldowns that fit in it, and moves at most a step for each |
| RateLimits.FillsArmCooldown | src/fc/loop.py:648-662 | In every run a load-driven scale-up comes at least a cooldown after every scale-up before it, floor fills included |
| HealthTimers.StreakExact | src/fc/loop.py:449-479 | The recursive start of a streak is the time at the head of the longest unbroken one, and there is none exactly when the last discovery does not show the connector |
| HealthTimers.TimersRefineHistory | src/fc/loop.py:449-479 | In every run each timer is exactly the start of the longest unbroken run of discoveries, up to the last, that show the connector unhealthy (present) |
| Reports.SightingsAreReports | src/fc/loop.py:299-311 | In every run each recorded discovery is that of a cycle, and shows as present, unhealthy and healthy exactly those that its reports do |
| HealthTimers.RemediationSustained | src/fc/engine/decider.py:291-320 | In every run each restart attempt and health-driven replace had the connector unhealthy at every discovery from one at least a threshold old |
| Convergence.LoadConverges | src/fc/engine/decider.py:186-266 | Persistent low (high) load, with the first eligible connectors removable whenever a step is due: after `k` cycles that find the cooldown over, the active count is `k` steps lower (higher), stopping exactly at the floor (ceiling); cycles within the cooldown change nothing |
| Convergence.BoundReachedExact | src/fc/engine/policy.py:167-221 | The bound is reached if and only if that many such cycles number the distance over the step, rounded up |
| Convergence.LowCycleExact | src/fc/loop.py:689-696 | A low-load cycle past the cooldown takes exactly those of the first eligible connectors, as many as the step asks for, that can be deleted; it takes the full step if and only if all of them can, and arms the cooldown if and only if it takes anybody |
| Convergence.LowRunExact | src/fc/loop.py:639-662 | Under persistent low load the count falls by exactly what the ready cycles took; while they take nobody, the active connectors and the cooldown stay as they are |
| Convergence.CycleArms | src/fc/loop.py:648-662 | In any cycle the up (down) cooldown is armed if and only if its scale phase raised (lowered) the number of active connectors; nothing else in the cycle touches either |
| Convergence.CalmArms | src/fc/loop.py:648-662 | A calm cycle arms exactly the cooldown of the direction in which it moved the fleet |
| Convergence.ScaleAnnounces | src/fc/loop.py:639-662 | The record of a scale phase tells by how much it changed the number of active connectors, and marks a scale-up as a floor fill exactly when it found the fleet below the floor |
| Convergence.StepsNeededExact | src/fc/engine/policy.py:180-180 | The fewest steps that cover a distance are the quotient rounded up |
| Convergence.FloorFilledAtOnce | src/fc/engine/decider.py:127-142 | Below the floor the scale phase of any cycle brings the count to the floor, short only by its own provisions that fail, whatever the load, the cooldown, the health of the fleet and the replaces in flight |
| Convergence.CalmFloorFill | src/fc/engine/decider.py:127-142 | When no replace is pending or due, so does the whole cycle: with no provision failing it leaves the fleet exactly at the floor |
| FleetTeardown.TeardownExact | src/fc/loop.py:201-248 | Teardown ends after exactly as many drains as are in flight once it has started them all, in any order; what is left are the containers it started no drain for and those whose removal failed |
| FleetTeardown.TeardownCompletes | src/fc/loop.py:213-248 | With no faults, teardown leaves exactly the containers that were stuck before it |
| StuckFleets.TeardownLeavesStuck | src/fc/loop.py:863-884 | For every policy, a run from an empty store: a removal fails, a teardown follows in which nothing fails, and that container is left |
| StuckFleets.BlockedFleet | src/fc/loop.py:689-696 | For every policy, a run in which any number of low-load cycles past the cooldown and every startup grace leave the fleet one above the floor, with all its connectors eligible and all but the first removable |
| Steps.StepKeeps | src/fc/loop.py:299-327 | A property that every guarded effect keeps is kept by every step |
| Steps.RunKeeps | src/fc/loop.py:267-349 | A property that every guarded effect keeps holds throughout every run |
| Steps.VictimsEligible | src/fc/loop.py:664-696 | Victims are as many of the eligible as asked for: not cordoned, not an end of a pending replace, not in the startup grace |
| Overrides.EligibleInOrder | src/fc/loop.py:664-709 | The eligible are, in discovery order, exactly those not cordoned, in no pending replace on either side, and not first seen less than a startup grace ago |
| Steps.ActiveOfExact | src/fc/loop.py:309-311 | The list a section works on holds exactly the containers that are not draining, once each |
| Effects.SoundKept | src/fc/loop.py:1053-1056 | Ids stay below the next one, a draining connector has a container and no logical connector, replacements are younger and not shared, and the registration order lists each pending replace once |
| Decider.Decide | src/fc/engine/decider.py:58-274 | The early returns take the decision of `DecideScale`: fill, then replace suppression, then the trigger by mode, then low load |
| Criteria.DecisionExact | src/fc/engine/decider.py:127-266 | Exactly when the decision is to grow or to shrink, and by how many: below the floor what is missing; else, with no replace pending, a step within the bounds when the trigger fires (or is silent and the load is low) and the cooldown of that direction is over; each in readings and policy fields |
| Criteria.TriggerExact | src/fc/engine/decider.py:162-186 | The trigger in each mode: a fleet value at its high watermark, one connector at its own, or at least one and at least the fraction of the fleet |
| Decider.QuorumExact | src/fc/engine/decider.py:177-186 | In quorum mode `k` hot connectors of `n` fire the trigger if and only if `k >= 1` and `k >= fraction * n` |
| Decider.DecideHealth | src/fc/engine/decider.py:404-452 | The loop appends one action for each remediable connector, in fleet order |
| Criteria.ActionExact | src/fc/engine/decider.py:279-452 | A connector gets an action if and only if it is not cordoned, has no replace pending, is reported dead in any of the three ways or fails its health check, and is past the startup grace and the duration gate; a replace if and only if its restarts reach the budget |
| Decider.ActionsJustified | src/fc/engine/decider.py:404-452 | Each action answers a connector whose every gate is open, and is a replace exactly when its restart budget is spent |
| Decider.OneActionEach | src/fc/engine/decider.py:404-452 | No connector gets two actions |
| Decider.NoneOverlooked | src/fc/engine/decider.py:404-452 | Every connector whose gates are all open gets one |
| Policies.CountOverHighWatermark | src/fc/engine/policy.py:66-109 | The loop counts exactly the connectors over either high watermark, and the value beside the count is the highest CPU, none exactly when none is reported |
| Policies.ScaleUpCount | src/fc/engine/policy.py:167-180 | A step, never past the ceiling, and none exactly at or above it |
| Policies.ScaleDownCount | src/fc/engine/policy.py:205-221 | A step, never past the floor, and none exactly at or below it |
| Policies.FloorFillCount | src/fc/engine/policy.py:183-202 | Below the floor exactly what is missing, otherwise nothing |
| Reductions.RankExact | src/fc/engine/aggregator.py:61-63 | In exact arithmetic the rank, its floor and its ceiling are those of integer division |
| Reductions.AverageExact | src/fc/engine/aggregator.py:48-49 | The running total divided at the end is the sum over the number |
| Reductions.ReduceExact | src/fc/engine/aggregator.py:36-66 | Each reduction: none for no samples, the sum over the number, the least sample, or the value interpolated at the percentage of the steps between the ordered samples |
| Reductions.OrderStatistic | src/fc/engine/aggregator.py:58-58 | The `k`-th smallest sample is below a value exactly when more than `k` samples are |
| Reductions.PercentileEnds | src/fc/engine/aggregator.py:56-66 | The 0th percentile is the minimum, the 100th the maximum, and each one lies between |
| Reductions.PercentileRises | src/fc/engine/aggregator.py:56-66 | A higher percentile is no smaller |
| Reductions.PercentileMonotone | src/fc/engine/aggregator.py:56-66 | Raising samples lowers no percentile |
| Reductions.PercentileTail | src/fc/engine/aggregator.py:56-66 | When the percentile reaches a value, all samples but its rank rounded up do |
| Reductions.HundredthsProduct | src/fc/engine/aggregator.py:61-61 | The rank in hundredths is the percentile times the steps between the samples |
| Reductions.ReducePermuted | src/fc/engine/aggregator.py:36-53 | Every reduction depends on the samples only, not on their order |
| Aggregators.FleetValueAnyOrder | src/fc/engine/aggregator.py:137-158 | The fleet value does not depend on the order in which the connectors are visited |
| Aggregators.PruningKeepsFleetValue | src/fc/engine/aggregator.py:96-158 | After any history of ingests and prunes, with windows no longer than the retention, the fleet value is that of the full history |
| Aggregators.PruningKeepsOwnValues | src/fc/engine/aggregator.py:96-203 | So are the connectors' own values |
| Aggregators.Aggregator.Ingest | src/fc/engine/aggregator.py:87-94 | Appends each sample to its connector's buffer |
| Aggregators.Aggregator.Prune | src/fc/engine/aggregator.py:96-109 | Keeps exactly the samples at or after the cutoff, and no empty entry |
| Aggregators.PrunedExact | src/fc/engine/aggregator.py:96-109 | A pruned buffer is left for exactly the connectors with a sample at or after the cutoff, and holds exactly those of its samples, in their order |
| Aggregators.WindowExact | src/fc/engine/aggregator.py:137-158 | A window holds exactly the values of the samples that carry the signal at or after the cutoff, in their order |
| Aggregators.Aggregator.Reduce | src/fc/engine/aggregator.py:111-158 | The fleet value, for every order of the connectors |
| Aggregators.Aggregator.ReducePerConnector | src/fc/engine/aggregator.py:160-203 | Each connector's own value, and none for one without samples of the signal |
| Triggers.MeanImpliesAny | src/fc/engine/decider.py:162-176 | If the fleet value is high, some connector is individually hot: throughput with any aggregation, CPU with mean, minimum, or a percentile that is zero or divides a hundred |
| Triggers.PooledMean | src/fc/engine/aggregator.py:137-144 | The fleet CPU mean is the sum of the connectors' own means, each times its number of samples, over the number of all samples |
| Triggers.MeanRate | src/fc/engine/aggregator.py:146-158 | The fleet throughput is the sum of the connectors' own rates over the number of those that report one, and there is none exactly when nobody does |
| Triggers.PooledPercentile | src/fc/engine/aggregator.py:56-66 | When the percentile divides a hundred, a pool whose connectors' percentiles are all below a value has its own below it |
| Triggers.FleetThroughputBelow | src/fc/engine/aggregator.py:146-158 | The fleet throughput stays below what the connectors' reduced rates all stay below |
| Hotspots.MeanImpliesAnyExact | src/fc/engine/decider.py:162-176 | For every policy, the mean trigger implies the any trigger on every sample history if and only if CPU is aggregated by mean, minimum, or a percentile that is zero or divides a hundred |
| Hotspots.PercentileParts | src/fc/engine/aggregator.py:137-203 | For every other CPU percentile, a sample history in which the mean trigger fires and no connector is hot |
| Hotspots.FewHotOnScaleDown | src/fc/engine/decider.py:223-266 | When a scale-down is decided, `k` throughput-hot connectors among `n` reporting satisfy `k * high <= n * low`, so `k < n`; in any mode none is hot, in quorum mode none or less than the fraction of the fleet |
| IsoTimestamps.TextOrderIsTimeOrder | src/fc/state.py:63-74 | For all UTC timestamps text order is time order, with and without a fraction, and equal texts are equal times |
| IsoTimestamps.OffsetExact | src/fc/state.py:175-175 | With the zero fraction left out, text order is time order if and only if the offset's first character sorts before the point, the case that section 5.1 of RFC 3339 leaves out |
| IsoTimestamps.InstantOrder | src/fc/state.py:63-74 | Instants counted through the calendar are ordered as the fields are |
| IsoTimestamps.CountsByTextAgree | src/fc/state.py:278-287 | The text query counts exactly the restarts at or after the cutoff instant |
| EcsRestart.RestartExact | src/fc/actuator/ecs_actuator.py:347-403 | A restart keeps its token in one live task, at every moment and whatever the backend does, if and only if no other live task carries that token when it is asked for |
| EcsRestart.OneTokenOneTask | src/fc/actuator/ecs_actuator.py:248-425 | Over any sequence of listings, provisions, restarts and deprovisions, with the backend stopping tasks when it likes and failing any call, no state has a token in two live tasks; a restart is given a task of the last listing, once, even if it stopped while an earlier restart was polling |
| EcsRestart.RestartOutcome | src/fc/actuator/ecs_actuator.py:347-403 | Once the stop took effect the old task is not listed; a successful restart lists a new one with the same id and token exactly when the run was answered with a task |
| EcsRestart.RestartedToNothing | src/fc/actuator/ecs_actuator.py:387-403 | A restart that reports success and leaves the connector without a listed task |
| EcsRestart.LaunchExact | src/fc/actuator/ecs_actuator.py:387-399 | Running a token keeps exclusivity exactly when no live task carries it |
| EcsRestart.EcsActuator.Provision | src/fc/actuator/ecs_actuator.py:248-292 | One task with the new token, an error when nothing was started |
| EcsRestart.EcsActuator.WaitUntilStopped | src/fc/actuator/ecs_actuator.py:327-345 | Polls at most so often, and succeeds only once the task is STOPPED or gone |
| EcsRestart.EcsActuator.FindAndStop | src/fc/actuator/ecs_actuator.py:361-385 | Refuses a task that is missing or has no token to reuse, before anything is stopped |
| EcsRestart.EcsActuator.Restart | src/fc/actuator/ecs_actuator.py:347-403 | Passes through exactly the states of `Restarted`: no rerun before the old task has stopped |
| EcsRestart.EcsActuator.Deprovision | src/fc/actuator/ecs_actuator.py:407-425 | Requests the stop, and reports whether it was answered |
| StateStores.StateStore.SetCooldown | src/fc/state.py:112-132 | Upserts one direction and leaves the other |
| StateStores.StateStore.RecordAction | src/fc/state.py:157-187 | Appends one row |
| StateStores.StateStore.SetCordon | src/fc/state.py:227-252 | Adds or removes one cordon |
| StateStores.StateStore.CountRecentRestarts | src/fc/state.py:264-289 | The number of restart rows of the connector at or after the cutoff, failed ones included |
| StateStores.CountIsRows | src/fc/state.py:280-287 | The recursive count is the number of matching rows |
| ControlLoops.ControlLoop.constructor | src/fc/loop.py:165-198 | A new manager process remembers only what the store and the platform hold |
| ControlLoops.ControlLoop.ProvisionOne | src/fc/loop.py:711-764 | Create, mint, start; what each failure leaves behind and records |
| Overrides.ProvisionLeaves | src/fc/loop.py:711-764 | What a provision leaves: nothing if the create fails, a logical connector alone if a later call does, and both with a container if none does |
| ControlLoops.ControlLoop.DeprovisionOne | src/fc/loop.py:766-836 | Stops routing and registers the drain, or records the failure and changes nothing else |
| ControlLoops.ControlLoop.FinishDrain | src/fc/loop.py:838-930 | Removes the container and its cordon, or records the failure; the drain ends either way |
| Overrides.DrainLeaves | src/fc/loop.py:838-930 | What the end of a drain leaves: no container and no cordon if it works, both if it does not, and a row under the time it began |
| ControlLoops.ControlLoop.UpdateFirstSeen | src/fc/loop.py:449-460 | Keeps known times, stamps newcomers, forgets the departed |
| ControlLoops.ControlLoop.UpdateFirstUnhealthy | src/fc/loop.py:462-479 | The same for the unhealthy, resetting on recovery |
| ControlLoops.ControlLoop.PickVictims | src/fc/loop.py:664-709 | The first eligible connectors in discovery order |
| ControlLoops.ControlLoop.ActScale | src/fc/loop.py:639-662 | Provisions or drains as decided, and arms the cooldown only for an effective action |
| ControlLoops.ControlLoop.BeginReplace | src/fc/loop.py:1025-1068 | Provisions the replacement first, and registers the replace only if that worked |
| ControlLoops.ControlLoop.AdvanceOne | src/fc/loop.py:1096-1161 | One pending replace: done, complete, timed out, or still waiting |
| Overrides.CompletionLeaves | src/fc/loop.py:1109-1133 | A completion that works leaves the old connector in mid-drain and the replace over; one that does not leaves both as they were; its row says which |
| ControlLoops.ControlLoop.ProcessPendingReplaces | src/fc/loop.py:1070-1161 | Visits the replaces pending when it began, in registration order |
| ControlLoops.ControlLoop.RestartOne | src/fc/loop.py:973-1023 | Records the attempt whether or not it worked |
| Overrides.RestartLeaves | src/fc/loop.py:973-1023 | A restart leaves a row that says whether it worked, and nothing else |
| ControlLoops.ControlLoop.DecideHealth | src/fc/loop.py:589-635 | Counts restarts of the connectors that are not cordoned, and plans from them and the timers |
| ControlLoops.ControlLoop.ActHealth | src/fc/loop.py:932-953 | Performs the actions in order |
| ControlLoops.ControlLoop.ReduceLoad | src/fc/loop.py:481-522 | The four windowed signals of the listed connectors |
| ControlLoops.ControlLoop.Survey | src/fc/loop.py:299-311 | Marks cordons, updates the timers, and lists the connectors not in mid-drain |
| ControlLoops.ControlLoop.RunCycle | src/fc/loop.py:267-349 | One cycle takes the state through exactly one cycle step on the load reduced from the pruned samples; a failed discovery changes nothing |
| ControlLoops.ControlLoop.ManualScale | src/fc/loop.py:1255-1303 | Up within the ceiling, down above the floor as counted, arming the cooldown on success |
| Overrides.HandUpExact | src/fc/loop.py:1281-1290 | A manual scale-up is refused at the ceiling and when nothing starts; otherwise it adds one connector and arms the up cooldown |
| Overrides.HandDownTakes | src/fc/loop.py:1291-1301 | A manual scale-down drains the first connector that may go and arms the down cooldown, exactly when the count is above the floor and that connector can be deleted |
| Overrides.HandReplaceExact | src/fc/loop.py:1355-1392 | A manual replace is refused for an unknown connector and for one being replaced; otherwise it brings up a replacement and registers the replace last, or, if nothing starts, none |
| Overrides.HandCordonExact | src/fc/loop.py:1305-1353 | Setting a cordon needs a known connector, lifting one does not; exactly that cordon changes, and the change is recorded |
| ControlLoops.ControlLoop.ManualReplace | src/fc/loop.py:1355-1392 | Refused for an unknown connector and for one already being replaced |
| ControlLoops.ControlLoop.ManualCordon | src/fc/loop.py:1305-1353 | Cordoning an unknown connector is refused, lifting a cordon never is |
| ControlLoops.ControlLoop.DrainTail | src/fc/loop.py:857-930 | The end of one background drain keeps the invariant |
| ControlLoops.ControlLoop.AwaitPendingDrains | src/fc/loop.py:201-211 | Ends the drains in flight when it is called, in whatever order, and returns with none in flight |
| ControlLoops.ControlLoop.TeardownFleet | src/fc/loop.py:213-248 | Returns the number of drains started, only once no drain is in flight; what remains are the containers no drain was started for and those that could not be removed |
| Overrides.TeardownStarts | src/fc/loop.py:230-248 | The number teardown returns is that of the active connectors that can be deleted |

## Left out

- Joining the container list with Twingate's connector list by id or name: a report arrives joined.
- Connectors without an id, which are keyed by container id and not excluded while they drain.
- Two manager processes at once, such as `fc-teardown` beside a running loop, and cancellation of tasks.
- Clock readings taken before the lock is granted: sections happen in the order of their readings.
- An override whose discovery fails: like a failed discovery, it changes nothing.
- The debounce that rejects an override while another is in flight: a rejected override changes nothing.
- Exceptions from the store in the middle of a cycle: its writes are taken to succeed.
- HTTP and GraphQL transport, retries and pagination, the Docker and ACI actuators, and ECS task definitions, tags and batching: their calls are steps that succeed or fail.
- Collectors and log parsing: samples are arbitrary input, not negative where that is stated.
- Floating-point rounding: load values are reals and ranks exact.
- SQLite itself, logging, metrics, status snapshots, the web endpoints, YAML loading, reason strings and the audit actor.
- Naive timestamps and offsets other than UTC in the store: the loop writes UTC only.
