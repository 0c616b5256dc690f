# kustodian node-maintenance daemon, modelled in Dafny

kustodian runs on every node of a cluster as a daemon. When the host asks for
maintenance by creating a sentinel file, the daemon takes a cluster-wide lock,
cordons and drains its node, and creates an in-progress marker file on the host.
When the sentinel is gone again, it uncordons the node, removes the marker, releases
the lock and counts one completed maintenance. It can also:

- stamp the node with two annotations: the in-progress key and the time maintenance
  was most recently needed;
- set a prefer-no-schedule taint while it waits for the lock, and clear it otherwise.

This project models `cordonAndDrainAsRequired` in `cmd/kustodian/main.go`: the
startup recovery, one tick of its loop, the loop itself, the helper functions it calls
(`holding`, `acquire`, `release`, `cordonanddrain`, `uncordon`, the marker helpers,
`addNodeAnnotations`, `deleteNodeAnnotation`), and the JSON Pointer escaping of
annotation keys.

The files:

- `wrappers.dfy`: the `Option` type.
- `json_pointer.dfy` (`JsonPointer`): how `deleteNodeAnnotation` escapes a key into
  a JSON Pointer. It writes `/` as `~1` and, unlike section 3 of RFC 6901, leaves `~`
  as it is. The file also holds the patch document and the escaping lemmas.
- `annotations.dfy` (`Annotations`): the bookkeeping annotation keys, the two
  timestamps, and the merge loop of `addNodeAnnotations` as a method with a loop.
- `maintenance.dfy` (`Maintenance`): the state machine on values.
  - A `World` holds:
    - the lock slot;
    - the taint;
    - the node's schedulability, annotations and drain count;
    - the marker file;
    - the in-memory `nodeMeta`;
    - the two metrics.
  - Every collaborator call is a `Step`.
  - `TickPlan` lists the steps one tick performs when nothing fails. The startup
    performs `RecoveryPlan` after a lock test and then `TaintResetPlan`, each phase
    under its own environment.
  - `Run` performs a plan and stops at the step that fails. That is where main.go
    calls `log.Fatal`.
  - `TickSpec`, `StartupSpec` and `Ticks` are the specifications of the methods.
- `runs.dfy` (`Runs`): general facts about `Run`:
  - composition;
  - where it halts;
  - which fields a plan can change;
  - bounds on the counters.
- `steps.dfy` (`PlanSteps`): each plan unfolded into the steps it performs one by one,
  in the order the daemon makes them.
- `daemon.dfy` (`Daemon`): the class `Kustodian`.
  - Its fields are the world one daemon process sees.
  - It has one method per helper function of main.go.
  - `Recover`, `ResetTaint`, `Start`, `Tick` and `Serve` are proved equal to the
    specifications above.
- `properties.dfy` (`MaintenanceProperties`): what one tick, the startup and a sequence
  of ticks do, stated field by field.
- `faults.dfy` (`Faults`): no tick and no startup phase makes the same kind of call
  twice. So naming the kind of call that fails singles out one call, and any call of a
  tick can be that one.

Inputs the daemon reads from outside the model are parameters:

- `TickInput` carries whether the clock is in the maintenance window and whether the
  sentinel exists.
- `Env` carries:
  - the lock's answer to an acquire;
  - the current time, already formatted as the daemon writes it;
  - which collaborator call, if any, fails.
- `StartupInput` carries the two sentinel readings of the startup (main.go:299 and 316)
  and one `Env` for each startup phase: the recovery and the taint reset. Either read
  can therefore be the call that fails, independently of the other.

The model keeps these behaviours of the code as they are:

- A tick that finds the sentinel while already holding the lock re-acquires it. It then
  cordons, drains and raises the gauge again (`HeldLockDrainsAgain`).
- The lock outlives the process, but the in-progress gauge does not. A process restarted
  while its node holds the lock and the sentinel is still present starts with the gauge
  at 0 and keeps the lock (`Boot`). If the sentinel is gone by its first tick in the
  window, that tick lowers the gauge (main.go:350) to -1 (`GaugeCanGoNegative`). If the
  sentinel is already gone at startup, the recovery releases the lock instead. No later
  tick then lowers the gauge, and the recovery leaves the marker file and the metrics
  alone (`StartupKeepsMarkerAndMetrics`).
- `~` in an annotation key is not escaped (`EscapeCollision`).

`nodeMeta` keeps the node's schedulability from before maintenance alongside the lock
(main.go:355 and 370), but main.go never restores it: the end of maintenance always
uncordons the node (main.go:300 and 342), and so does the model.

## Model

| member | source | states |
|---|---|---|
| JsonPointer.EscapeKey | cmd/kustodian/main.go:273 | the escaped key contains no `/` and is longer than the key by exactly one character per `/` |
| JsonPointer.Unescape | cmd/kustodian/main.go:270-273 | definition, no contract of its own: the decoding of a reference token by section 4 of RFC 6901 (`~1` to `/`, `~0` to `~`, left to right), used as the reference inverse of the escaping in `UnescapeEscape` |
| JsonPointer.Addressed | cmd/kustodian/main.go:270-273 | definition, no contract of its own: the annotation key the path built for a key names once decoded |
| JsonPointer.DeletePath | cmd/kustodian/main.go:273 | definition, no contract of its own: the `path` of the remove operation, the annotations prefix followed by the escaped key |
| JsonPointer.RemovePatch | cmd/kustodian/main.go:273 | definition, no contract of its own: the one-operation JSON Patch document the format string builds |
| JsonPointer.EscapeConcat | cmd/kustodian/main.go:273 | escaping a concatenation is the concatenation of the escapes |
| JsonPointer.EscapeChar | cmd/kustodian/main.go:273 | a single `/` becomes `~1`; any other character is kept |
| JsonPointer.EscapeWithoutSlash | cmd/kustodian/main.go:273 | a key without `/` is sent unchanged |
| JsonPointer.UnescapeEscape | cmd/kustodian/main.go:270-273 | for keys without `~`, unescaping the escaped key gives back the key |
| JsonPointer.EscapeCollision | cmd/kustodian/main.go:273 | because `~` is left alone, the distinct keys `a~1b` and `a/b` get the same path, and that path decodes as `a/b` |
| JsonPointer.EscapeNamespaced | cmd/kustodian/main.go:273 | a namespaced key `prefix/name` is escaped to `prefix~1name` |
| JsonPointer.NamespacedDeletePath | cmd/kustodian/main.go:273 | the remove path of `prefix/name` is `/metadata/annotations/prefix~1name` |
| Annotations.MergeAnnotations | cmd/kustodian/main.go:247-250 | the merged map has the fetched keys plus the added ones; each added key has the added value and every other fetched key keeps its value, in whatever order the additions are visited |
| Annotations.NeededStamps | cmd/kustodian/main.go:363-365 | definition, no contract of its own: both stamp keys mapped to the one formatted time |
| Annotations.KeysDistinct | cmd/kustodian/main.go:66-69 | the in-progress key and the most-recent-needed key differ, so one patch writes both stamps |
| Annotations.InProgressDeletePath | cmd/kustodian/main.go:345 | deleting the in-progress annotation addresses `/metadata/annotations/k8s.io~1maintenance-in-progress` |
| Maintenance.Holds | cmd/kustodian/main.go:152-161 | definition, no contract of its own: `lock.Test` answers whether the lock slot names this node |
| Maintenance.Effect | cmd/kustodian/main.go:152-380 | definition, no contract of its own: what each call does when it succeeds, field by field; a refused acquire and the reads change nothing, a granted acquire stores `nodeMeta` with the lock |
| Maintenance.Perform | cmd/kustodian/main.go:332-335 | definition, no contract of its own: a call either fails, ending the process with the world as it was (`log.Fatal`), or takes effect |
| Maintenance.Run | cmd/kustodian/main.go:322-381 | definition, no contract of its own: performs the calls of a plan in order and stops at the first that fails |
| Maintenance.TaintOffPlan | cmd/kustodian/main.go:325-327 | definition, no contract of its own: disable the taint only when one is configured |
| Maintenance.TaintOnPlan | cmd/kustodian/main.go:371-374 | definition, no contract of its own: enable the taint only when one is configured |
| Maintenance.ClearsAnnotation | cmd/kustodian/main.go:343-344 | definition, no contract of its own: annotating, and the fetched node carries the in-progress key |
| Maintenance.StampsAnnotations | cmd/kustodian/main.go:358-359 | definition, no contract of its own: annotating, and the fetched node lacks the in-progress key |
| Maintenance.FinishPlan | cmd/kustodian/main.go:342-351 | definition, no contract of its own: uncordon, the guarded annotation deletion, marker removal, release, gauge decrement, counter increment |
| Maintenance.StampPlan | cmd/kustodian/main.go:355-368 | definition, no contract of its own: record the schedulability, then the guarded stamping patch |
| Maintenance.LockPlan | cmd/kustodian/main.go:370-380 | definition, no contract of its own: acquire, then cordon, drain, marker and gauge increment if granted, or the taint if refused |
| Maintenance.MaintainPlan | cmd/kustodian/main.go:355-380 | definition, no contract of its own: the stamping plan followed by the lock plan |
| Maintenance.IdlePlan | cmd/kustodian/main.go:337-353 | definition, no contract of its own: clear the taint, test the lock, and finish maintenance only when holding it |
| Maintenance.TickPlan | cmd/kustodian/main.go:322-381 | definition, no contract of its own: outside the window only the taint reset; inside it the fetch, the sentinel read and the branch the sentinel selects |
| Maintenance.RecoveryPlan | cmd/kustodian/main.go:294-308 | definition, no contract of its own: nothing unless holding the lock; then the fetch and the sentinel read, and, with the sentinel gone, uncordon, release and the guarded annotation deletion |
| Maintenance.TaintResetPlan | cmd/kustodian/main.go:310-318 | definition, no contract of its own: with a taint configured, read the sentinel and disable the taint if it is gone |
| Maintenance.TickSpec | cmd/kustodian/main.go:322-381 | definition, no contract of its own: the run of the tick's plan under the tick's environment |
| Maintenance.StartupSpec | cmd/kustodian/main.go:293-318 | definition, no contract of its own: the lock test and the recovery under the recovery environment, then, if the process is alive, the taint reset under its own environment |
| Maintenance.Ticks | cmd/kustodian/main.go:322 | definition, no contract of its own: successive ticks, ending with the first that halts |
| Maintenance.Boot | cmd/kustodian/main.go:293 | definition, no contract of its own: a new process keeps the lock, node and host state, with empty `nodeMeta` and fresh metrics |
| Runs.RunAppend | cmd/kustodian/main.go:322-381 | running two plans one after the other is running the first, then, if the process is still alive, the second |
| Runs.RunCons | cmd/kustodian/main.go:322-381 | running `[s] + rest` is performing `s`, then `rest` if the process is still alive |
| Runs.AfterStep | cmd/kustodian/main.go:322-381 | the rest of a run is its first step followed by the rest of the plan |
| Runs.RunOutcome | cmd/kustodian/main.go:332-335 | the process halts exactly when the failing call is one of the plan's calls that can fail, and halts at that call |
| Runs.RunHaltsAt | cmd/kustodian/main.go:332-335 | when the first failing call is at index `i`, every call before it has taken effect and none after it |
| Runs.RunCountBounds | cmd/kustodian/main.go:378-381 | the drain count and the completed counter never decrease, and grow by at most the number of drains or increments in the plan |
| Runs.RunKeepsLock | cmd/kustodian/main.go:370 | the recorded schedulability changes only by recording it, and the lock slot only by a granted acquire or a release |
| Runs.RunKeepsNode | cmd/kustodian/main.go:337-380 | schedulability, annotations, drain count, marker and both metrics change only through the calls that write them |
| PlanSteps.FinishSteps | cmd/kustodian/main.go:342-351 | ending maintenance runs uncordon, the optional annotation deletion, marker removal, release, gauge decrement and counter increment, in that order |
| PlanSteps.MetricSteps | cmd/kustodian/main.go:350-351 | the gauge and counter updates cannot fail, and each moves its own metric by one |
| PlanSteps.IdleSteps | cmd/kustodian/main.go:337-353 | with the sentinel absent, the tick clears the taint, tests the lock and, only if it holds the lock, ends maintenance |
| PlanSteps.StampSteps | cmd/kustodian/main.go:355-368 | with the sentinel present, the tick records schedulability and then stamps the node only when annotating and not yet stamped |
| PlanSteps.LockSteps | cmd/kustodian/main.go:370-380 | a granted acquire is followed by cordon, drain, marker and gauge increment; a refused one only by enabling the taint |
| PlanSteps.TickSteps | cmd/kustodian/main.go:332-354 | in the window, a tick fetches the node, reads the sentinel, then takes the branch the sentinel selects |
| PlanSteps.RecoverySteps | cmd/kustodian/main.go:294-308 | the startup tests the lock; only when holding it does it fetch the node and read the sentinel; only when the sentinel is gone does it uncordon, release and delete the annotation |
| PlanSteps.TaintResetSteps | cmd/kustodian/main.go:316-318 | the startup reads the sentinel only when a taint is configured, and disables the taint only when the sentinel is gone |
| PlanSteps.TicksStep | cmd/kustodian/main.go:322 | a sequence of ticks is one tick followed by the rest, unless that tick ended the process |
| MaintenanceProperties.TaintOffRun | cmd/kustodian/main.go:325-327 | clearing the taint halts only if a taint is configured and disabling it fails; otherwise the taint is off and nothing else changes |
| MaintenanceProperties.TaintOnRun | cmd/kustodian/main.go:371-374 | setting the taint when nothing fails turns it on if configured and changes nothing else |
| MaintenanceProperties.SingleRun | cmd/kustodian/main.go:322-381 | a one-call plan is that call |
| MaintenanceProperties.ClearedAnnotations | cmd/kustodian/main.go:343-347 | after ending maintenance, the annotations lose the in-progress key when annotating and are unchanged otherwise |
| MaintenanceProperties.FinishTailRun | cmd/kustodian/main.go:348-351 | marker removal, release, gauge decrement and counter increment change exactly those four fields |
| MaintenanceProperties.FinishRun | cmd/kustodian/main.go:342-351 | ending maintenance with no failure leaves the node uncordoned, the annotation cleared, the marker gone, the lock free, and the gauge and counter moved by one |
| MaintenanceProperties.IdleRun | cmd/kustodian/main.go:337-353 | with the sentinel absent and no failure, the taint is cleared and maintenance ends exactly when the node holds the lock |
| MaintenanceProperties.StampRun | cmd/kustodian/main.go:355-368 | before the lock, the tick records the current schedulability and adds the stamps only when annotating and not yet stamped |
| MaintenanceProperties.LockRun | cmd/kustodian/main.go:370-380 | a granted acquire stores the recorded schedulability with the lock, cordons, drains once, creates the marker and raises the gauge; a refused one only sets the taint, if configured |
| MaintenanceProperties.GrantedLockRun | cmd/kustodian/main.go:378-380 | the granted case of the above, field by field |
| MaintenanceProperties.BranchRun | cmd/kustodian/main.go:332-354 | once the fetch and the sentinel read succeed, a tick is the branch the sentinel selects, run from the unchanged world |
| MaintenanceProperties.MaintainRun | cmd/kustodian/main.go:355-368 | with the sentinel present and no failure, the lock step runs from the world with the schedulability recorded and the stamps added |
| MaintenanceProperties.FinishPlanContents | cmd/kustodian/main.go:342-351 | ending maintenance deletes the annotation if and only if annotating with the key present, and never acquires, cordons or drains |
| MaintenanceProperties.IdlePlanContents | cmd/kustodian/main.go:337-353 | the sentinel-absent branch never acquires, cordons, drains or records schedulability; without the lock it does not even release, uncordon or count |
| MaintenanceProperties.StampPlanContents | cmd/kustodian/main.go:355-368 | the stamping steps touch neither the lock, nor the node's schedulability, nor the drain count, marker or metrics |
| MaintenanceProperties.LockPlanContents | cmd/kustodian/main.go:370-380 | the lock branch acquires once, never releases or counts, and when refused does not cordon, drain, mark or raise the gauge |
| MaintenanceProperties.StartupPlanContents | cmd/kustodian/main.go:293-318 | neither startup phase touches the marker file, the metrics, the drain count or the recorded schedulability |
| MaintenanceProperties.OutsideWindowOnlyClearsTaint | cmd/kustodian/main.go:323-329 | outside the window a tick only disables the taint; it halts only if that call fails |
| MaintenanceProperties.EarlyHalt | cmd/kustodian/main.go:332-337 | if the node fetch or the sentinel read fails, the process ends with the world unchanged |
| MaintenanceProperties.IdleTickOnlyClearsTaint | cmd/kustodian/main.go:337-353 | in the window, with the sentinel absent and the lock not held, a tick changes at most the taint, even when a call fails, and never locks, cordons or drains |
| MaintenanceProperties.FinishingTickReleases | cmd/kustodian/main.go:337-353 | with the sentinel absent while holding the lock, a tick clears the taint, uncordons, removes the annotation if annotating, removes the marker, frees the lock, decrements the gauge and increments the counter |
| MaintenanceProperties.StampedAnnotations | cmd/kustodian/main.go:358-366 | adding the stamps gives the old keys plus the two stamp keys, both carrying the same timestamp, with every other annotation kept |
| MaintenanceProperties.SentinelTickStampsOnce | cmd/kustodian/main.go:358-368 | with the sentinel present, the node is stamped with one timestamp when annotating and the in-progress key is absent, and its annotations are otherwise untouched |
| MaintenanceProperties.AcquireRecordsPriorSchedulability | cmd/kustodian/main.go:355-370 | the lock stores the schedulability the node had before this tick cordoned it, whatever fails later |
| MaintenanceProperties.RefusedTickWaits | cmd/kustodian/main.go:370-375 | a refused acquire leaves only the recorded schedulability, the stamps and the taint changed, and does not cordon, drain, mark or count |
| MaintenanceProperties.SuffixOfAppend | cmd/kustodian/main.go:378-380 | the suffix of `a + b` after `a` is `b` (used to locate the last four steps of a granted tick) |
| MaintenanceProperties.GrantedTickDrains | cmd/kustodian/main.go:378-380 | a granted acquire takes the lock with the schedulability from before the tick, cordons, drains once, creates the marker and raises the gauge; the tick ends with those four calls |
| MaintenanceProperties.RecoveryHeadRun | cmd/kustodian/main.go:294-301 | the recovery's fetch, sentinel read, uncordon and release free the lock, uncordon the node and change nothing else |
| MaintenanceProperties.RecoveryRun | cmd/kustodian/main.go:294-308 | the recovery changes the world only when holding the lock with the sentinel gone, and then frees the lock, uncordons and clears the annotation |
| MaintenanceProperties.TaintResetRun | cmd/kustodian/main.go:316-318 | the startup disables the taint exactly when one is configured and the sentinel is gone |
| MaintenanceProperties.StartupRecovers | cmd/kustodian/main.go:293-318 | with no failure in either phase, the whole startup field by field: lock, schedulability, annotation and taint as above, everything else kept |
| MaintenanceProperties.StartupResetReadFails | cmd/kustodian/main.go:316 | when the second sentinel read fails after a completed recovery, the process ends with the lock released, the node uncordoned, the annotation cleared and the taint untouched |
| MaintenanceProperties.StartupKeepsMarkerAndMetrics | cmd/kustodian/main.go:293-318 | even when a call fails, the startup leaves the marker file, both metrics, the drain count and the recorded schedulability as they were |
| MaintenanceProperties.FinishCountsOnce | cmd/kustodian/main.go:342-351 | ending maintenance increments the completed counter by at most one, even when a call fails |
| MaintenanceProperties.LockDrainsOnce | cmd/kustodian/main.go:370-380 | the lock branch drains at most once, and only after a granted acquire |
| MaintenanceProperties.TickCountsCompletion | cmd/kustodian/main.go:322-381 | a tick increments the completed counter by at most one, and only in the window with the sentinel absent while holding the lock |
| MaintenanceProperties.TickDrainsAtMostOnce | cmd/kustodian/main.go:322-381 | a tick drains at most once, and only in the window with the sentinel present and the acquire granted |
| MaintenanceProperties.TicksMonotone | cmd/kustodian/main.go:322-381 | over any sequence of ticks the drain count and the completed counter never decrease |
| MaintenanceProperties.MaintenanceRoundTrip | cmd/kustodian/main.go:337-380 | a tick with the sentinel and a free lock followed by one without it drains once, counts one completion, and leaves the lock free, the node schedulable, the marker gone and the gauge where it started |
| MaintenanceProperties.HeldLockDrainsAgain | cmd/kustodian/main.go:370-380 | two ticks with the sentinel present drain twice and raise the gauge twice: holding the lock does not stop a second acquire |
| MaintenanceProperties.GaugeCanGoNegative | cmd/kustodian/main.go:294-351 | after a restart while holding the lock with the sentinel present, the first tick without the sentinel takes the gauge to -1 |
| Faults.DistinctAppend | cmd/kustodian/main.go:322-381 | two plans that each repeat no call and share none repeat none when joined |
| Faults.IdlePlanDistinct | cmd/kustodian/main.go:337-353 | the sentinel-absent branch makes no kind of call twice |
| Faults.MaintainPlanDistinct | cmd/kustodian/main.go:355-380 | the sentinel-present branch makes no kind of call twice |
| Faults.BranchAvoidsHead | cmd/kustodian/main.go:332-380 | neither branch fetches the node or reads the sentinel again |
| Faults.TickPlanDistinct | cmd/kustodian/main.go:322-381 | one tick makes no kind of call twice |
| Faults.StartupPlansDistinct | cmd/kustodian/main.go:294-318 | neither startup phase makes a kind of call twice |
| Faults.DistinctHaltsAt | cmd/kustodian/main.go:332-335 | in a plan without repeated calls, a fault at any one call ends the run exactly there, with every earlier call in effect |
| Faults.TickFaultAnywhere | cmd/kustodian/main.go:322-381 | any call of a tick can be the one that fails; the tick then ends at that call with every earlier call in effect |
| Daemon.Kustodian.constructor | cmd/kustodian/main.go:293 | a new process sees the persisted lock, node and host state, with empty `nodeMeta` and zeroed metrics |
| Daemon.Kustodian.FetchNode | cmd/kustodian/main.go:332-335 | on success the returned node view is the node's current schedulability and annotations, and nothing changes |
| Daemon.Kustodian.MaintenanceRequired | cmd/kustodian/main.go:143-150 | the answer is whether the sentinel exists; the read either fails or changes nothing |
| Daemon.Kustodian.Holding | cmd/kustodian/main.go:152-161 | the answer is whether the lock names this node; the test either fails or changes nothing |
| Daemon.Kustodian.Acquire | cmd/kustodian/main.go:163-176 | true exactly when the call succeeds and the lock is granted, which stores `nodeMeta` in the lock; a refusal changes nothing |
| Daemon.Kustodian.Release | cmd/kustodian/main.go:178-183 | on success the lock slot is empty |
| Daemon.Kustodian.Uncordon | cmd/kustodian/main.go:208-219 | on success the node is schedulable |
| Daemon.Kustodian.CordonAndDrain | cmd/kustodian/main.go:185-206 | cordon, then, only if that succeeded, one drain |
| Daemon.Kustodian.MarkAsMaintenanceInProgress | cmd/kustodian/main.go:221-227 | on success the marker file exists |
| Daemon.Kustodian.RemoveMaintenanceInProgress | cmd/kustodian/main.go:229-235 | on success the marker file is gone |
| Daemon.Kustodian.AddNodeAnnotations | cmd/kustodian/main.go:242-265 | on success the node's annotations are the fetched ones merged with the additions; on failure they are unchanged |
| Daemon.Kustodian.DeleteNodeAnnotation | cmd/kustodian/main.go:267-278 | the patch sent is the remove operation on the escaped path of `key`; the call is fatal when it fails or when the annotation the path names (`Addressed(key)`, which is `key` itself for keys without `~`) is absent; on success exactly that annotation is gone and nothing else changes |
| Daemon.Kustodian.RemoveInProgressAnnotation | cmd/kustodian/main.go:345 | the deletion of the in-progress key is the `RemoveAnnotation` step of a tick when the node carries the key, and fatal with nothing changed when it does not |
| Daemon.Kustodian.LowerInProgress | cmd/kustodian/main.go:350 | the maintenance-in-progress gauge goes down by one and nothing else changes |
| Daemon.Kustodian.RaiseInProgress | cmd/kustodian/main.go:380 | the maintenance-in-progress gauge goes up by one and nothing else changes |
| Daemon.Kustodian.CountCompleted | cmd/kustodian/main.go:351 | the maintenance-completed counter goes up by one and nothing else changes |
| Daemon.Kustodian.DisableTaint | cmd/kustodian/main.go:326 | on success the taint is off |
| Daemon.Kustodian.EnableTaint | cmd/kustodian/main.go:373 | on success the taint is on |
| Daemon.Kustodian.ClearTaintIfConfigured | cmd/kustodian/main.go:325-327 | the taint is disabled only when one is configured |
| Daemon.Kustodian.SetTaintIfConfigured | cmd/kustodian/main.go:371-374 | the taint is enabled only when one is configured |
| Daemon.Kustodian.ClearInProgressAnnotation | cmd/kustodian/main.go:343-347 | the in-progress annotation is deleted exactly when annotating and the node as fetched carries it; otherwise nothing happens |
| Daemon.Kustodian.ReleaseMaintenance | cmd/kustodian/main.go:348-351 | marker removal, release, gauge decrement and counter increment, each only if every earlier call succeeded |
| Daemon.Kustodian.FinishMaintenance | cmd/kustodian/main.go:342-351 | the state after it is the run of the finish plan, judged against the node as fetched at the start of the tick |
| Daemon.Kustodian.Idle | cmd/kustodian/main.go:337-353 | the state after it is the run of the sentinel-absent plan |
| Daemon.Kustodian.Stamp | cmd/kustodian/main.go:355-368 | the state after it is the run of the stamping plan, decided on the node as fetched |
| Daemon.Kustodian.Lock | cmd/kustodian/main.go:370-380 | the state after it is the run of the lock plan for the lock's reply |
| Daemon.Kustodian.Maintain | cmd/kustodian/main.go:355-380 | the state after it is the run of the sentinel-present plan |
| Daemon.Kustodian.Tick | cmd/kustodian/main.go:322-381 | the state and outcome after one iteration are `TickSpec` of the state before it |
| Daemon.Kustodian.Recover | cmd/kustodian/main.go:294-308 | the state after it is the lock test followed by the recovery plan |
| Daemon.Kustodian.UndoMaintenance | cmd/kustodian/main.go:300-306 | uncordon, then release only if that succeeded, then the guarded annotation deletion only if both succeeded |
| Daemon.Kustodian.ResetTaint | cmd/kustodian/main.go:310-318 | the state after it is the startup taint reset |
| Daemon.Kustodian.Start | cmd/kustodian/main.go:293-318 | the state and outcome after startup are `StartupSpec` of the state before it, so either sentinel read and any other startup call can be the one that fails |
| Daemon.Kustodian.Serve | cmd/kustodian/main.go:320-381 | the loop over a sequence of tick readings ends in `Ticks` of the state before it, stopping at the first failing call |

## Left out

- The lock's time-to-live, its storage in the daemon set's annotation, and exclusion
  between the daemons of different nodes: the lock is one slot seen by one daemon, and
  the acquire's answer is an input.
- `lock.Test` loading the stored metadata into `nodeMeta`: the tick overwrites that value
  before every acquire (main.go:355), so the loaded value is never used.
- Evaluating the maintenance window and its timezone: one boolean per tick.
- The jittered ticker (`delaytick`) and its random source: ticks are a sequence of inputs.
- Formatting the time as RFC 3339: the current time is an input string.
- Running `/usr/bin/test`, `touch` and `rm` on the host: each is one call that succeeds or
  fails. For the sentinel test, an exit error (main.go:134-135, meaning the file is absent)
  becomes the boolean reading `false`. Any other error (main.go:137, fatal) becomes a
  failing `TestSentinel` step.
- The drain internals (grace period, forced eviction, daemon sets, local data): a drain
  is one step counted in `drained`.
- JSON marshalling of the node and how patches travel to the API server: the
  annotation merge is one call that fetches and patches, and can fail.
- Daemon.Kustodian.DeleteNodeAnnotation: the platform's decoding of the path is taken to
  be the lenient one of `Unescape`, which keeps a `~` that is followed by neither `0`
  nor `1`. A strict reader of section 4 of RFC 6901 would reject such a path and the
  call would be fatal, where the model removes the annotation named with that `~` kept.
  The daemon itself only ever deletes the in-progress key, which has no `~`.
- The panic when a fetched node has a nil annotations map: an absent map is the empty map.
- The order in which Go visits a map: `MergeAnnotations` may visit the additions in any
  order and proves the result does not depend on it.
- Log messages, flag parsing, building the API client from the in-cluster config, the
  metrics server, and the node-in-window gauge.
- The taint, lock, drain and window packages (`pkg/taints`, `pkg/daemonsetlock`,
  `pkg/drain`, `pkg/timewindow`, from other repositories) are not part of this model.
  Each of their calls is one step that succeeds or ends the process. For the taint
  calls, main.go does not show how errors are handled; the model allows the most
  general case, any of them failing.
- Concurrency: one daemon process, one call at a time.
- One failing call per environment: a fault names a kind of call, a tick and each startup
  phase have their own environment, and none of them repeats a kind of call
  (`Faults.TickPlanDistinct`, `Faults.StartupPlansDistinct`). Since the first failure ends
  the process, a second one never matters.
