/**
 * The per-node maintenance state machine of `cordonAndDrainAsRequired`
 * (cmd/kustodian/main.go:280-382), on values.
 *
 * A `World` is what one daemon can see and change: the shared lock slot, its node's
 * taint, schedulability, annotations and drain count, the in-progress marker file on
 * the host, its in-memory `nodeMeta`, and its two maintenance metrics. Every call the
 * daemon makes to a collaborator is a `Step`. `TickPlan`, `RecoveryPlan` and
 * `TaintResetPlan` list, in order, the steps one tick and the two startup phases perform
 * when nothing fails; `Run` performs a plan and stops at the first step the environment
 * makes fail (main.go calls `log.Fatal` there, ending the process).
 */
module Maintenance {
  import opened Wrappers
  import opened Annotations

  type NodeId = string

  /** Daemon configuration that the state machine consults. */
  datatype Config = Config(
    nodeId: NodeId,          // KUSTODIAN_NODE_ID
    annotateNodes: bool,     // --annotate-nodes
    taintConfigured: bool)   // --prefer-no-schedule-taint is not empty

  /** Contents of the lock slot: the holder and the `nodeMeta` it stored on acquiring. */
  datatype LockRecord = LockRecord(holder: NodeId, unschedulable: bool)

  datatype World = World(
    lock: Option<LockRecord>,
    tainted: bool,                    // the prefer-no-schedule taint is on the node
    unschedulable: bool,              // node.Spec.Unschedulable (cordoned)
    drained: nat,                     // drains run on the node so far
    annotations: map<string, string>,
    marker: bool,                     // the in-progress file exists on the host
    nodeMeta: bool,                   // nodeMeta.Unschedulable, in memory
    inProgress: int,                  // maintenanceInProgress gauge
    completed: nat)                   // maintenanceCompleted counter

  /** The collaborator calls and in-memory updates a tick is made of. */
  datatype Step =
    | GetNode | TestSentinel | TestLock | AcquireLock | ReleaseLock
    | DisableTaint | EnableTaint | UncordonNode | CordonNode | DrainNode
    | PatchAnnotations | RemoveAnnotation | TouchMarker | RemoveMarker
    | RecordMeta | IncInProgress | DecInProgress | IncCompleted

  /** The lock's answer to an acquire that reached it. */
  datatype AcquireReply = Granted | Refused(holder: NodeId)

  /** What the collaborators answer: the acquire reply, the clock, and the step that fails, if any. */
  datatype Env = Env(reply: AcquireReply, now: string, fault: Option<Step>)

  /** The readings of one tick: `window.Contains(time.Now())` and the sentinel file. */
  datatype TickInput = TickInput(inWindow: bool, sentinel: bool, env: Env)

  /**
   * Startup reads the sentinel twice (main.go:299 and, if a taint is configured, 316).
   * The recovery and the taint reset each have their own collaborator answers, so
   * either read, and any call of either phase, can be the one that fails.
   */
  datatype StartupInput = StartupInput(
    sentinelAtRecovery: bool, sentinelAtTaint: bool, recoveryEnv: Env, resetEnv: Env)

  datatype Outcome = Continued | Halted(at: Step)

  /** Where a run ends: the world, and whether the process is still alive. */
  datatype Exec = Exec(world: World, outcome: Outcome)

  /** Metric and in-memory updates cannot fail; every other step talks to the platform or the host. */
  predicate Fallible(s: Step)
  {
    !(s.RecordMeta? || s.IncInProgress? || s.DecInProgress? || s.IncCompleted?)
  }

  predicate FailsAt(env: Env, s: Step)
  {
    Fallible(s) && env.fault == Some(s)
  }

  /** `lock.Test`: the slot names this node. */
  predicate Holds(cfg: Config, w: World)
  {
    w.lock.Some? && w.lock.value.holder == cfg.nodeId
  }

  /**
   * What a step does to the world when it succeeds, field by field. Lookups (`GetNode`,
   * `TestSentinel`, `TestLock`) change nothing; a refused acquire changes nothing either.
   */
  function Effect(cfg: Config, env: Env, w: World, s: Step): World
  {
    World(
      lock :=
        if s.AcquireLock? && env.reply.Granted? then Some(LockRecord(cfg.nodeId, w.nodeMeta))
        else if s.ReleaseLock? then None
        else w.lock,
      tainted := if s.EnableTaint? then true else if s.DisableTaint? then false else w.tainted,
      unschedulable :=
        if s.CordonNode? then true else if s.UncordonNode? then false else w.unschedulable,
      drained := if s.DrainNode? then w.drained + 1 else w.drained,
      annotations :=
        if s.PatchAnnotations? then w.annotations + NeededStamps(env.now)
        else if s.RemoveAnnotation? then w.annotations - {InProgressKey}
        else w.annotations,
      marker := if s.TouchMarker? then true else if s.RemoveMarker? then false else w.marker,
      nodeMeta := if s.RecordMeta? then w.unschedulable else w.nodeMeta,
      inProgress :=
        if s.IncInProgress? then w.inProgress + 1
        else if s.DecInProgress? then w.inProgress - 1
        else w.inProgress,
      completed := if s.IncCompleted? then w.completed + 1 else w.completed)
  }

  /** One collaborator call: it fails, ending the process, or it takes effect. */
  function Perform(cfg: Config, env: Env, w: World, s: Step): Exec
  {
    if FailsAt(env, s) then Exec(w, Halted(s)) else Exec(Effect(cfg, env, w, s), Continued)
  }

  /** Performs the steps of `plan` in order; the first one that fails ends the run. */
  function Run(cfg: Config, env: Env, w: World, plan: seq<Step>): Exec
    decreases |plan|
  {
    if plan == [] then Exec(w, Continued)
    else
      var r := Perform(cfg, env, w, plan[0]);
      if r.outcome.Halted? then r else Run(cfg, env, r.world, plan[1..])
  }

  /** Disabling the prefer-no-schedule taint, a call made only when a taint is configured. */
  function TaintOffPlan(cfg: Config): seq<Step>
  {
    if cfg.taintConfigured then [DisableTaint] else []
  }

  /** Enabling the prefer-no-schedule taint, a call made only when a taint is configured. */
  function TaintOnPlan(cfg: Config): seq<Step>
  {
    if cfg.taintConfigured then [EnableTaint] else []
  }

  /** The in-progress annotation is deleted only when annotating and it is present on the fetched node. */
  predicate ClearsAnnotation(cfg: Config, w: World)
  {
    cfg.annotateNodes && InProgressKey in w.annotations
  }

  /** The two stamps are written only when annotating and the in-progress one is absent. */
  predicate StampsAnnotations(cfg: Config, w: World)
  {
    cfg.annotateNodes && InProgressKey !in w.annotations
  }

  /** Sentinel gone while holding the lock (main.go:342-351); `w` is the world the node was fetched from. */
  function FinishPlan(cfg: Config, w: World): seq<Step>
  {
    [UncordonNode] + (if ClearsAnnotation(cfg, w) then [RemoveAnnotation] else [])
    + [RemoveMarker, ReleaseLock, DecInProgress, IncCompleted]
  }

  /** Sentinel present, before the lock (main.go:355-368): remember the schedulability, stamp the node. */
  function StampPlan(cfg: Config, w: World): seq<Step>
  {
    [RecordMeta] + (if StampsAnnotations(cfg, w) then [PatchAnnotations] else [])
  }

  /**
   * Sentinel present, the lock (main.go:370-380): a granted acquire is followed by
   * cordon, drain, marker and gauge; a refused one by the taint.
   */
  function LockPlan(cfg: Config, reply: AcquireReply): seq<Step>
  {
    [AcquireLock] + (if reply.Granted? then [CordonNode, DrainNode, TouchMarker, IncInProgress] else TaintOnPlan(cfg))
  }

  /** Sentinel present (main.go:355-380). */
  function MaintainPlan(cfg: Config, w: World, reply: AcquireReply): seq<Step>
  {
    StampPlan(cfg, w) + LockPlan(cfg, reply)
  }

  /**
   * Sentinel absent (main.go:337-353): disable the taint, then finish maintenance if
   * this node holds the lock.
   */
  function IdlePlan(cfg: Config, w: World): seq<Step>
  {
    TaintOffPlan(cfg) + [TestLock] + (if Holds(cfg, w) then FinishPlan(cfg, w) else [])
  }

  /**
   * One iteration of `for range tick` (main.go:322-381). Every decision reads the world
   * the tick started from: the steps before a decision never change what it reads.
   */
  function TickPlan(cfg: Config, w: World, t: TickInput): seq<Step>
  {
    if !t.inWindow then TaintOffPlan(cfg)
    else [GetNode, TestSentinel] + (if t.sentinel then MaintainPlan(cfg, w, t.env.reply) else IdlePlan(cfg, w))
  }

  /**
   * Startup recovery when this node holds the lock (main.go:294-308): fetch the node and,
   * if the sentinel is gone, uncordon, release, and drop the in-progress annotation.
   * The marker file and the metrics are left as they are.
   */
  function RecoveryPlan(cfg: Config, w: World, sentinel: bool): seq<Step>
  {
    if !Holds(cfg, w) then []
    else if sentinel then [GetNode, TestSentinel]
    else [GetNode, TestSentinel, UncordonNode, ReleaseLock]
         + (if ClearsAnnotation(cfg, w) then [RemoveAnnotation] else [])
  }

  /** The startup taint reset (main.go:310-318); the sentinel is read only when a taint is configured. */
  function TaintResetPlan(cfg: Config, sentinel: bool): seq<Step>
  {
    if !cfg.taintConfigured then []
    else if sentinel then [TestSentinel]
    else [TestSentinel, DisableTaint]
  }

  function TickSpec(cfg: Config, w: World, t: TickInput): Exec
  {
    Run(cfg, t.env, w, TickPlan(cfg, w, t))
  }

  /**
   * The recovery and the taint reset before the loop starts (main.go:293-318): the lock
   * test and `RecoveryPlan`, then, if the process is still alive, `TaintResetPlan`.
   */
  function StartupSpec(cfg: Config, w: World, s: StartupInput): Exec
  {
    var r := Run(cfg, s.recoveryEnv, w, [TestLock] + RecoveryPlan(cfg, w, s.sentinelAtRecovery));
    if r.outcome.Halted? then r else Run(cfg, s.resetEnv, r.world, TaintResetPlan(cfg, s.sentinelAtTaint))
  }

  /** Successive ticks; a tick that halts ends the process, and with it the loop. */
  function Ticks(cfg: Config, w: World, ts: seq<TickInput>): Exec
    decreases |ts|
  {
    if ts == [] then Exec(w, Continued)
    else
      var e := TickSpec(cfg, w, ts[0]);
      if e.outcome.Halted? then e else Ticks(cfg, e.world, ts[1..])
  }

  /** A freshly started process: platform and host state persist, in-memory state is new. */
  function Boot(persisted: World): World
  {
    persisted.(nodeMeta := false, inProgress := 0, completed := 0)
  }

  /** The environment in which every collaborator call succeeds. */
  function Healthy(reply: AcquireReply, now: string): Env
  {
    Env(reply, now, None)
  }
}
