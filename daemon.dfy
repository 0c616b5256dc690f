/**
 * The daemon itself (cmd/kustodian/main.go:152-381): one object holding the state that
 * `cordonAndDrainAsRequired` reads and changes, one method per helper function of
 * main.go, and the startup recovery, the loop body and the loop as methods proved
 * against `Maintenance.StartupSpec`, `Maintenance.TickSpec` and `Maintenance.Ticks`.
 *
 * A collaborator call that fails models `log.Fatal`: the method returns `Halted` and
 * the caller returns at once, as the process would exit.
 */
module Daemon {
  import opened Wrappers
  import opened Annotations
  import JsonPointer
  import opened Maintenance
  import opened Runs
  import opened PlanSteps

  /** What the daemon reads from the node object it fetches. */
  datatype NodeView = NodeView(unschedulable: bool, annotations: map<string, string>)

  function Verdict(env: Env, s: Step): Outcome
  {
    if FailsAt(env, s) then Halted(s) else Continued
  }

  class Kustodian {
    const cfg: Config
    var lock: Option<LockRecord>
    var tainted: bool
    var unschedulable: bool
    var drained: nat
    var annotations: map<string, string>
    var marker: bool
    var nodeMeta: bool
    var inProgress: int
    var completed: nat

    ghost function State(): World
      reads this
    {
      Maintenance.World(lock, tainted, unschedulable, drained, annotations, marker, nodeMeta, inProgress, completed)
    }

    /** A process starting against the platform and host state `persisted`. */
    constructor (cfg: Config, persisted: World)
      ensures this.cfg == cfg && State() == Boot(persisted)
    {
      this.cfg := cfg;
      lock := persisted.lock;
      tainted := persisted.tainted;
      unschedulable := persisted.unschedulable;
      drained := persisted.drained;
      annotations := persisted.annotations;
      marker := persisted.marker;
      nodeMeta := false;
      inProgress := 0;
      completed := 0;
    }

    /** `client.CoreV1().Nodes().Get(...)`: the node as it is now. */
    method FetchNode(env: Env) returns (o: Outcome, node: NodeView)
      ensures Exec(State(), o) == Perform(cfg, env, State(), Step.GetNode)
      ensures o.Continued? ==> node == NodeView(unschedulable, annotations)
    {
      if FailsAt(env, Step.GetNode) {
        return Halted(Step.GetNode), NodeView(false, map[]);
      }
      return Continued, NodeView(unschedulable, annotations);
    }

    /** `maintenanceRequired`: whether the sentinel file exists on the host. */
    method MaintenanceRequired(env: Env, sentinel: bool) returns (o: Outcome, required: bool)
      ensures Exec(State(), o) == Perform(cfg, env, State(), TestSentinel)
      ensures required == sentinel
    {
      o := if FailsAt(env, TestSentinel) then Halted(TestSentinel) else Continued;
      required := sentinel;
    }

    /** `holding`: whether the lock names this node. */
    method Holding(env: Env) returns (o: Outcome, held: bool)
      ensures Exec(State(), o) == Perform(cfg, env, State(), TestLock)
      ensures held == Holds(cfg, State())
    {
      o := if FailsAt(env, TestLock) then Halted(TestLock) else Continued;
      held := lock.Some? && lock.value.holder == cfg.nodeId;
    }

    /** `acquire`: take the lock, storing `nodeMeta`, unless another node holds it. */
    method Acquire(env: Env) returns (o: Outcome, acquired: bool)
      modifies this`lock
      ensures Exec(State(), o) == Perform(cfg, env, old(State()), AcquireLock)
      ensures acquired <==> o.Continued? && env.reply.Granted?
    {
      if FailsAt(env, AcquireLock) {
        return Halted(AcquireLock), false;
      }
      if env.reply.Granted? {
        lock := Some(LockRecord(cfg.nodeId, nodeMeta));
        return Continued, true;
      }
      return Continued, false;
    }

    /** `release`: empty the lock slot. */
    method Release(env: Env) returns (o: Outcome)
      modifies this`lock
      ensures Exec(State(), o) == Perform(cfg, env, old(State()), ReleaseLock)
    {
      if FailsAt(env, ReleaseLock) {
        return Halted(ReleaseLock);
      }
      lock := None;
      return Continued;
    }

    /** `uncordon`: mark the node schedulable. */
    method Uncordon(env: Env) returns (o: Outcome)
      modifies this`unschedulable
      ensures Exec(State(), o) == Perform(cfg, env, old(State()), UncordonNode)
    {
      if FailsAt(env, UncordonNode) {
        return Halted(UncordonNode);
      }
      unschedulable := false;
      return Continued;
    }

    /** `cordonanddrain`: cordon, then drain; either can fail. */
    method CordonAndDrain(env: Env) returns (o: Outcome)
      modifies this`unschedulable, this`drained
      ensures Exec(State(), o) == Then(cfg, env, Perform(cfg, env, old(State()), CordonNode), DrainNode)
    {
      if FailsAt(env, CordonNode) {
        return Halted(CordonNode);
      }
      unschedulable := true;
      if FailsAt(env, DrainNode) {
        return Halted(DrainNode);
      }
      drained := drained + 1;
      return Continued;
    }

    /** `markAsMaintenanceInProgress`: create the marker file on the host. */
    method MarkAsMaintenanceInProgress(env: Env) returns (o: Outcome)
      modifies this`marker
      ensures Exec(State(), o) == Perform(cfg, env, old(State()), TouchMarker)
    {
      if FailsAt(env, TouchMarker) {
        return Halted(TouchMarker);
      }
      marker := true;
      return Continued;
    }

    /** `removeMaintenanceInProgress`: delete the marker file (`rm -f`). */
    method RemoveMaintenanceInProgress(env: Env) returns (o: Outcome)
      modifies this`marker
      ensures Exec(State(), o) == Perform(cfg, env, old(State()), RemoveMarker)
    {
      if FailsAt(env, RemoveMarker) {
        return Halted(RemoveMarker);
      }
      marker := false;
      return Continued;
    }

    /**
     * `addNodeAnnotations`: fetch the node, merge `additions` into its annotations and
     * send the node back. The fetch and the patch are one fallible step.
     */
    method AddNodeAnnotations(env: Env, additions: map<string, string>) returns (o: Outcome)
      modifies this`annotations
      ensures o == Verdict(env, PatchAnnotations)
      ensures annotations == if o.Halted? then old(annotations) else old(annotations) + additions
    {
      if FailsAt(env, PatchAnnotations) {
        return Halted(PatchAnnotations);
      }
      var merged := MergeAnnotations(annotations, additions);
      assert merged == annotations + additions;
      annotations := merged;
      return Continued;
    }

    /**
     * `deleteNodeAnnotation`: send a JSON Patch removing `key`; `patch` is the document
     * sent. The platform removes the annotation that the path names, which is `key` only
     * when `key` has no `~` (`JsonPointer.UnescapeEscape`); a remove whose target is
     * absent is refused (section 4.2 of RFC 6902), and main.go then calls `log.Fatal`.
     */
    method DeleteNodeAnnotation(env: Env, key: string) returns (o: Outcome, patch: string)
      modifies this`annotations
      ensures patch == JsonPointer.RemovePatch(key)
      ensures o == if JsonPointer.Addressed(key) in old(annotations) then Verdict(env, RemoveAnnotation)
                   else Halted(RemoveAnnotation)
      ensures annotations == if o.Halted? then old(annotations)
                             else old(annotations) - {JsonPointer.Addressed(key)}
    {
      patch := JsonPointer.RemovePatch(key);
      var target := JsonPointer.Addressed(key);
      if FailsAt(env, RemoveAnnotation) || target !in annotations {
        return Halted(RemoveAnnotation), patch;
      }
      annotations := annotations - {target};
      return Continued, patch;
    }

    /**
     * The annotation deletion a tick performs: `deleteNodeAnnotation` on the in-progress
     * key, which is fatal when the node does not carry that key.
     */
    method RemoveInProgressAnnotation(env: Env) returns (o: Outcome)
      modifies this`annotations
      ensures Exec(State(), o) ==
              if InProgressKey in old(annotations) then Perform(cfg, env, old(State()), RemoveAnnotation)
              else Exec(old(State()), Halted(RemoveAnnotation))
    {
      assert forall i :: 0 <= i < |InProgressKey| ==> InProgressKey[i] != '~';
      JsonPointer.UnescapeEscape(InProgressKey);
      var patch;
      o, patch := DeleteNodeAnnotation(env, InProgressKey);
    }

    /** `maintenanceInProgress.Dec()` */
    method LowerInProgress()
      modifies this`inProgress
      ensures State() == old(State()).(inProgress := old(inProgress) - 1)
    {
      inProgress := inProgress - 1;
    }

    /** `maintenanceInProgress.Inc()` */
    method RaiseInProgress()
      modifies this`inProgress
      ensures State() == old(State()).(inProgress := old(inProgress) + 1)
    {
      inProgress := inProgress + 1;
    }

    /** `maintenanceCompleted.Inc()` */
    method CountCompleted()
      modifies this`completed
      ensures State() == old(State()).(completed := old(completed) + 1)
    {
      completed := completed + 1;
    }

    /** `preferNoScheduleTaint.Disable()` */
    method DisableTaint(env: Env) returns (o: Outcome)
      modifies this`tainted
      ensures Exec(State(), o) == Perform(cfg, env, old(State()), Step.DisableTaint)
    {
      if FailsAt(env, Step.DisableTaint) {
        return Halted(Step.DisableTaint);
      }
      tainted := false;
      return Continued;
    }

    /** `preferNoScheduleTaint.Enable()` */
    method EnableTaint(env: Env) returns (o: Outcome)
      modifies this`tainted
      ensures Exec(State(), o) == Perform(cfg, env, old(State()), Step.EnableTaint)
    {
      if FailsAt(env, Step.EnableTaint) {
        return Halted(Step.EnableTaint);
      }
      tainted := true;
      return Continued;
    }

    /** Disable the taint when one is configured; otherwise do nothing. */
    method ClearTaintIfConfigured(env: Env) returns (o: Outcome)
      modifies this`tainted
      ensures Exec(State(), o) == Run(cfg, env, old(State()), TaintOffPlan(cfg))
    {
      o := Continued;
      if cfg.taintConfigured {
        o := DisableTaint(env);
        assert [Step.DisableTaint][1..] == [];
      }
    }

    /** Enable the taint when one is configured; otherwise do nothing. */
    method SetTaintIfConfigured(env: Env) returns (o: Outcome)
      modifies this`tainted
      ensures Exec(State(), o) == Run(cfg, env, old(State()), TaintOnPlan(cfg))
    {
      o := Continued;
      if cfg.taintConfigured {
        o := EnableTaint(env);
        assert [Step.EnableTaint][1..] == [];
      }
    }

    /**
     * The guarded deletion after an uncordon (main.go:343-347, and 302-306 at startup):
     * only when annotating and the node as fetched carries the in-progress annotation.
     */
    method ClearInProgressAnnotation(env: Env, node: NodeView) returns (o: Outcome)
      requires node.annotations == annotations
      modifies this`annotations
      ensures Exec(State(), o) ==
              if ClearsAnnotation(cfg, old(State())) then Perform(cfg, env, old(State()), RemoveAnnotation)
              else Exec(old(State()), Continued)
    {
      o := Continued;
      if cfg.annotateNodes && InProgressKey in node.annotations {
        o := RemoveInProgressAnnotation(env);
      }
    }

    /**
     * The host and lock half of the end of maintenance (main.go:348-351): remove the
     * marker, release the lock, lower the gauge and count the completion.
     */
    method ReleaseMaintenance(env: Env) returns (o: Outcome)
      modifies this
      ensures Exec(State(), o) ==
              Then(cfg, env, Then(cfg, env, Then(cfg, env, Perform(cfg, env, old(State()), RemoveMarker),
                                                 ReleaseLock), DecInProgress), IncCompleted)
    {
      ghost var e := Perform(cfg, env, State(), RemoveMarker);
      o := RemoveMaintenanceInProgress(env);
      if o.Halted? { return; }
      assert e == Exec(State(), Continued);
      e := Then(cfg, env, e, ReleaseLock);
      o := Release(env);
      if o.Halted? { return; }
      assert e == Exec(State(), Continued);
      MetricSteps(cfg, env, State());
      e := Then(cfg, env, e, DecInProgress);
      LowerInProgress();
      assert e == Exec(State(), Continued);
      MetricSteps(cfg, env, State());
      CountCompleted();
    }

    /**
     * The end of maintenance (main.go:342-351), given the node fetched at the start of
     * the tick: uncordon, drop the in-progress annotation if the fetched node has it,
     * remove the marker, release the lock, and move both metrics.
     */
    method FinishMaintenance(env: Env, node: NodeView) returns (o: Outcome)
      requires node.annotations == annotations
      modifies this
      ensures Exec(State(), o) == Run(cfg, env, old(State()), FinishPlan(cfg, old(State())))
    {
      FinishSteps(cfg, env, State());
      ghost var e := Perform(cfg, env, State(), UncordonNode);
      o := Uncordon(env);
      if o.Halted? { return; }
      assert e == Exec(State(), Continued);
      e := if ClearsAnnotation(cfg, old(State())) then Then(cfg, env, e, RemoveAnnotation) else e;
      o := ClearInProgressAnnotation(env, node);
      if o.Halted? { return; }
      assert e == Exec(State(), Continued);
      o := ReleaseMaintenance(env);
    }

    /** Sentinel absent (main.go:337-353): clear the taint, and finish maintenance if holding the lock. */
    method Idle(env: Env, node: NodeView) returns (o: Outcome)
      requires node.annotations == annotations
      modifies this
      ensures Exec(State(), o) == Run(cfg, env, old(State()), IdlePlan(cfg, old(State())))
    {
      IdleSteps(cfg, env, State());
      o := ClearTaintIfConfigured(env);
      if o.Halted? { return; }
      var held;
      o, held := Holding(env);
      if o.Halted? { return; }
      if held {
        o := FinishMaintenance(env, node);
      }
    }

    /** Sentinel present, before the lock (main.go:355-368): remember the schedulability, stamp the node. */
    method Stamp(env: Env, node: NodeView) returns (o: Outcome)
      requires node == NodeView(unschedulable, annotations)
      modifies this`nodeMeta, this`annotations
      ensures Exec(State(), o) == Run(cfg, env, old(State()), StampPlan(cfg, old(State())))
    {
      StampSteps(cfg, env, State());
      nodeMeta := node.unschedulable;
      o := Continued;
      if cfg.annotateNodes && InProgressKey !in node.annotations {
        o := AddNodeAnnotations(env, NeededStamps(env.now));
      }
    }

    /**
     * Sentinel present, the lock (main.go:370-380): if the acquire is granted, cordon,
     * drain, create the marker and raise the gauge; if refused, set the taint.
     */
    method Lock(env: Env) returns (o: Outcome)
      modifies this
      ensures Exec(State(), o) == Run(cfg, env, old(State()), LockPlan(cfg, env.reply))
    {
      LockSteps(cfg, env, State());
      ghost var e := Perform(cfg, env, State(), AcquireLock);
      var acquired;
      o, acquired := Acquire(env);
      if o.Halted? { return; }
      assert e == Exec(State(), Continued);
      if !acquired {
        o := SetTaintIfConfigured(env);
        return;
      }
      e := Then(cfg, env, Then(cfg, env, e, CordonNode), DrainNode);
      o := CordonAndDrain(env);
      if o.Halted? { return; }
      assert e == Exec(State(), Continued);
      e := Then(cfg, env, e, TouchMarker);
      o := MarkAsMaintenanceInProgress(env);
      if o.Halted? { return; }
      assert e == Exec(State(), Continued);
      MetricSteps(cfg, env, State());
      RaiseInProgress();
    }

    /** Sentinel present (main.go:355-380). */
    method Maintain(env: Env, node: NodeView) returns (o: Outcome)
      requires node == NodeView(unschedulable, annotations)
      modifies this
      ensures Exec(State(), o) == Run(cfg, env, old(State()), MaintainPlan(cfg, old(State()), env.reply))
    {
      RunAppend(cfg, env, State(), StampPlan(cfg, State()), LockPlan(cfg, env.reply));
      o := Stamp(env, node);
      if o.Halted? { return; }
      o := Lock(env);
    }

    /** One iteration of `for range tick` (main.go:322-381). */
    method Tick(t: TickInput) returns (o: Outcome)
      modifies this
      ensures Exec(State(), o) == TickSpec(cfg, old(State()), t)
    {
      if !t.inWindow {
        o := ClearTaintIfConfigured(t.env);
        return;
      }
      TickSteps(cfg, State(), t);
      var node, required;
      o, node := FetchNode(t.env);
      if o.Halted? { return; }
      o, required := MaintenanceRequired(t.env, t.sentinel);
      if o.Halted? { return; }
      if required {
        o := Maintain(t.env, node);
      } else {
        o := Idle(t.env, node);
      }
    }

    /** Startup recovery (main.go:294-308): if this node holds the lock and the sentinel is gone, undo the cordon. */
    method Recover(env: Env, sentinel: bool) returns (o: Outcome)
      modifies this
      ensures Exec(State(), o) == Run(cfg, env, old(State()), [TestLock] + RecoveryPlan(cfg, old(State()), sentinel))
    {
      RecoverySteps(cfg, env, State(), sentinel);
      var held, node, required;
      o, held := Holding(env);
      if o.Halted? || !held { return; }
      ghost var e := Then(cfg, env, Exec(State(), Continued), Step.GetNode);
      o, node := FetchNode(env);
      if o.Halted? { return; }
      e := Then(cfg, env, e, TestSentinel);
      o, required := MaintenanceRequired(env, sentinel);
      if o.Halted? || required { return; }
      assert e == Exec(State(), Continued);
      o := UndoMaintenance(env, node);
    }

    /**
     * The startup's undo when the sentinel is gone (main.go:300-306): uncordon, release
     * the lock, then the guarded deletion of the in-progress annotation.
     */
    method UndoMaintenance(env: Env, node: NodeView) returns (o: Outcome)
      requires node.annotations == annotations
      modifies this
      ensures Exec(State(), o) ==
              var e := Then(cfg, env, Perform(cfg, env, old(State()), UncordonNode), ReleaseLock);
              if ClearsAnnotation(cfg, old(State())) then Then(cfg, env, e, RemoveAnnotation) else e
    {
      ghost var e := Perform(cfg, env, State(), UncordonNode);
      o := Uncordon(env);
      if o.Halted? { return; }
      assert e == Exec(State(), Continued);
      e := Then(cfg, env, e, ReleaseLock);
      o := Release(env);
      if o.Halted? { return; }
      assert e == Exec(State(), Continued);
      o := ClearInProgressAnnotation(env, node);
    }

    /** Startup taint reset (main.go:310-318). */
    method ResetTaint(env: Env, sentinel: bool) returns (o: Outcome)
      modifies this`tainted
      ensures Exec(State(), o) == Run(cfg, env, old(State()), TaintResetPlan(cfg, sentinel))
    {
      TaintResetSteps(cfg, env, State(), sentinel);
      o := Continued;
      if cfg.taintConfigured {
        var required;
        o, required := MaintenanceRequired(env, sentinel);
        if o.Halted? || required { return; }
        o := DisableTaint(env);
      }
    }

    /** The startup of `cordonAndDrainAsRequired` before its loop (main.go:293-318). */
    method Start(s: StartupInput) returns (o: Outcome)
      modifies this
      ensures Exec(State(), o) == StartupSpec(cfg, old(State()), s)
    {
      o := Recover(s.recoveryEnv, s.sentinelAtRecovery);
      if o.Halted? { return; }
      o := ResetTaint(s.resetEnv, s.sentinelAtTaint);
    }

    /** The loop `for range tick`, over the readings of successive ticks, until a call fails. */
    method Serve(ts: seq<TickInput>) returns (o: Outcome)
      modifies this
      ensures Exec(State(), o) == Ticks(cfg, old(State()), ts)
    {
      var i := 0;
      o := Continued;
      while i < |ts|
        invariant 0 <= i <= |ts|
        invariant o == Continued
        invariant Ticks(cfg, old(State()), ts) == Ticks(cfg, State(), ts[i..])
      {
        TicksStep(cfg, State(), ts, i);
        o := Tick(ts[i]);
        if o.Halted? { return; }
        i := i + 1;
      }
    }
  }
}
