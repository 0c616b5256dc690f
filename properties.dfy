/**
 * What one tick, the startup recovery and a run of ticks do, as `cordonAndDrainAsRequired`
 * (cmd/kustodian/main.go:293-381) promises. Lemmas that require `env.fault == None`
 * describe the normal path; the others hold whichever collaborator call fails.
 */
module MaintenanceProperties {
  import opened Wrappers
  import opened Annotations
  import opened Maintenance
  import opened Runs
  import opened PlanSteps

  /** The world with the prefer-no-schedule taint removed, if one is configured. */
  function Untainted(cfg: Config, w: World): World
  {
    if cfg.taintConfigured then w.(tainted := false) else w
  }

  /** The annotations after the stamping step of a tick with the sentinel present. */
  function Stamped(cfg: Config, w: World, now: string): map<string, string>
  {
    if StampsAnnotations(cfg, w) then w.annotations + NeededStamps(now) else w.annotations
  }

  /** Disabling the taint: a no-op without a configured taint. */
  lemma TaintOffRun(cfg: Config, env: Env, w: World)
    ensures Run(cfg, env, w, TaintOffPlan(cfg)) ==
            if cfg.taintConfigured && FailsAt(env, DisableTaint) then Exec(w, Halted(DisableTaint))
            else Exec(Untainted(cfg, w), Continued)
  {
    assert [DisableTaint][1..] == [];
  }

  /** Enabling the taint on the normal path. */
  lemma TaintOnRun(cfg: Config, env: Env, w: World)
    requires env.fault == None
    ensures Run(cfg, env, w, TaintOnPlan(cfg)) ==
            Exec(if cfg.taintConfigured then w.(tainted := true) else w, Continued)
  {
    assert [EnableTaint][1..] == [];
  }

  /** A one-step plan performs its step. */
  lemma SingleRun(cfg: Config, env: Env, w: World, s: Step)
    ensures Run(cfg, env, w, [s]) == Perform(cfg, env, w, s)
  {
    assert [s][1..] == [];
  }

  /** The annotations once the in-progress one is deleted, when annotating and present. */
  function Cleared(cfg: Config, w: World): map<string, string>
  {
    if ClearsAnnotation(cfg, w) then w.annotations - {InProgressKey} else w.annotations
  }

  /** When annotating, the in-progress annotation is gone afterwards; otherwise nothing changes. */
  lemma ClearedAnnotations(cfg: Config, w: World)
    ensures Cleared(cfg, w) == if cfg.annotateNodes then w.annotations - {InProgressKey} else w.annotations
    ensures InProgressKey !in Cleared(cfg, w) || !cfg.annotateNodes
  {
    if cfg.annotateNodes && InProgressKey !in w.annotations {
      assert w.annotations - {InProgressKey} == w.annotations;
    }
  }

  /** The world after maintenance ends (main.go:342-351). */
  function Released(cfg: Config, w: World): World
  {
    w.(lock := None,
       unschedulable := false,
       marker := false,
       annotations := Cleared(cfg, w),
       inProgress := w.inProgress - 1,
       completed := w.completed + 1)
  }

  /** The last four steps of finishing on the normal path: marker, lock, gauge, counter. */
  lemma FinishTailRun(cfg: Config, env: Env, v: World)
    requires env.fault == None
    ensures Run(cfg, env, v, [RemoveMarker, ReleaseLock, DecInProgress, IncCompleted]) ==
            Exec(v.(marker := false, lock := None, inProgress := v.inProgress - 1, completed := v.completed + 1),
                 Continued)
  {
    var t := [RemoveMarker, ReleaseLock, DecInProgress, IncCompleted];
    assert t[1..] == [ReleaseLock, DecInProgress, IncCompleted];
    assert t[1..][1..] == [DecInProgress, IncCompleted];
    assert t[1..][1..][1..] == [IncCompleted];
    assert t[1..][1..][1..][1..] == [];
  }

  /**
   * Finishing maintenance on the normal path (main.go:342-351): the node is uncordoned,
   * the in-progress annotation is dropped if it is there to drop, the marker removed,
   * the lock released, the gauge one lower and the counter one higher.
   */
  lemma FinishRun(cfg: Config, env: Env, w: World)
    requires env.fault == None
    ensures Run(cfg, env, w, FinishPlan(cfg, w)) == Exec(Released(cfg, w), Continued)
  {
    var x := if ClearsAnnotation(cfg, w) then [RemoveAnnotation] else [];
    var t := [RemoveMarker, ReleaseLock, DecInProgress, IncCompleted];
    RunAppend(cfg, env, w, [UncordonNode] + x, t);
    RunCons(cfg, env, w, UncordonNode, x);
    var v := w.(unschedulable := false);
    SingleRun(cfg, env, v, RemoveAnnotation);
    FinishTailRun(cfg, env, v.(annotations := Cleared(cfg, w)));
  }

  /**
   * The sentinel-absent branch on the normal path (main.go:338-351): the taint is
   * cleared, and maintenance ends if this node holds the lock.
   */
  lemma IdleRun(cfg: Config, env: Env, w: World)
    requires env.fault == None
    ensures Run(cfg, env, w, IdlePlan(cfg, w)) ==
            Exec(if Holds(cfg, w) then Released(cfg, Untainted(cfg, w)) else Untainted(cfg, w), Continued)
  {
    var v := Untainted(cfg, w);
    TaintOffRun(cfg, env, w);
    SingleRun(cfg, env, v, TestLock);
    RunAppend(cfg, env, w, TaintOffPlan(cfg), [TestLock]);
    var rest := if Holds(cfg, w) then FinishPlan(cfg, w) else [];
    RunAppend(cfg, env, w, TaintOffPlan(cfg) + [TestLock], rest);
    if Holds(cfg, w) {
      assert FinishPlan(cfg, v) == FinishPlan(cfg, w);
      FinishRun(cfg, env, v);
    }
  }

  /** The steps before the lock, on the normal path (main.go:355-368). */
  lemma StampRun(cfg: Config, env: Env, w: World)
    requires env.fault == None
    ensures Run(cfg, env, w, StampPlan(cfg, w)) ==
            Exec(w.(nodeMeta := w.unschedulable, annotations := Stamped(cfg, w, env.now)), Continued)
  {
    StampSteps(cfg, env, w);
  }

  /**
   * The lock and what follows it, on the normal path (main.go:370-380): a granted acquire
   * stores `nodeMeta` in the lock as this node's, then cordons, drains, creates the
   * marker and raises the gauge; a refused one only sets the taint.
   */
  lemma LockRun(cfg: Config, env: Env, w: World)
    requires env.fault == None
    ensures Run(cfg, env, w, LockPlan(cfg, env.reply)) ==
            Exec(if env.reply.Granted? then
                   w.(lock := Some(LockRecord(cfg.nodeId, w.nodeMeta)),
                      unschedulable := true,
                      drained := w.drained + 1,
                      marker := true,
                      inProgress := w.inProgress + 1)
                 else if cfg.taintConfigured then w.(tainted := true)
                 else w,
                 Continued)
  {
    if env.reply.Granted? {
      GrantedLockRun(cfg, env, w);
    } else {
      RunCons(cfg, env, w, AcquireLock, TaintOnPlan(cfg));
      assert Perform(cfg, env, w, AcquireLock) == Exec(w, Continued);
      TaintOnRun(cfg, env, w);
    }
  }

  /** A granted acquire and what follows it, on the normal path. */
  lemma GrantedLockRun(cfg: Config, env: Env, w: World)
    requires env.fault == None && env.reply.Granted?
    ensures Run(cfg, env, w, LockPlan(cfg, env.reply)) ==
            Exec(w.(lock := Some(LockRecord(cfg.nodeId, w.nodeMeta)),
                    unschedulable := true,
                    drained := w.drained + 1,
                    marker := true,
                    inProgress := w.inProgress + 1),
                 Continued)
  {
    var e1 := Perform(cfg, env, w, AcquireLock);
    assert e1 == Exec(w.(lock := Some(LockRecord(cfg.nodeId, w.nodeMeta))), Continued);
    var e2 := Then(cfg, env, e1, CordonNode);
    assert e2 == Exec(e1.world.(unschedulable := true), Continued);
    var e3 := Then(cfg, env, e2, DrainNode);
    assert e3 == Exec(e2.world.(drained := w.drained + 1), Continued);
    var e4 := Then(cfg, env, e3, TouchMarker);
    assert e4 == Exec(e3.world.(marker := true), Continued);
    LockSteps(cfg, env, w);
  }

  /** A tick in the window whose node fetch and sentinel read succeed goes on to the branch the sentinel picks. */
  lemma BranchRun(cfg: Config, w: World, t: TickInput)
    requires t.inWindow && !FailsAt(t.env, GetNode) && !FailsAt(t.env, TestSentinel)
    ensures TickSpec(cfg, w, t) ==
            Run(cfg, t.env, w, if t.sentinel then MaintainPlan(cfg, w, t.env.reply) else IdlePlan(cfg, w))
  {
    TickSteps(cfg, w, t);
    assert Then(cfg, t.env, Perform(cfg, t.env, w, GetNode), TestSentinel) == Exec(w, Continued);
  }

  /** A tick with the sentinel present, on the normal path, as the two halves of `MaintainPlan`. */
  lemma MaintainRun(cfg: Config, w: World, t: TickInput)
    requires t.inWindow && t.sentinel && t.env.fault == None
    ensures TickSpec(cfg, w, t) ==
            Run(cfg, t.env, w.(nodeMeta := w.unschedulable, annotations := Stamped(cfg, w, t.env.now)),
                LockPlan(cfg, t.env.reply))
  {
    BranchRun(cfg, w, t);
    RunAppend(cfg, t.env, w, StampPlan(cfg, w), LockPlan(cfg, t.env.reply));
    StampRun(cfg, t.env, w);
  }

  /** The steps `FinishPlan` can perform: no acquire, cordon or drain; the delete only when it applies. */
  lemma FinishPlanContents(cfg: Config, w: World)
    ensures var p := FinishPlan(cfg, w);
      && (RemoveAnnotation in p <==> ClearsAnnotation(cfg, w))
      && AcquireLock !in p && CordonNode !in p && DrainNode !in p
  {
  }

  /** The steps `IdlePlan` can perform: it never acquires, cordons, drains or records anything. */
  lemma IdlePlanContents(cfg: Config, w: World)
    ensures var p := IdlePlan(cfg, w);
      && AcquireLock !in p && CordonNode !in p && DrainNode !in p && RecordMeta !in p
      && (!Holds(cfg, w) ==> ReleaseLock !in p && UncordonNode !in p && IncCompleted !in p)
  {
    FinishPlanContents(cfg, w);
  }

  /** The steps `StampPlan` can perform: only recording `nodeMeta` and stamping. */
  lemma StampPlanContents(cfg: Config, w: World)
    ensures var p := StampPlan(cfg, w);
      && DrainNode !in p && IncCompleted !in p && AcquireLock !in p && ReleaseLock !in p
      && CordonNode !in p && TouchMarker !in p && IncInProgress !in p
  {
  }

  /** The steps `LockPlan` can perform: never a release or a completion; after a refusal, no drain. */
  lemma LockPlanContents(cfg: Config, reply: AcquireReply)
    ensures var p := LockPlan(cfg, reply);
      && IncCompleted !in p && RecordMeta !in p && ReleaseLock !in p
      && AcquireLock !in p[1..]
      && (reply.Refused? ==> CordonNode !in p && DrainNode !in p && TouchMarker !in p && IncInProgress !in p)
  {
  }

  /** The steps of both startup phases: never the marker, the metrics, a drain or `nodeMeta`. */
  lemma StartupPlanContents(cfg: Config, w: World, s: StartupInput)
    ensures var p := [TestLock] + RecoveryPlan(cfg, w, s.sentinelAtRecovery);
      && TouchMarker !in p && RemoveMarker !in p && IncInProgress !in p && DecInProgress !in p
      && RecordMeta !in p && DrainNode !in p && IncCompleted !in p
    ensures var p := TaintResetPlan(cfg, s.sentinelAtTaint);
      && TouchMarker !in p && RemoveMarker !in p && IncInProgress !in p && DecInProgress !in p
      && RecordMeta !in p && DrainNode !in p && IncCompleted !in p
  {
  }

  /**
   * Outside the window (main.go:323-329) a tick only disables the taint, if one is
   * configured; if that call fails, nothing has changed.
   */
  lemma OutsideWindowOnlyClearsTaint(cfg: Config, w: World, t: TickInput)
    requires !t.inWindow
    ensures TickPlan(cfg, w, t) == TaintOffPlan(cfg)
    ensures TickSpec(cfg, w, t) ==
            if cfg.taintConfigured && FailsAt(t.env, DisableTaint) then Exec(w, Halted(DisableTaint))
            else Exec(Untainted(cfg, w), Continued)
  {
    TaintOffRun(cfg, t.env, w);
  }

  /** A tick in the window whose node fetch or sentinel read fails has changed nothing. */
  lemma EarlyHalt(cfg: Config, w: World, t: TickInput)
    requires t.inWindow && (FailsAt(t.env, GetNode) || FailsAt(t.env, TestSentinel))
    ensures TickSpec(cfg, w, t).world == w && TickSpec(cfg, w, t).outcome.Halted?
  {
    TickSteps(cfg, w, t);
  }

  /**
   * In the window, sentinel absent, lock not held (main.go:337-341, 353): only the taint
   * changes, whichever call fails, and the lock and the node are never touched.
   */
  lemma IdleTickOnlyClearsTaint(cfg: Config, w: World, t: TickInput)
    requires t.inWindow && !t.sentinel && !Holds(cfg, w)
    ensures var e := TickSpec(cfg, w, t);
      && (e.world == w || e.world == Untainted(cfg, w))
      && (e.outcome.Continued? ==> e.world == Untainted(cfg, w))
    ensures var p := TickPlan(cfg, w, t);
      AcquireLock !in p && ReleaseLock !in p && CordonNode !in p && UncordonNode !in p && DrainNode !in p
  {
    IdlePlanContents(cfg, w);
    if FailsAt(t.env, GetNode) || FailsAt(t.env, TestSentinel) {
      EarlyHalt(cfg, w, t);
    } else {
      BranchRun(cfg, w, t);
      assert IdlePlan(cfg, w) == TaintOffPlan(cfg) + [TestLock] + [];
      assert TaintOffPlan(cfg) + [TestLock] + [] == TaintOffPlan(cfg) + [TestLock];
      RunAppend(cfg, t.env, w, TaintOffPlan(cfg), [TestLock]);
      TaintOffRun(cfg, t.env, w);
      SingleRun(cfg, t.env, Untainted(cfg, w), TestLock);
    }
  }

  /**
   * In the window, sentinel absent, lock held (main.go:341-352), on the normal path: the
   * taint is disabled, the node uncordoned, the in-progress annotation gone, the marker
   * removed, the lock released, the gauge lowered by one and the counter raised by one;
   * nothing else moves. The annotation is deleted only when annotating and present.
   */
  lemma FinishingTickReleases(cfg: Config, w: World, t: TickInput)
    requires t.inWindow && !t.sentinel && Holds(cfg, w) && t.env.fault == None
    ensures TickSpec(cfg, w, t) ==
            Exec(Untainted(cfg, w).(
                   lock := None,
                   unschedulable := false,
                   marker := false,
                   annotations := if cfg.annotateNodes then w.annotations - {InProgressKey} else w.annotations,
                   inProgress := w.inProgress - 1,
                   completed := w.completed + 1),
                 Continued)
    ensures var p := TickPlan(cfg, w, t);
      && (RemoveAnnotation in p <==> ClearsAnnotation(cfg, w))
      && AcquireLock !in p && CordonNode !in p && DrainNode !in p
  {
    BranchRun(cfg, w, t);
    IdleRun(cfg, t.env, w);
    ClearedAnnotations(cfg, Untainted(cfg, w));
    IdlePlanContents(cfg, w);
    FinishPlanContents(cfg, w);
  }

  /** Stamping merges exactly the two stamps into the annotations, both carrying `now`. */
  lemma StampedAnnotations(a: map<string, string>, now: string)
    ensures var r := a + NeededStamps(now);
      && r.Keys == a.Keys + {InProgressKey, MostRecentNeededKey}
      && r[InProgressKey] == now
      && r[MostRecentNeededKey] == now
      && (forall k :: k in a && k != InProgressKey && k != MostRecentNeededKey ==> r[k] == a[k])
  {
    KeysDistinct();
  }

  /**
   * Sentinel present (main.go:358-368), on the normal path: when annotating and the
   * in-progress annotation is absent, both stamps carry the same timestamp and every
   * other annotation is kept; otherwise no annotation changes.
   */
  lemma SentinelTickStampsOnce(cfg: Config, w: World, t: TickInput)
    requires t.inWindow && t.sentinel && t.env.fault == None
    ensures var a := TickSpec(cfg, w, t).world.annotations;
      if StampsAnnotations(cfg, w) then
        && a.Keys == w.annotations.Keys + {InProgressKey, MostRecentNeededKey}
        && a[InProgressKey] == t.env.now
        && a[MostRecentNeededKey] == t.env.now
        && (forall k :: k in w.annotations && k != InProgressKey && k != MostRecentNeededKey ==>
              a[k] == w.annotations[k])
      else a == w.annotations
  {
    MaintainRun(cfg, w, t);
    LockRun(cfg, t.env, w.(nodeMeta := w.unschedulable, annotations := Stamped(cfg, w, t.env.now)));
    StampedAnnotations(w.annotations, t.env.now);
  }

  /**
   * Sentinel present (main.go:355, 370): once the node is fetched and the sentinel read,
   * `nodeMeta` holds the node's schedulability from before this tick, whatever fails
   * later; and an acquire that is granted and reached stores exactly that in the lock.
   */
  lemma AcquireRecordsPriorSchedulability(cfg: Config, w: World, t: TickInput)
    requires t.inWindow && t.sentinel && !FailsAt(t.env, GetNode) && !FailsAt(t.env, TestSentinel)
    ensures var e := TickSpec(cfg, w, t);
      && e.world.nodeMeta == w.unschedulable
      && (t.env.reply.Granted? && !FailsAt(t.env, PatchAnnotations) && !FailsAt(t.env, AcquireLock) ==>
            e.world.lock == Some(LockRecord(cfg.nodeId, w.unschedulable)))
  {
    var env := t.env;
    BranchRun(cfg, w, t);
    RunAppend(cfg, env, w, StampPlan(cfg, w), LockPlan(cfg, env.reply));
    StampSteps(cfg, env, w);
    var s := Run(cfg, env, w, StampPlan(cfg, w));
    assert s.world.nodeMeta == w.unschedulable && s.world.unschedulable == w.unschedulable;
    if s.outcome.Continued? {
      var l := LockPlan(cfg, env.reply);
      var a := Perform(cfg, env, s.world, AcquireLock);
      assert a.world.nodeMeta == w.unschedulable;
      AfterStep(cfg, env, s, l);
      if a.outcome.Continued? {
        LockPlanContents(cfg, env.reply);
        assert forall x :: x in l[1..] ==> x in l;
        RunKeepsLock(cfg, env, a.world, l[1..]);
      }
    }
  }

  /**
   * Refused acquire (main.go:370-375), on the normal path: apart from the recorded
   * schedulability and the stamps, only the taint changes; nothing is cordoned, drained
   * or marked and the lock is left as it was.
   */
  lemma RefusedTickWaits(cfg: Config, w: World, t: TickInput)
    requires t.inWindow && t.sentinel && t.env.reply.Refused? && t.env.fault == None
    ensures TickSpec(cfg, w, t) ==
            Exec(w.(nodeMeta := w.unschedulable,
                    annotations := Stamped(cfg, w, t.env.now),
                    tainted := cfg.taintConfigured || w.tainted),
                 Continued)
    ensures var p := TickPlan(cfg, w, t);
      CordonNode !in p && DrainNode !in p && TouchMarker !in p && IncInProgress !in p
  {
    MaintainRun(cfg, w, t);
    LockRun(cfg, t.env, w.(nodeMeta := w.unschedulable, annotations := Stamped(cfg, w, t.env.now)));
    StampPlanContents(cfg, w);
    LockPlanContents(cfg, t.env.reply);
  }

  /** The last elements of `a + b` are `b`. */
  lemma SuffixOfAppend<T>(a: seq<T>, b: seq<T>)
    ensures (a + b)[|a|..] == b
  {
  }

  /**
   * Granted acquire (main.go:378-380), on the normal path: the tick ends by cordoning,
   * draining, creating the marker and raising the gauge, in that order, and the lock
   * records this node and its schedulability from before the tick. This holds also when
   * the node already held the lock: it then drains again.
   */
  lemma GrantedTickDrains(cfg: Config, w: World, t: TickInput)
    requires t.inWindow && t.sentinel && t.env.reply.Granted? && t.env.fault == None
    ensures TickSpec(cfg, w, t) ==
            Exec(w.(nodeMeta := w.unschedulable,
                    annotations := Stamped(cfg, w, t.env.now),
                    lock := Some(LockRecord(cfg.nodeId, w.unschedulable)),
                    unschedulable := true,
                    drained := w.drained + 1,
                    marker := true,
                    inProgress := w.inProgress + 1),
                 Continued)
    ensures var p := TickPlan(cfg, w, t);
      |p| >= 4 && p[|p| - 4..] == [CordonNode, DrainNode, TouchMarker, IncInProgress]
  {
    MaintainRun(cfg, w, t);
    LockRun(cfg, t.env, w.(nodeMeta := w.unschedulable, annotations := Stamped(cfg, w, t.env.now)));
    var head := [GetNode, TestSentinel] + StampPlan(cfg, w) + [AcquireLock];
    var tail := [CordonNode, DrainNode, TouchMarker, IncInProgress];
    assert TickPlan(cfg, w, t) == head + tail;
    SuffixOfAppend(head, tail);
  }

  /** The recovery's fetch, sentinel read, uncordon and release on the normal path. */
  lemma RecoveryHeadRun(cfg: Config, env: Env, w: World)
    requires env.fault == None
    ensures Run(cfg, env, w, [GetNode, TestSentinel, UncordonNode, ReleaseLock]) ==
            Exec(w.(lock := None, unschedulable := false), Continued)
  {
    var h := [GetNode, TestSentinel, UncordonNode, ReleaseLock];
    assert h[1..] == [TestSentinel, UncordonNode, ReleaseLock];
    assert h[1..][1..] == [UncordonNode, ReleaseLock];
    assert h[1..][1..][1..] == [ReleaseLock];
    assert h[1..][1..][1..][1..] == [];
  }

  /** The lock test and the recovery on the normal path (main.go:294-308). */
  lemma RecoveryRun(cfg: Config, env: Env, w: World, sentinel: bool)
    requires env.fault == None
    ensures Run(cfg, env, w, [TestLock] + RecoveryPlan(cfg, w, sentinel)) ==
            Exec(if Holds(cfg, w) && !sentinel then
                   w.(lock := None, unschedulable := false, annotations := Cleared(cfg, w))
                 else w,
                 Continued)
  {
    var r := RecoveryPlan(cfg, w, sentinel);
    RunCons(cfg, env, w, TestLock, r);
    assert Effect(cfg, env, w, TestLock) == w;
    if !Holds(cfg, w) {
      assert r == [];
    } else if sentinel {
      RecoverySteps(cfg, env, w, sentinel);
    } else {
      var x := if ClearsAnnotation(cfg, w) then [RemoveAnnotation] else [];
      RunAppend(cfg, env, w, [GetNode, TestSentinel, UncordonNode, ReleaseLock], x);
      RecoveryHeadRun(cfg, env, w);
      SingleRun(cfg, env, w.(lock := None, unschedulable := false), RemoveAnnotation);
    }
  }

  /** The startup taint reset on the normal path (main.go:310-318). */
  lemma TaintResetRun(cfg: Config, env: Env, w: World, sentinel: bool)
    requires env.fault == None
    ensures Run(cfg, env, w, TaintResetPlan(cfg, sentinel)) ==
            Exec(if cfg.taintConfigured && !sentinel then w.(tainted := false) else w, Continued)
  {
    TaintResetSteps(cfg, env, w, sentinel);
  }

  /**
   * Startup (main.go:293-318), on the normal path: holding the lock with the sentinel gone,
   * the node is uncordoned, the lock released and the in-progress annotation deleted when
   * annotating; independently the taint is disabled when configured and the second
   * sentinel read finds none. The marker and the metrics are left alone.
   */
  lemma StartupRecovers(cfg: Config, w: World, s: StartupInput)
    requires s.recoveryEnv.fault == None && s.resetEnv.fault == None
    ensures var recovers := Holds(cfg, w) && !s.sentinelAtRecovery;
      StartupSpec(cfg, w, s) ==
        Exec(w.(lock := if recovers then None else w.lock,
                unschedulable := if recovers then false else w.unschedulable,
                annotations := if recovers && cfg.annotateNodes then w.annotations - {InProgressKey} else w.annotations,
                tainted := if cfg.taintConfigured && !s.sentinelAtTaint then false else w.tainted),
             Continued)
  {
    RecoveryRun(cfg, s.recoveryEnv, w, s.sentinelAtRecovery);
    var r := Run(cfg, s.recoveryEnv, w, [TestLock] + RecoveryPlan(cfg, w, s.sentinelAtRecovery));
    TaintResetRun(cfg, s.resetEnv, r.world, s.sentinelAtTaint);
    ClearedAnnotations(cfg, w);
  }

  /**
   * The second sentinel read (main.go:316) can fail after a completed recovery: the
   * process then ends with the lock released and the node uncordoned, the taint untouched.
   */
  lemma StartupResetReadFails(cfg: Config, w: World, s: StartupInput)
    requires Holds(cfg, w) && !s.sentinelAtRecovery && cfg.taintConfigured
    requires s.recoveryEnv.fault == None && s.resetEnv.fault == Some(TestSentinel)
    ensures var e := StartupSpec(cfg, w, s);
      && e.outcome == Halted(TestSentinel)
      && e.world == w.(lock := None, unschedulable := false, annotations := Cleared(cfg, w))
  {
    RecoveryRun(cfg, s.recoveryEnv, w, s.sentinelAtRecovery);
    var r := Run(cfg, s.recoveryEnv, w, [TestLock] + RecoveryPlan(cfg, w, s.sentinelAtRecovery));
    TaintResetSteps(cfg, s.resetEnv, r.world, s.sentinelAtTaint);
  }

  /**
   * Startup never touches the marker file, the metrics, the drain count or `nodeMeta`,
   * whichever call fails: the recovery release is not the end-of-maintenance release.
   */
  lemma StartupKeepsMarkerAndMetrics(cfg: Config, w: World, s: StartupInput)
    ensures var r := StartupSpec(cfg, w, s).world;
      && r.marker == w.marker
      && r.inProgress == w.inProgress
      && r.completed == w.completed
      && r.drained == w.drained
      && r.nodeMeta == w.nodeMeta
  {
    StartupPlanContents(cfg, w, s);
    var p := [TestLock] + RecoveryPlan(cfg, w, s.sentinelAtRecovery);
    RunKeepsNode(cfg, s.recoveryEnv, w, p);
    RunKeepsLock(cfg, s.recoveryEnv, w, p);
    var r := Run(cfg, s.recoveryEnv, w, p).world;
    RunKeepsNode(cfg, s.resetEnv, r, TaintResetPlan(cfg, s.sentinelAtTaint));
    RunKeepsLock(cfg, s.resetEnv, r, TaintResetPlan(cfg, s.sentinelAtTaint));
  }

  /** Finishing maintenance raises the counter by at most one, whichever call fails. */
  lemma FinishCountsOnce(cfg: Config, env: Env, w: World)
    ensures var c := Run(cfg, env, w, FinishPlan(cfg, w)).world.completed;
      c == w.completed || c == w.completed + 1
  {
    FinishSteps(cfg, env, w);
  }

  /** The lock half of a sentinel tick drains at most once, whichever call fails, and only when granted. */
  lemma LockDrainsOnce(cfg: Config, env: Env, w: World)
    ensures var d := Run(cfg, env, w, LockPlan(cfg, env.reply)).world.drained;
      && (d == w.drained || d == w.drained + 1)
      && (d == w.drained + 1 ==> env.reply.Granted?)
  {
    LockSteps(cfg, env, w);
    if env.reply.Refused? {
      LockPlanContents(cfg, env.reply);
      RunKeepsNode(cfg, env, w, LockPlan(cfg, env.reply));
    }
  }

  /**
   * A tick raises the completed counter by at most one, whatever fails, and only from
   * the branch that finishes maintenance.
   */
  lemma TickCountsCompletion(cfg: Config, w: World, t: TickInput)
    ensures var c := TickSpec(cfg, w, t).world.completed;
      && (c == w.completed || c == w.completed + 1)
      && (c == w.completed + 1 ==> t.inWindow && !t.sentinel && Holds(cfg, w))
  {
    var env := t.env;
    if !t.inWindow {
      RunKeepsNode(cfg, env, w, TaintOffPlan(cfg));
    } else if FailsAt(env, GetNode) || FailsAt(env, TestSentinel) {
      EarlyHalt(cfg, w, t);
    } else if t.sentinel {
      BranchRun(cfg, w, t);
      StampPlanContents(cfg, w);
      LockPlanContents(cfg, env.reply);
      RunKeepsNode(cfg, env, w, MaintainPlan(cfg, w, env.reply));
    } else {
      BranchRun(cfg, w, t);
      var head := TaintOffPlan(cfg) + [TestLock];
      var rest := if Holds(cfg, w) then FinishPlan(cfg, w) else [];
      RunAppend(cfg, env, w, head, rest);
      RunKeepsNode(cfg, env, w, head);
      var h := Run(cfg, env, w, head);
      if h.outcome.Continued? {
        if Holds(cfg, w) {
          assert FinishPlan(cfg, h.world) == FinishPlan(cfg, w);
          FinishCountsOnce(cfg, env, h.world);
        } else {
          RunKeepsNode(cfg, env, h.world, rest);
        }
      }
    }
  }

  /** A tick drains at most once, whatever fails, and only after a granted acquire. */
  lemma TickDrainsAtMostOnce(cfg: Config, w: World, t: TickInput)
    ensures var d := TickSpec(cfg, w, t).world.drained;
      && (d == w.drained || d == w.drained + 1)
      && (d == w.drained + 1 ==> t.inWindow && t.sentinel && t.env.reply.Granted?)
  {
    var env := t.env;
    if !t.inWindow {
      RunKeepsNode(cfg, env, w, TaintOffPlan(cfg));
    } else if FailsAt(env, GetNode) || FailsAt(env, TestSentinel) {
      EarlyHalt(cfg, w, t);
    } else if !t.sentinel {
      BranchRun(cfg, w, t);
      IdlePlanContents(cfg, w);
      RunKeepsNode(cfg, env, w, IdlePlan(cfg, w));
    } else {
      BranchRun(cfg, w, t);
      RunAppend(cfg, env, w, StampPlan(cfg, w), LockPlan(cfg, env.reply));
      StampPlanContents(cfg, w);
      RunKeepsNode(cfg, env, w, StampPlan(cfg, w));
      var s := Run(cfg, env, w, StampPlan(cfg, w));
      if s.outcome.Continued? {
        LockDrainsOnce(cfg, env, s.world);
      }
    }
  }

  /** Over any run of ticks the completed counter and the drain count never decrease. */
  lemma {:induction false} TicksMonotone(cfg: Config, w: World, ts: seq<TickInput>)
    ensures Ticks(cfg, w, ts).world.completed >= w.completed
    ensures Ticks(cfg, w, ts).world.drained >= w.drained
    decreases |ts|
  {
    if ts != [] {
      var e := TickSpec(cfg, w, ts[0]);
      TickCountsCompletion(cfg, w, ts[0]);
      TickDrainsAtMostOnce(cfg, w, ts[0]);
      if e.outcome.Continued? {
        TicksMonotone(cfg, e.world, ts[1..]);
      }
    }
  }

  /**
   * The whole cycle: window open, sentinel present, lock free, then the sentinel gone.
   * After the two ticks the node was drained once and is schedulable again, the marker
   * is gone, the lock is free, the gauge is back and one completion is counted.
   */
  lemma MaintenanceRoundTrip(cfg: Config, w: World, now: string)
    requires w.lock == None
    ensures var e := Ticks(cfg, w, [TickInput(true, true, Healthy(Granted, now)),
                                    TickInput(true, false, Healthy(Granted, now))]);
      && e.outcome == Continued
      && e.world.lock == None
      && !e.world.unschedulable && !e.world.marker
      && e.world.drained == w.drained + 1
      && e.world.inProgress == w.inProgress
      && e.world.completed == w.completed + 1
  {
    var t1 := TickInput(true, true, Healthy(Granted, now));
    var t2 := TickInput(true, false, Healthy(Granted, now));
    GrantedTickDrains(cfg, w, t1);
    var e1 := TickSpec(cfg, w, t1);
    FinishingTickReleases(cfg, e1.world, t2);
    var e2 := TickSpec(cfg, e1.world, t2);
    assert [t1, t2][1..] == [t2];
    assert [t2][1..] == [];
    assert Ticks(cfg, e1.world, [t2]) == e2;
    assert Ticks(cfg, w, [t1, t2]) == Ticks(cfg, e1.world, [t2]);
  }

  /**
   * Re-acquiring while already holding the lock (main.go:370, 378): a second tick with the
   * sentinel still present drains the node again and raises the gauge again.
   */
  lemma HeldLockDrainsAgain(cfg: Config, w: World, now: string)
    requires w.lock == None
    ensures var t := TickInput(true, true, Healthy(Granted, now));
      var e := Ticks(cfg, w, [t, t]);
      && e.outcome == Continued
      && e.world.drained == w.drained + 2
      && e.world.inProgress == w.inProgress + 2
  {
    var t := TickInput(true, true, Healthy(Granted, now));
    GrantedTickDrains(cfg, w, t);
    var e1 := TickSpec(cfg, w, t);
    GrantedTickDrains(cfg, e1.world, t);
    var e2 := TickSpec(cfg, e1.world, t);
    assert [t, t][1..] == [t];
    assert [t][1..] == [];
    assert Ticks(cfg, e1.world, [t]) == e2;
    assert Ticks(cfg, w, [t, t]) == Ticks(cfg, e1.world, [t]);
  }

  /**
   * The gauge can read -1: a process restarted while its node holds the lock and the
   * sentinel is still present starts with the gauge at 0 and keeps the lock; if the
   * sentinel is gone by its first in-window tick, that tick lowers the gauge below 0.
   */
  lemma GaugeCanGoNegative(cfg: Config, persisted: World, now: string)
    requires Holds(cfg, persisted)
    ensures var booted := Boot(persisted);
      var env := Healthy(Granted, now);
      var started := StartupSpec(cfg, booted, StartupInput(true, true, env, env));
      TickSpec(cfg, started.world, TickInput(true, false, env)).world.inProgress == -1
  {
    var booted := Boot(persisted);
    var env := Healthy(Granted, now);
    StartupRecovers(cfg, booted, StartupInput(true, true, env, env));
    var started := StartupSpec(cfg, booted, StartupInput(true, true, env, env));
    FinishingTickReleases(cfg, started.world, TickInput(true, false, env));
  }
}
