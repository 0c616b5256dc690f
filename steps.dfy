/**
 * Each plan of `Maintenance` performed one step at a time: the run of a plan is the
 * chain of `Then` its steps make, with the sub-plans a caller performs as one call
 * kept whole through `After`.
 */
module PlanSteps {
  import opened Maintenance
  import opened Runs

  /** `FinishPlan` performed step by step. */
  lemma FinishSteps(cfg: Config, env: Env, w: World)
    ensures Run(cfg, env, w, FinishPlan(cfg, w)) ==
      var e1 := Perform(cfg, env, w, UncordonNode);
      var e2 := if ClearsAnnotation(cfg, w) then Then(cfg, env, e1, RemoveAnnotation) else e1;
      Then(cfg, env, Then(cfg, env, Then(cfg, env, Then(cfg, env, e2, RemoveMarker), ReleaseLock), DecInProgress), IncCompleted)
  {
    var p := FinishPlan(cfg, w);
    var e := Exec(w, Continued);
    AfterStep(cfg, env, e, p);
    e, p := Then(cfg, env, e, p[0]), p[1..];
    if ClearsAnnotation(cfg, w) {
      AfterStep(cfg, env, e, p);
      e, p := Then(cfg, env, e, p[0]), p[1..];
    }
    AfterStep(cfg, env, e, p);
    e, p := Then(cfg, env, e, p[0]), p[1..];
    AfterStep(cfg, env, e, p);
    e, p := Then(cfg, env, e, p[0]), p[1..];
    AfterStep(cfg, env, e, p);
    e, p := Then(cfg, env, e, p[0]), p[1..];
    AfterStep(cfg, env, e, p);
    e, p := Then(cfg, env, e, p[0]), p[1..];
    assert p == [];
  }

  /** The metric updates cannot fail, and each moves its own metric by one. */
  lemma MetricSteps(cfg: Config, env: Env, w: World)
    ensures Perform(cfg, env, w, IncInProgress) == Exec(w.(inProgress := w.inProgress + 1), Continued)
    ensures Perform(cfg, env, w, DecInProgress) == Exec(w.(inProgress := w.inProgress - 1), Continued)
    ensures Perform(cfg, env, w, IncCompleted) == Exec(w.(completed := w.completed + 1), Continued)
  {
  }

  /** `IdlePlan` as the daemon performs it: the taint reset, the lock test, then `FinishPlan`. */
  lemma IdleSteps(cfg: Config, env: Env, w: World)
    ensures Run(cfg, env, w, IdlePlan(cfg, w)) ==
      var e := Then(cfg, env, Run(cfg, env, w, TaintOffPlan(cfg)), TestLock);
      if Holds(cfg, w) then After(cfg, env, e, FinishPlan(cfg, w)) else e
  {
    var rest := if Holds(cfg, w) then FinishPlan(cfg, w) else [];
    RunAppend(cfg, env, w, TaintOffPlan(cfg) + [TestLock], rest);
    RunAppend(cfg, env, w, TaintOffPlan(cfg), [TestLock]);
  }

  /** `StampPlan` performed step by step. */
  lemma StampSteps(cfg: Config, env: Env, w: World)
    ensures Run(cfg, env, w, StampPlan(cfg, w)) ==
      var e := Perform(cfg, env, w, RecordMeta);
      if StampsAnnotations(cfg, w) then Then(cfg, env, e, PatchAnnotations) else e
  {
    var p := StampPlan(cfg, w);
    var e := Exec(w, Continued);
    AfterStep(cfg, env, e, p);
    e, p := Then(cfg, env, e, p[0]), p[1..];
    if StampsAnnotations(cfg, w) {
      AfterStep(cfg, env, e, p);
      e, p := Then(cfg, env, e, p[0]), p[1..];
    }
    assert p == [];
  }

  /** `LockPlan` performed step by step, with the taint plan of a refusal kept whole through `After`. */
  lemma LockSteps(cfg: Config, env: Env, w: World)
    ensures Run(cfg, env, w, LockPlan(cfg, env.reply)) ==
      var e := Perform(cfg, env, w, AcquireLock);
      if env.reply.Granted? then
        Then(cfg, env, Then(cfg, env, Then(cfg, env, Then(cfg, env, e, CordonNode), DrainNode), TouchMarker), IncInProgress)
      else After(cfg, env, e, TaintOnPlan(cfg))
  {
    var p := LockPlan(cfg, env.reply);
    var e := Exec(w, Continued);
    AfterStep(cfg, env, e, p);
    e, p := Then(cfg, env, e, p[0]), p[1..];
    if env.reply.Granted? {
      AfterStep(cfg, env, e, p);
      e, p := Then(cfg, env, e, p[0]), p[1..];
      AfterStep(cfg, env, e, p);
      e, p := Then(cfg, env, e, p[0]), p[1..];
      AfterStep(cfg, env, e, p);
      e, p := Then(cfg, env, e, p[0]), p[1..];
      AfterStep(cfg, env, e, p);
      e, p := Then(cfg, env, e, p[0]), p[1..];
      assert p == [];
    } else {
      assert p == TaintOnPlan(cfg);
    }
  }

  /** A tick in the window: fetch the node, read the sentinel, then the branch the sentinel picks. */
  lemma TickSteps(cfg: Config, w: World, t: TickInput)
    requires t.inWindow
    ensures TickSpec(cfg, w, t) ==
      After(cfg, t.env, Then(cfg, t.env, Perform(cfg, t.env, w, GetNode), TestSentinel),
            if t.sentinel then MaintainPlan(cfg, w, t.env.reply) else IdlePlan(cfg, w))
  {
    var p := TickPlan(cfg, w, t);
    var e := Exec(w, Continued);
    AfterStep(cfg, t.env, e, p);
    e, p := Then(cfg, t.env, e, p[0]), p[1..];
    AfterStep(cfg, t.env, e, p);
  }

  /** The lock test and `RecoveryPlan` performed step by step. */
  lemma RecoverySteps(cfg: Config, env: Env, w: World, sentinel: bool)
    ensures Run(cfg, env, w, [TestLock] + RecoveryPlan(cfg, w, sentinel)) ==
      var e1 := Perform(cfg, env, w, TestLock);
      var e3 := Then(cfg, env, Then(cfg, env, e1, GetNode), TestSentinel);
      var e5 := Then(cfg, env, Then(cfg, env, e3, UncordonNode), ReleaseLock);
      if !Holds(cfg, w) then e1
      else if sentinel then e3
      else if ClearsAnnotation(cfg, w) then Then(cfg, env, e5, RemoveAnnotation)
      else e5
  {
    var p := [TestLock] + RecoveryPlan(cfg, w, sentinel);
    var e := Exec(w, Continued);
    AfterStep(cfg, env, e, p);
    e, p := Then(cfg, env, e, p[0]), p[1..];
    if Holds(cfg, w) {
      AfterStep(cfg, env, e, p);
      e, p := Then(cfg, env, e, p[0]), p[1..];
      AfterStep(cfg, env, e, p);
      e, p := Then(cfg, env, e, p[0]), p[1..];
      if !sentinel {
        AfterStep(cfg, env, e, p);
        e, p := Then(cfg, env, e, p[0]), p[1..];
        AfterStep(cfg, env, e, p);
        e, p := Then(cfg, env, e, p[0]), p[1..];
        if ClearsAnnotation(cfg, w) {
          AfterStep(cfg, env, e, p);
          e, p := Then(cfg, env, e, p[0]), p[1..];
        }
      }
    }
    assert p == [];
  }

  /** `TaintResetPlan` performed step by step. */
  lemma TaintResetSteps(cfg: Config, env: Env, w: World, sentinel: bool)
    ensures Run(cfg, env, w, TaintResetPlan(cfg, sentinel)) ==
      var e := Perform(cfg, env, w, TestSentinel);
      if !cfg.taintConfigured then Exec(w, Continued)
      else if sentinel then e
      else Then(cfg, env, e, DisableTaint)
  {
    var p := TaintResetPlan(cfg, sentinel);
    if cfg.taintConfigured {
      var e := Exec(w, Continued);
      AfterStep(cfg, env, e, p);
      e, p := Then(cfg, env, e, p[0]), p[1..];
      if !sentinel {
        AfterStep(cfg, env, e, p);
        e, p := Then(cfg, env, e, p[0]), p[1..];
      }
      assert p == [];
    }
  }

  /** One more tick of `Ticks`, from the `i`-th input. */
  lemma TicksStep(cfg: Config, w: World, ts: seq<TickInput>, i: nat)
    requires i < |ts|
    ensures Ticks(cfg, w, ts[i..]) ==
      (var e := TickSpec(cfg, w, ts[i]);
       if e.outcome.Halted? then e else Ticks(cfg, e.world, ts[i + 1..]))
  {
    assert ts[i..][0] == ts[i];
    assert ts[i..][1..] == ts[i + 1..];
  }
}
