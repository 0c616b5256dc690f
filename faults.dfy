/**
 * A fault names a kind of call, and `Run` halts at the first call of that kind. No plan
 * of one tick, and no plan of either startup phase, makes the same kind of call twice,
 * so every single call the daemon makes can be the one that fails, and the model then
 * halts exactly there.
 */
module Faults {
  import opened Wrappers
  import opened Maintenance
  import opened Runs

  /** No kind of call occurs twice in `p`. */
  predicate Distinct(p: seq<Step>)
  {
    forall i, j :: 0 <= i < j < |p| ==> p[i] != p[j]
  }

  /** No call of `a` occurs in `b`. */
  predicate Disjoint(a: seq<Step>, b: seq<Step>)
  {
    forall s :: s in a ==> s !in b
  }

  /** Two plans that repeat no call and share none repeat none when joined. */
  lemma DistinctAppend(a: seq<Step>, b: seq<Step>)
    requires Distinct(a) && Distinct(b) && Disjoint(a, b)
    ensures Distinct(a + b)
  {
    forall i, j | 0 <= i < j < |a + b|
      ensures (a + b)[i] != (a + b)[j]
    {
      if j < |a| {
        assert (a + b)[i] == a[i] && (a + b)[j] == a[j];
      } else if i >= |a| {
        assert (a + b)[i] == b[i - |a|] && (a + b)[j] == b[j - |a|];
      } else {
        assert (a + b)[i] == a[i] && a[i] in a;
        assert (a + b)[j] == b[j - |a|] && b[j - |a|] in b;
      }
    }
  }

  /** The sentinel-absent branch repeats no call. */
  lemma IdlePlanDistinct(cfg: Config, w: World)
    ensures Distinct(IdlePlan(cfg, w))
  {
    var f := if Holds(cfg, w) then FinishPlan(cfg, w) else [];
    assert Distinct(FinishPlan(cfg, w));
    DistinctAppend(TaintOffPlan(cfg), [TestLock]);
    DistinctAppend(TaintOffPlan(cfg) + [TestLock], f);
  }

  /** The sentinel-present branch repeats no call. */
  lemma MaintainPlanDistinct(cfg: Config, w: World, reply: AcquireReply)
    ensures Distinct(MaintainPlan(cfg, w, reply))
  {
    assert Distinct(StampPlan(cfg, w));
    assert Distinct(LockPlan(cfg, reply));
    DistinctAppend(StampPlan(cfg, w), LockPlan(cfg, reply));
  }

  /** The branch after the node fetch and the sentinel read makes neither call again. */
  lemma BranchAvoidsHead(cfg: Config, w: World, t: TickInput)
    ensures var b := if t.sentinel then MaintainPlan(cfg, w, t.env.reply) else IdlePlan(cfg, w);
      GetNode !in b && TestSentinel !in b
  {
    if t.sentinel {
      var a, l := StampPlan(cfg, w), LockPlan(cfg, t.env.reply);
      assert GetNode !in a && TestSentinel !in a;
      assert GetNode !in l && TestSentinel !in l;
      assert MaintainPlan(cfg, w, t.env.reply) == a + l;
    } else {
      var f := if Holds(cfg, w) then FinishPlan(cfg, w) else [];
      assert GetNode !in f && TestSentinel !in f;
      assert GetNode !in TaintOffPlan(cfg) && TestSentinel !in TaintOffPlan(cfg);
      assert IdlePlan(cfg, w) == TaintOffPlan(cfg) + [TestLock] + f;
    }
  }

  /** One tick repeats no call. */
  lemma TickPlanDistinct(cfg: Config, w: World, t: TickInput)
    ensures Distinct(TickPlan(cfg, w, t))
  {
    if t.inWindow {
      var b := if t.sentinel then MaintainPlan(cfg, w, t.env.reply) else IdlePlan(cfg, w);
      if t.sentinel { MaintainPlanDistinct(cfg, w, t.env.reply); } else { IdlePlanDistinct(cfg, w); }
      BranchAvoidsHead(cfg, w, t);
      var h := [GetNode, TestSentinel];
      assert Disjoint(h, b) by {
        forall s | s in h ensures s !in b {
          assert s == GetNode || s == TestSentinel;
        }
      }
      assert Distinct(h) by {
        assert h[0] != h[1];
      }
      DistinctAppend(h, b);
      assert TickPlan(cfg, w, t) == h + b;
    }
  }

  /** Neither startup phase repeats a call; each has its own environment. */
  lemma StartupPlansDistinct(cfg: Config, w: World, s: StartupInput)
    ensures Distinct([TestLock] + RecoveryPlan(cfg, w, s.sentinelAtRecovery))
    ensures Distinct(TaintResetPlan(cfg, s.sentinelAtTaint))
  {
  }

  /**
   * In a plan that repeats no call, a fault at any one of its calls ends the run exactly
   * there, after every earlier call has taken effect.
   */
  lemma DistinctHaltsAt(cfg: Config, env: Env, w: World, plan: seq<Step>, i: nat)
    requires Distinct(plan) && i < |plan| && Fallible(plan[i]) && env.fault == Some(plan[i])
    ensures Run(cfg, env, w, plan) == Exec(Run(cfg, env, w, plan[..i]).world, Halted(plan[i]))
  {
    assert plan[i] !in plan[..i] by {
      forall k | 0 <= k < i ensures plan[..i][k] != plan[i] {
        assert plan[..i][k] == plan[k];
      }
    }
    RunHaltsAt(cfg, env, w, plan, i);
  }

  /**
   * Any call of a tick can be the one that fails: the tick then ends at that call, with
   * every call before it in effect.
   */
  lemma TickFaultAnywhere(cfg: Config, w: World, t: TickInput, i: nat)
    requires i < |TickPlan(cfg, w, t)|
    requires Fallible(TickPlan(cfg, w, t)[i]) && t.env.fault == Some(TickPlan(cfg, w, t)[i])
    ensures var p := TickPlan(cfg, w, t);
      TickSpec(cfg, w, t) == Exec(Run(cfg, t.env, w, p[..i]).world, Halted(p[i]))
  {
    TickPlanDistinct(cfg, w, t);
    DistinctHaltsAt(cfg, t.env, w, TickPlan(cfg, w, t), i);
  }
}
