/**
 * General facts about `Maintenance.Run`: how a plan composes, where a run halts, and
 * which parts of the world a plan can move.
 */
module Runs {
  import opened Wrappers
  import opened Maintenance

  /** Running `a + b` is running `a`, then, if the process is still alive, `b`. */
  lemma {:induction false} RunAppend(cfg: Config, env: Env, w: World, a: seq<Step>, b: seq<Step>)
    ensures Run(cfg, env, w, a + b) ==
            (var r := Run(cfg, env, w, a); if r.outcome.Halted? then r else Run(cfg, env, r.world, b))
    decreases |a|
  {
    if a == [] {
      assert a + b == b;
    } else {
      assert (a + b)[0] == a[0];
      assert (a + b)[1..] == a[1..] + b;
      if !FailsAt(env, a[0]) {
        RunAppend(cfg, env, Effect(cfg, env, w, a[0]), a[1..], b);
      }
    }
  }

  /** Running `[s] + rest` is performing `s`, then, if the process is still alive, `rest`. */
  lemma RunCons(cfg: Config, env: Env, w: World, s: Step, rest: seq<Step>)
    ensures Run(cfg, env, w, [s] + rest) ==
            (var r := Perform(cfg, env, w, s); if r.outcome.Halted? then r else Run(cfg, env, r.world, rest))
  {
    assert ([s] + rest)[1..] == rest;
  }

  /** One more step of a run that may already have halted: a halted run stays as it is. */
  function Then(cfg: Config, env: Env, e: Exec, s: Step): Exec
  {
    if e.outcome.Halted? then e else Perform(cfg, env, e.world, s)
  }

  /** The rest of a run: `plan` performed after `e`, unless `e` has already halted. */
  function After(cfg: Config, env: Env, e: Exec, plan: seq<Step>): Exec
  {
    if e.outcome.Halted? then e else Run(cfg, env, e.world, plan)
  }

  lemma AfterStep(cfg: Config, env: Env, e: Exec, plan: seq<Step>)
    requires plan != []
    ensures After(cfg, env, e, plan) == After(cfg, env, Then(cfg, env, e, plan[0]), plan[1..])
  {
  }

  /** The process halts exactly when the failing step is one the plan performs, and at that step. */
  lemma {:induction false} RunOutcome(cfg: Config, env: Env, w: World, plan: seq<Step>)
    ensures Run(cfg, env, w, plan).outcome ==
            (if env.fault.Some? && Fallible(env.fault.value) && env.fault.value in plan
             then Halted(env.fault.value) else Continued)
    decreases |plan|
  {
    if plan != [] {
      assert forall s :: s in plan <==> s == plan[0] || s in plan[1..];
      if !FailsAt(env, plan[0]) {
        RunOutcome(cfg, env, Effect(cfg, env, w, plan[0]), plan[1..]);
      }
    }
  }

  /**
   * When the failing step first occurs at index `i`, every step before it has taken
   * effect and none from it on.
   */
  lemma {:induction false} RunHaltsAt(cfg: Config, env: Env, w: World, plan: seq<Step>, i: nat)
    requires i < |plan| && FailsAt(env, plan[i]) && plan[i] !in plan[..i]
    ensures Run(cfg, env, w, plan) == Exec(Run(cfg, env, w, plan[..i]).world, Halted(plan[i]))
    decreases i
  {
    if i > 0 {
      assert plan[0] in plan[..i];
      assert plan[1..][i - 1] == plan[i];
      assert plan[1..][..i - 1] == plan[..i][1..];
      assert plan[i] !in plan[1..][..i - 1];
      RunHaltsAt(cfg, env, Effect(cfg, env, w, plan[0]), plan[1..], i - 1);
    }
  }

  /**
   * The drain count and the completed counter never go down, and each step of the plan
   * raises them by at most one.
   */
  lemma {:induction false} RunCountBounds(cfg: Config, env: Env, w: World, plan: seq<Step>)
    ensures var r := Run(cfg, env, w, plan).world;
      && w.drained <= r.drained <= w.drained + multiset(plan)[DrainNode]
      && w.completed <= r.completed <= w.completed + multiset(plan)[IncCompleted]
    decreases |plan|
  {
    if plan != [] {
      assert plan == [plan[0]] + plan[1..];
      assert multiset(plan) == multiset{plan[0]} + multiset(plan[1..]);
      if !FailsAt(env, plan[0]) {
        RunCountBounds(cfg, env, Effect(cfg, env, w, plan[0]), plan[1..]);
      }
    }
  }

  /**
   * The recorded schedulability and the lock slot stay put unless the plan writes them;
   * an acquire the lock refuses writes nothing.
   */
  lemma {:induction false} RunKeepsLock(cfg: Config, env: Env, w: World, plan: seq<Step>)
    ensures var r := Run(cfg, env, w, plan).world;
      && (RecordMeta !in plan ==> r.nodeMeta == w.nodeMeta)
      && ((AcquireLock !in plan || env.reply.Refused?) && ReleaseLock !in plan ==> r.lock == w.lock)
    decreases |plan|
  {
    if plan != [] {
      assert forall s :: s in plan[1..] ==> s in plan;
      if !FailsAt(env, plan[0]) {
        RunKeepsLock(cfg, env, Effect(cfg, env, w, plan[0]), plan[1..]);
      }
    }
  }

  /**
   * The node's schedulability, its annotations, the drain count, the marker and both
   * metrics stay put unless the plan writes them.
   */
  lemma {:induction false} RunKeepsNode(cfg: Config, env: Env, w: World, plan: seq<Step>)
    ensures var r := Run(cfg, env, w, plan).world;
      && (CordonNode !in plan && UncordonNode !in plan ==> r.unschedulable == w.unschedulable)
      && (PatchAnnotations !in plan && RemoveAnnotation !in plan ==> r.annotations == w.annotations)
      && (DrainNode !in plan ==> r.drained == w.drained)
      && (TouchMarker !in plan && RemoveMarker !in plan ==> r.marker == w.marker)
      && (IncInProgress !in plan && DecInProgress !in plan ==> r.inProgress == w.inProgress)
      && (IncCompleted !in plan ==> r.completed == w.completed)
    decreases |plan|
  {
    if plan != [] {
      assert forall s :: s in plan[1..] ==> s in plan;
      if !FailsAt(env, plan[0]) {
        RunKeepsNode(cfg, env, Effect(cfg, env, w, plan[0]), plan[1..]);
      }
    }
  }
}
