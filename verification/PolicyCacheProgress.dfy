// Progress of PolicyCache.get: waits go only from the plan level to the shared
// level, so no run deadlocks and every get is done within a bounded number of
// steps of the calls it depends on.
module PolicyCacheProgress {
  import opened Outcomes
  import opened PolicyCache
  import opened Singleflight
  import opened SingleflightRuns

  const FULL_LOAD := 10
  const FULL_GET := 28

  // Steps the shared cache still needs to finish call c.
  ghost function SharedWork(s: Sys, c: nat): nat {
    if InShared(s, c) then Remaining(s.shared.value, c) else 0
  }

  // Steps the load that call t runs, or will run, still needs before its
  // outcome reaches the plan cache.
  ghost function LoadWork(s: Sys, t: nat): nat {
    if t !in s.plan.calls || t !in s.gets || !s.gets[t].AtPlan? then 0
    else if s.plan.calls[t].Entered? then FULL_LOAD
    else if !s.plan.calls[t].Loading? then 0
    else match s.gets[t].load
      case Idle => FULL_LOAD
      case Sharing(_) => SharedWork(s, 2 * t + 1) + 1
      case Compiling(_, _, _) => 0
  }

  // Steps get g still needs at most, counting only those that are taken for it.
  ghost function Work(s: Sys, g: nat): nat
    requires g in s.gets
  {
    match s.gets[g]
    case AtShared(_, _) => SharedWork(s, 2 * g) + 10 + FULL_LOAD
    case AtPlan(_, _, _, _, _) =>
      (if g in s.plan.calls then Remaining(s.plan, g) else 0) + LoadWork(s, Helper(s.plan, g)) + 1
    case Done(_, _, _, _, _) => 0
  }

  // The step is taken for get g: by its call in the shared cache or the leader
  // that call waits for; by its call in the plan cache or the leader that call
  // waits for; or inside that leader's load.
  ghost predicate TakenFor(s: Sys, step: Step, g: nat)
    requires CanStep(s, step)
  {
    g in s.gets && !s.gets[g].Done? &&
    match step
    case SharedReturn(h) => h == g
    case Finish(h) => h == g
    case PlanAct(l) => s.gets[g].AtPlan? && ActsFor(s.plan, l, g)
    case Fetch(h, _) => s.gets[g].AtPlan? && h == Helper(s.plan, g)
    case InnerReturn(h) => s.gets[g].AtPlan? && h == Helper(s.plan, g)
    case Compile(h, _) => s.gets[g].AtPlan? && h == Helper(s.plan, g)
    case SharedAct(l) =>
      if s.gets[g].AtShared? then ActsFor(s.shared.value, l, 2 * g)
      else AtInner(s, Helper(s.plan, g)) && ActsFor(s.shared.value, l, 2 * Helper(s.plan, g) + 1)
    case Begin(_, _, _) => false
    case Pass(_) => false
  }

  // The part of the invariant that progress in either cache rests on.
  ghost predicate BothInv(s: Sys) {
    Inv(s.plan) && (s.shared.Some? ==> Inv(s.shared.value))
  }

  lemma LoadWorkBound(s: Sys, t: nat)
    requires BothInv(s)
    ensures LoadWork(s, t) <= FULL_LOAD
  {
    if InShared(s, 2 * t + 1) {
      RemainingBound(s.shared.value, 2 * t + 1);
    }
  }

  lemma WorkBound(s: Sys, g: nat)
    requires SysInv(s) && g in s.gets
    ensures Work(s, g) <= FULL_GET
    ensures Work(s, g) == 0 <==> s.gets[g].Done?
  {
    assert GetOk(s, g, s.gets[g]);
    LoadWorkBound(s, Helper(s.plan, g));
    if InShared(s, 2 * g) {
      RemainingBound(s.shared.value, 2 * g);
    }
    if g in s.plan.calls {
      RemainingBound(s.plan, g);
    }
  }

  // ------------------------------------------------- no step sets a get back

  // A shared call that exists only comes closer to its end.
  lemma SharedApproaches(s: Sys, step: Step, c: nat)
    requires BothInv(s) && CanStep(s, step) && InShared(s, c)
    ensures InShared(Next(s, step), c)
    ensures SharedWork(Next(s, step), c) +
            (if step.SharedAct? && ActsFor(s.shared.value, step.shared, c) then 1 else 0) <= SharedWork(s, c)
  {
    if SharedMove(s, step).Some? {
      StepApproaches(s.shared.value, SharedMove(s, step).value, c);
    }
  }

  lemma PlanApproaches(s: Sys, step: Step, g: nat)
    requires BothInv(s) && CanStep(s, step) && g in s.plan.calls
    ensures g in Next(s, step).plan.calls
    ensures Remaining(Next(s, step).plan, g) +
            (if PlanMove(s, step).Some? && ActsFor(s.plan, PlanMove(s, step).value, g) then 1 else 0)
            <= Remaining(s.plan, g)
  {
    if PlanMove(s, step).Some? {
      StepApproaches(s.plan, PlanMove(s, step).value, g);
    }
  }

  lemma SharedPhase(s: Sys, step: Step, g: nat)
    requires SysInv(s) && CanStep(s, step) && g in s.gets && s.gets[g].AtShared? && step != SharedReturn(g)
    ensures g in Next(s, step).gets
    ensures Work(Next(s, step), g) + (if TakenFor(s, step, g) then 1 else 0) <= Work(s, g)
  {
    assert GetOk(s, g, s.gets[g]);
    assert NextGets(s, step)[g] == s.gets[g];
    if s.shared.Some? {
      SharedApproaches(s, step, 2 * g);
    }
  }

  lemma SharedPhaseEnds(s: Sys, g: nat)
    requires SysInv(s) && CanStep(s, SharedReturn(g))
    ensures g in Next(s, SharedReturn(g)).gets
    ensures Work(Next(s, SharedReturn(g)), g) < Work(s, g)
  {
    var t := Next(s, SharedReturn(g));
    NextKeepsInv(s, SharedReturn(g));
    if t.gets[g].AtPlan? {
      assert t.plan.calls[g].Entered?;
      LoadWorkBound(t, g);
    }
  }

  // Call t's load is inside its own getShared.
  ghost predicate AtInner(s: Sys, t: nat) {
    InLoad(s, t) && s.gets[t].load.Sharing?
  }

  // The steps of call t's load that do not reach the plan cache.
  ghost predicate AdvancesLoad(s: Sys, step: Step, t: nat)
    requires CanStep(s, step)
  {
    match step
    case Fetch(h, _) => h == t
    case InnerReturn(h) => h == t
    case SharedAct(l) => AtInner(s, t) && ActsFor(s.shared.value, l, 2 * t + 1)
    case Begin(_, _, _) => false
    case SharedReturn(_) => false
    case PlanAct(_) => false
    case Compile(_, _) => false
    case Finish(_) => false
    case Pass(_) => false
  }

  lemma FetchAdvances(s: Sys, t: nat, b: Fetched)
    requires GetsOk(s) && CanStep(s, Fetch(t, Ok(b)))
    ensures LoadWork(Next(s, Fetch(t, Ok(b))), t) < LoadWork(s, t)
  {
    assert GetOk(s, t, s.gets[t]);
  }

  lemma InnerReturnAdvances(s: Sys, t: nat)
    requires CanStep(s, InnerReturn(t)) && PlanMove(s, InnerReturn(t)).None?
    ensures LoadWork(Next(s, InnerReturn(t)), t) < LoadWork(s, t)
  {
  }

  lemma LoadWorkFrame(s: Sys, r: Sys, t: nat, less: nat)
    requires t in s.plan.calls && t in r.plan.calls && s.plan.calls[t] == r.plan.calls[t]
    requires t in s.gets && t in r.gets && s.gets[t] == r.gets[t]
    requires SharedWork(r, 2 * t + 1) + less <= SharedWork(s, 2 * t + 1)
    ensures LoadWork(r, t) + (if AtInner(s, t) then less else 0) <= LoadWork(s, t)
  {
  }

  // The shared call of t's load, after a step that does not start it.
  lemma InnerApproaches(s: Sys, step: Step, t: nat)
    requires BothInv(s) && CanStep(s, step)
    requires step.Begin? || step.Fetch? ==> step.get != t
    ensures SharedWork(Next(s, step), 2 * t + 1) +
            (if step.SharedAct? && ActsFor(s.shared.value, step.shared, 2 * t + 1) then 1 else 0)
            <= SharedWork(s, 2 * t + 1)
  {
    OthersShared(s, step, t);
    if InShared(s, 2 * t + 1) {
      SharedApproaches(s, step, 2 * t + 1);
    }
  }

  lemma OtherLoadApproaches(s: Sys, step: Step, t: nat)
    requires BothInv(s) && CanStep(s, step) && PlanMove(s, step).None? && t in s.plan.calls && t in s.gets
    requires step.Begin? || step.Fetch? || step.InnerReturn? || step.Finish? || step.SharedReturn? ==> step.get != t
    ensures LoadWork(Next(s, step), t) + (if AdvancesLoad(s, step, t) then 1 else 0) <= LoadWork(s, t)
  {
    InnerApproaches(s, step, t);
    var less := if step.SharedAct? && ActsFor(s.shared.value, step.shared, 2 * t + 1) then 1 else 0;
    LoadWorkFrame(s, Next(s, step), t, less);
  }

  // A step that leaves the plan cache alone.
  lemma LoadApproaches(s: Sys, step: Step, t: nat)
    requires BothInv(s) && GetsOk(s) && CanStep(s, step) && PlanMove(s, step).None? && t in s.plan.calls
    ensures LoadWork(Next(s, step), t) + (if AdvancesLoad(s, step, t) then 1 else 0) <= LoadWork(s, t)
  {
    if step.Fetch? && step.get == t && step.fetched.Ok? {
      FetchAdvances(s, t, step.fetched.value);
    } else if step == InnerReturn(t) {
      InnerReturnAdvances(s, t);
    } else if step == Finish(t) || step == SharedReturn(t) {
      assert LoadWork(Next(s, step), t) == 0;
    } else {
      OtherLoadApproaches(s, step, t);
    }
  }

  // A plan step of another call.
  lemma LoadKept(s: Sys, step: Step, t: nat)
    requires BothInv(s) && CanStep(s, step) && PlanMove(s, step).Some? && t in s.plan.calls && t in s.gets
    requires PlanMove(s, step).value.action.Tick? || PlanMove(s, step).value.call != t
    ensures LoadWork(Next(s, step), t) <= LoadWork(s, t)
  {
    MoveKeepsCalls(s.plan, PlanMove(s, step), t);
    InnerApproaches(s, step, t);
    LoadWorkFrame(s, Next(s, step), t, 0);
  }

  // A plan step of call h by any action but consulting: no load of h is left.
  lemma LoadEnds(s: Sys, step: Step, h: nat)
    requires CanStep(s, step) && PlanMove(s, step).Some? && !PlanMove(s, step).value.action.Tick?
    requires PlanMove(s, step).value.call == h && h in s.plan.calls && !s.plan.calls[h].Entered?
    ensures LoadWork(Next(s, step), h) == 0
  {
  }

  lemma WaiterHasNoLoad(s: Sys, g: nat)
    requires g in s.plan.calls && s.plan.calls[g].Waiting?
    ensures LoadWork(s, g) == 0
  {
  }

  // Whom g waits for after a step of its helper.
  lemma HelperAfter<V>(st: State<string, V, (), nat>, l: Label<string, V, (), nat>, g: nat)
    requires Inv(st) && Enabled(st, l) && !l.action.Tick? && g in st.calls && l.call == Helper(st, g)
    requires !st.calls[g].Entered?
    ensures g in Apply(st, l).calls && l.call in st.calls && !st.calls[l.call].Entered?
    ensures Helper(Apply(st, l), g) == l.call || (Helper(Apply(st, l), g) == g && Apply(st, l).calls[g].Waiting?)
  {
    if Blocked(st, g) {
      BlockedHasLeader(st, g);
    }
  }

  lemma HelperMoves(s: Sys, step: Step, g: nat)
    requires SysInv(s) && CanStep(s, step) && g in s.plan.calls && g in s.gets && s.gets[g].AtPlan?
    requires PlanMove(s, step).Some? && !PlanMove(s, step).value.action.Tick?
    requires PlanMove(s, step).value.call == Helper(s.plan, g)
    ensures LoadWork(Next(s, step), Helper(Next(s, step).plan, g)) <= LoadWork(s, Helper(s.plan, g))
  {
    var t := Next(s, step);
    if s.plan.calls[g].Entered? {
      NextKeepsInv(s, step);
      LoadWorkBound(t, Helper(t.plan, g));
    } else {
      HelperAfter(s.plan, PlanMove(s, step).value, g);
      LoadEnds(s, step, Helper(s.plan, g));
      if t.plan.calls[g].Waiting? {
        WaiterHasNoLoad(t, g);
      }
    }
  }

  // What the two parts of the work of a get at the plan level do in a step.
  lemma PlanParts(s: Sys, step: Step, g: nat)
    requires SysInv(s) && CanStep(s, step) && g in s.gets && s.gets[g].AtPlan? && g in s.plan.calls
    ensures g in Next(s, step).plan.calls
    ensures LoadWork(Next(s, step), Helper(Next(s, step).plan, g)) +
            (if AdvancesLoad(s, step, Helper(s.plan, g)) && PlanMove(s, step).None? then 1 else 0)
            <= LoadWork(s, Helper(s.plan, g))
  {
    var h, move := Helper(s.plan, g), PlanMove(s, step);
    if Blocked(s.plan, g) {
      BlockedHasLeader(s.plan, g);
    }
    PlanApproaches(s, step, g);
    if move.None? {
      LoadApproaches(s, step, h);
    } else if !move.value.action.Tick? && move.value.call == h {
      HelperMoves(s, step, g);
    } else {
      if !move.value.action.Tick? && move.value.call == g {
        BlockedStays(s.plan, move.value, g);
      }
      OtherStepKeeps(s.plan, move.value, g);
      LoadKept(s, step, h);
    }
  }

  // A blocked call cannot step.
  lemma BlockedStays<V>(st: State<string, V, (), nat>, l: Label<string, V, (), nat>, c: nat)
    requires Enabled(st, l) && !l.action.Tick? && l.call == c && c in st.calls
    ensures Helper(st, c) == c
  {
  }

  lemma StaysAtPlan(s: Sys, step: Step, g: nat)
    requires CanStep(s, step) && g in s.gets && s.gets[g].AtPlan? && step != Finish(g)
    ensures g in Next(s, step).gets && Next(s, step).gets[g].AtPlan?
  {
  }

  lemma PlanPhase(s: Sys, step: Step, g: nat)
    requires SysInv(s) && CanStep(s, step) && g in s.gets && s.gets[g].AtPlan? && step != Finish(g)
    ensures g in Next(s, step).gets && Next(s, step).gets[g].AtPlan?
    ensures Work(Next(s, step), g) + (if TakenFor(s, step, g) then 1 else 0) <= Work(s, g)
  {
    StaysAtPlan(s, step, g);
    HelperAtPlan(s, g);
    PlanApproaches(s, step, g);
    PlanParts(s, step, g);
    if TakenFor(s, step, g) {
      TakenMeans(s, step, g);
    }
  }

  // A step taken for a get at the plan level is a plan step of its helper, or
  // advances its helper's load.
  lemma TakenMeans(s: Sys, step: Step, g: nat)
    requires SysInv(s) && CanStep(s, step) && g in s.gets && s.gets[g].AtPlan? && step != Finish(g)
    requires TakenFor(s, step, g)
    ensures if PlanMove(s, step).Some? then ActsFor(s.plan, PlanMove(s, step).value, g)
            else AdvancesLoad(s, step, Helper(s.plan, g))
  {
    assert GetOk(s, g, s.gets[g]);
    if Blocked(s.plan, g) {
      BlockedHasLeader(s.plan, g);
    }
  }

  // No step of anybody sets a get back, and every step taken for it brings it closer.
  lemma GetApproaches(s: Sys, step: Step, g: nat)
    requires SysInv(s) && CanStep(s, step) && g in s.gets
    ensures g in Next(s, step).gets
    ensures Work(Next(s, step), g) + (if TakenFor(s, step, g) then 1 else 0) <= Work(s, g)
  {
    match s.gets[g] {
      case AtShared(_, _) =>
        if step == SharedReturn(g) {
          SharedPhaseEnds(s, g);
        } else {
          SharedPhase(s, step, g);
        }
      case AtPlan(_, _, _, _, _) =>
        if step == Finish(g) {
          assert Next(s, step).gets[g].Done?;
        } else {
          PlanPhase(s, step, g);
        }
      case Done(_, _, _, _, _) =>
        assert NextGets(s, step)[g] == s.gets[g];
    }
  }

  // ------------------------------------------------- no deadlock

  ghost predicate Helped(s: Sys, g: nat) {
    exists step :: CanStep(s, step) && TakenFor(s, step, g)
  }

  // An unfinished shared call always has somebody who can step for it.
  lemma SharedCanStep(s: Sys, c: nat, spare: nat) returns (step: Step)
    requires BothInv(s) && InShared(s, c) && !s.shared.value.calls[c].Returned? && spare !in s.shared.value.flights
    ensures step.SharedAct? && CanStep(s, step) && ActsFor(s.shared.value, step.shared, c)
  {
    var st := s.shared.value;
    HelperCanStep(st, c, NoShared(true), spare);
    var a: Action<string, Shared, (), nat> :| !a.Tick? && !a.Invoke? && Enabled(st, Label(Helper(st, c), a));
    var l := LoadedAction(st, Helper(st, c), a);
    step := SharedAct(l);
    assert Guard(s, step) && SharedMove(s, step) == Some(l) && PlanMove(s, step).None?;
  }

  // A successful load of the shared source is marked as loaded.
  lemma LoadedAction(st: SharedState, c: nat, a: Action<string, Shared, (), nat>)
    returns (l: Label<string, Shared, (), nat>)
    requires !a.Tick? && !a.Invoke? && Enabled(st, Label(c, a))
    ensures l.call == c && Enabled(st, l) && !l.action.Tick? && !l.action.Invoke?
    ensures l.action.LoadOk? ==> l.action.val.loaded
  {
    l := Label(c, if a.LoadOk? then LoadOk(NoShared(true)) else a);
  }

  lemma SharedPhaseHelped(s: Sys, g: nat, spare: nat)
    requires SysInv(s) && g in s.gets && s.gets[g].AtShared?
    requires s.shared.Some? ==> spare !in s.shared.value.flights
    ensures Helped(s, g)
  {
    assert GetOk(s, g, s.gets[g]);
    if SharedBack(s, 2 * g) {
      assert CanStep(s, SharedReturn(g)) && TakenFor(s, SharedReturn(g), g);
    } else {
      var step := SharedCanStep(s, 2 * g, spare);
      assert TakenFor(s, step, g);
    }
  }

  lemma CanReturn(s: Sys, t: nat)
    requires AtInner(s, t) && SharedBack(s, 2 * t + 1)
    ensures CanStep(s, InnerReturn(t))
  {
  }

  lemma CanFetch(s: Sys, t: nat, r: Result<Fetched, ()>)
    requires InLoad(s, t) && s.gets[t].load.Idle? && GetOk(s, t, s.gets[t])
    ensures CanStep(s, Fetch(t, r))
  {
  }

  lemma CanCompile(s: Sys, t: nat, r: Result<Compiled, ()>)
    requires InLoad(s, t) && s.gets[t].load.Compiling? && (r.Ok? ==> r.value.loaded)
    ensures CanStep(s, Compile(t, r))
  {
  }

  // A step inside the load of g's helper is taken for g.
  lemma TakenInLoad(s: Sys, g: nat, t: nat, step: Step)
    requires CanStep(s, step) && g in s.gets && s.gets[g].AtPlan? && t == Helper(s.plan, g)
    requires step.InnerReturn? || step.Fetch? || step.Compile? ||
             (step.SharedAct? && AtInner(s, t) && ActsFor(s.shared.value, step.shared, 2 * t + 1))
    requires !step.SharedAct? ==> step.get == t
    ensures Helped(s, g)
  {
    assert TakenFor(s, step, g);
  }

  lemma InnerHelped(s: Sys, g: nat, t: nat, spare: nat)
    requires BothInv(s) && g in s.gets && s.gets[g].AtPlan? && t == Helper(s.plan, g)
    requires AtInner(s, t) && GetOk(s, t, s.gets[t])
    requires s.shared.Some? ==> spare !in s.shared.value.flights
    ensures Helped(s, g)
  {
    if SharedBack(s, 2 * t + 1) {
      CanReturn(s, t);
      TakenInLoad(s, g, t, InnerReturn(t));
    } else {
      var step := SharedCanStep(s, 2 * t + 1, spare);
      TakenInLoad(s, g, t, step);
    }
  }

  lemma LoadHelped(s: Sys, g: nat, t: nat, spare: nat)
    requires BothInv(s) && g in s.gets && s.gets[g].AtPlan? && t == Helper(s.plan, g)
    requires t in s.gets && s.gets[t].AtPlan? && t in s.plan.calls && s.plan.calls[t].Loading?
    requires GetOk(s, t, s.gets[t])
    requires s.shared.Some? ==> spare !in s.shared.value.flights
    ensures Helped(s, g)
  {
    match s.gets[t].load {
      case Idle =>
        CanFetch(s, t, Err(()));
        TakenInLoad(s, g, t, Fetch(t, Err(())));
      case Sharing(_) =>
        InnerHelped(s, g, t, spare);
      case Compiling(_, _, _) =>
        CanCompile(s, t, Err(()));
        TakenInLoad(s, g, t, Compile(t, Err(())));
    }
  }

  lemma FinishHelped(s: Sys, g: nat)
    requires g in s.gets && s.gets[g].AtPlan? && g in s.plan.calls && s.plan.calls[g].Returned?
    ensures Helped(s, g)
  {
    var step := Finish(g);
    assert CanStep(s, step) && TakenFor(s, step, g);
  }

  // A plan step of g's helper outside a load.
  lemma ActHelped(s: Sys, g: nat, a: Action<string, Compiled, (), nat>)
    requires g in s.gets && s.gets[g].AtPlan? && g in s.plan.calls && !s.plan.calls[g].Returned?
    requires !a.Tick? && !a.Invoke? && Enabled(s.plan, Label(Helper(s.plan, g), a))
    requires !s.plan.calls[Helper(s.plan, g)].Loading?
    ensures Helped(s, g)
  {
    var step := PlanAct(Label(Helper(s.plan, g), a));
    assert CanStep(s, step);
    assert TakenFor(s, step, g);
  }

  // The helper of an unfinished plan call is at the plan level itself.
  lemma HelperAtPlan(s: Sys, g: nat)
    requires BothInv(s) && GetsOk(s) && g in s.gets && s.gets[g].AtPlan?
    ensures g in s.plan.calls
    ensures !s.plan.calls[g].Returned? ==>
              var t := Helper(s.plan, g);
              t in s.plan.calls && t in s.gets && s.gets[t].AtPlan? && GetOk(s, t, s.gets[t])
  {
    assert GetOk(s, g, s.gets[g]);
    if Blocked(s.plan, g) {
      BlockedHasLeader(s.plan, g);
      assert GetOk(s, Helper(s.plan, g), s.gets[Helper(s.plan, g)]);
    }
  }

  lemma PlanPhaseHelped(s: Sys, g: nat, spareShared: nat, sparePlan: nat)
    requires BothInv(s) && GetsOk(s) && g in s.gets && s.gets[g].AtPlan?
    requires s.shared.Some? ==> spareShared !in s.shared.value.flights
    requires sparePlan !in s.plan.flights
    ensures Helped(s, g)
  {
    HelperAtPlan(s, g);
    if s.plan.calls[g].Returned? {
      FinishHelped(s, g);
    } else {
      var t := Helper(s.plan, g);
      if s.plan.calls[t].Loading? {
        LoadHelped(s, g, t, spareShared);
      } else {
        HelperCanStep(s.plan, g, NoPolicy(), sparePlan);
        var a: Action<string, Compiled, (), nat> :| !a.Tick? && !a.Invoke? && Enabled(s.plan, Label(t, a));
        ActHelped(s, g, a);
      }
    }
  }

  // No deadlock, in any reachable state: for every unfinished get somebody can
  // take a step.
  lemma NoDeadlock(run: Run, ttl: int, n: nat, g: nat, spareShared: nat, sparePlan: nat)
    requires ValidRun(run, ttl) && n < |run.states|
    requires g in run.states[n].gets && !run.states[n].gets[g].Done?
    requires run.states[n].shared.Some? ==> spareShared !in run.states[n].shared.value.flights
    requires sparePlan !in run.states[n].plan.flights
    ensures Helped(run.states[n], g)
  {
    ReachableOk(run, ttl, n);
    if run.states[n].gets[g].AtShared? {
      SharedPhaseHelped(run.states[n], g, spareShared);
    } else {
      PlanPhaseHelped(run.states[n], g, spareShared, sparePlan);
    }
  }

  // ------------------------------------------------- bounded completion

  // The number of steps taken for get g between states i and j.
  ghost function StepsFor(run: Run, ttl: int, i: nat, j: nat, g: nat): nat
    requires ValidRun(run, ttl) && i <= j < |run.states|
  {
    if i == j then 0
    else
      assert TakesStep(run, j - 1);
      StepsFor(run, ttl, i, j - 1, g) + if TakenFor(run.states[j - 1], run.steps[j - 1], g) then 1 else 0
  }

  // Whatever everybody else does, a get is done once 28 steps have been taken
  // for it.
  lemma {:induction false} GetFinishes(run: Run, ttl: int, i: nat, j: nat, g: nat)
    requires ValidRun(run, ttl) && i <= j < |run.states| && g in run.states[i].gets
    ensures g in run.states[j].gets
    ensures Work(run.states[j], g) + StepsFor(run, ttl, i, j, g) <= Work(run.states[i], g) <= FULL_GET
    ensures StepsFor(run, ttl, i, j, g) <= FULL_GET
    ensures StepsFor(run, ttl, i, j, g) == FULL_GET ==> run.states[j].gets[g].Done?
  {
    ReachableOk(run, ttl, i);
    WorkBound(run.states[i], g);
    if i < j {
      GetFinishes(run, ttl, i, j - 1, g);
      ReachableOk(run, ttl, j - 1);
      assert TakesStep(run, j - 1);
      GetApproaches(run.states[j - 1], run.steps[j - 1], g);
      ReachableOk(run, ttl, j);
      WorkBound(run.states[j], g);
    }
  }
}
