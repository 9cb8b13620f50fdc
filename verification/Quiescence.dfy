/** Where no debounced job can chain back to itself the runner comes to rest: a weight that every internal step lowers. */
module Quiescence {
  import opened Prelude
  import opened JobConfig
  import opened RunnerState
  import opened Protocol
  import opened FixedConfig
  import opened Schedules
  import opened ChainTree
  import opened Restarts
  import opened KnownJobs

  const CALL := 32 // a run call about to start
  const ITEM := CALL + 3 // a name a chain loop has yet to call
  const TRIGGER := 24 // a pending trigger
  const TIMER := 12 // an armed timer

  /** What the chains started by a run of the job at depth d can weigh, the restarts they lead to included. */
  ghost function Cost(c: Config, name: string, d: nat): nat
    requires NoLoops(c)
    decreases |Ahead(c, name, d)|, MAX_CHAIN_DEPTH - d, 1, 0
  {
    match Lookup(c, name)
    case None => 0
    case Some(job) =>
      if d >= MAX_CHAIN_DEPTH then 0
      else Max(TargetsFrom(c, name, d, job.onSuccess), TargetsFrom(c, name, d, job.onFailure))
  }

  ghost function TargetsFrom(c: Config, name: string, d: nat, names: seq<string>): nat
    requires NoLoops(c) && d < MAX_CHAIN_DEPTH && forall n :: n in names ==> Diagram.Linked(c, name, n)
    decreases |Ahead(c, name, d)|, MAX_CHAIN_DEPTH - d, 0, |names|
  {
    if names == [] then 0
    else
      LessAhead(c, name, d, names[0]);
      ITEM + CallCost(c, names[0], d + 1) + TargetsFrom(c, name, d, names[1..])
  }

  /** A call of a debounced job may be requeued, so it weighs as much as one at depth 0. */
  ghost function CallCost(c: Config, name: string, d: nat): nat
    requires NoLoops(c)
    decreases |Ahead(c, name, DepthAt(c, name, d))|, MAX_CHAIN_DEPTH - DepthAt(c, name, d), 2, 0
  {
    Cost(c, name, DepthAt(c, name, d))
  }

  ghost function ListCost(c: Config, names: seq<string>, d: nat): nat
    requires NoLoops(c)
  {
    if names == [] then 0 else ITEM + CallCost(c, names[0], d) + ListCost(c, names[1..], d)
  }

  lemma {:induction false} TargetsAreList(c: Config, name: string, d: nat, names: seq<string>)
    requires NoLoops(c) && d < MAX_CHAIN_DEPTH && forall n :: n in names ==> Diagram.Linked(c, name, n)
    ensures TargetsFrom(c, name, d, names) == ListCost(c, names, d + 1)
    decreases |names|
  {
    if names != [] {
      TargetsAreList(c, name, d, names[1..]);
    }
  }

  /** The deeper a call, the less its chains can weigh. */
  lemma {:induction false} DeeperIsLighter(c: Config, name: string, d: nat)
    requires NoLoops(c)
    ensures Cost(c, name, d + 1) <= Cost(c, name, d)
    decreases |Ahead(c, name, d)|, MAX_CHAIN_DEPTH - d, 1, 0
  {
    if d + 1 < MAX_CHAIN_DEPTH && Lookup(c, name).Some? {
      var job := Lookup(c, name).value;
      DeeperListIsLighter(c, name, d, job.onSuccess);
      DeeperListIsLighter(c, name, d, job.onFailure);
    }
  }

  lemma {:induction false} DeeperListIsLighter(c: Config, name: string, d: nat, names: seq<string>)
    requires NoLoops(c) && d + 1 < MAX_CHAIN_DEPTH && forall n :: n in names ==> Diagram.Linked(c, name, n)
    ensures TargetsFrom(c, name, d + 1, names) <= TargetsFrom(c, name, d, names)
    decreases |Ahead(c, name, d)|, MAX_CHAIN_DEPTH - d, 0, |names|
  {
    if names != [] {
      LessAhead(c, name, d, names[0]);
      if !IsDebounced(c, names[0]) {
        DeeperIsLighter(c, names[0], d + 1);
      }
      DeeperListIsLighter(c, name, d, names[1..]);
    }
  }

  lemma {:induction false} DepthZeroIsHeaviest(c: Config, name: string, d: nat)
    requires NoLoops(c)
    ensures Cost(c, name, d) <= Cost(c, name, 0)
    decreases d
  {
    if d > 0 {
      DeeperIsLighter(c, name, d - 1);
      DepthZeroIsHeaviest(c, name, d - 1);
    }
  }

  /** A run's cost covers the list it chains to, whichever way it ends. */
  lemma {:induction false} TargetsCost(c: Config, job: Job, d: nat, outcome: Outcome)
    requires NoLoops(c) && Known(c, job) && d < MAX_CHAIN_DEPTH
    ensures ListCost(c, ChainTargets(job, outcome), d + 1) <= CallCost(c, job.name, d)
  {
    assert forall n :: n in job.onSuccess || n in job.onFailure ==> Diagram.Linked(c, job.name, n);
    TargetsAreList(c, job.name, d, job.onSuccess);
    TargetsAreList(c, job.name, d, job.onFailure);
    DepthZeroIsHeaviest(c, job.name, d);
  }

  function Stage(pc: Pc): nat {
    match pc
    case CheckDisabled => CALL
    case CheckDrain => 31
    case Acquire => 30
    case Requeue => TRIGGER + 1
    case WriteMeta => 29
    case SetCancel => 28
    case Command => 27
    case ReadTimedOut => 26
    case ReadContext => 25
    case ClearCancel => 24
    case Release => 23
    case DrainLoad => 22
    case DrainLock => 21
    case DrainLookup(_, _, _) => CALL + 3
    case Chain => 2
    case Returned => 0
  }

  ghost function FrameWeight(c: Config, f: Frame): nat
    requires NoLoops(c)
  {
    match f
    case RunCall(job, depth, _, _, pc, _, _) =>
      if pc.Returned? then 0
      else if pc.Requeue? then Stage(pc) + Cost(c, job.name, 0)
      else Stage(pc) + CallCost(c, job.name, depth) + if pc.DrainLookup? then Cost(c, pc.name, 0) else 0
    case ChainLoop(_, depth, names, _, next, child) =>
      if next >= |names| then 1
      else if child.None? then 1 + ListCost(c, names[next..], depth + 1)
      else 2 + ListCost(c, names[next + 1..], depth + 1)
    case TriggerCall(job, pc) =>
      (match pc
       case TriggerDisabled => TRIGGER + TIMER + 3 + Cost(c, job.name, 0)
       case TriggerDrain => TRIGGER + TIMER + 2 + Cost(c, job.name, 0)
       case TriggerLock => TRIGGER + TIMER + 1 + Cost(c, job.name, 0)
       case TriggerDone(_) => 0)
    case ForceCall(job, pc) =>
      (match pc
       case ForceDrain => CALL + 2 + Cost(c, job.name, 0)
       case ForceLock => CALL + 1 + Cost(c, job.name, 0)
       case ForceDone => 0)
    case CancelCall(_, pc) => if pc.CancelRead? then 2 else if pc.CancelSignal? then 1 else 0
    case FireCall(name, _, _, done) => if done then 0 else CALL + 1 + Cost(c, name, 0)
  }

  ghost function AddedWeight(c: Config, f: Option<Frame>): nat
    requires NoLoops(c)
  {
    if f.Some? then FrameWeight(c, f.value) else 0
  }

  ghost function FramesWeight(c: Config, fs: seq<Frame>): nat
    requires NoLoops(c)
  {
    if fs == [] then 0 else FramesWeight(c, fs[..|fs| - 1]) + FrameWeight(c, fs[|fs| - 1])
  }

  function TimerWeight(t: Timer): nat {
    match t.status
    case Armed => TIMER
    case Fired => TIMER - 1
    case Over => 0
  }

  function WheelWeight(ts: seq<Timer>): nat {
    if ts == [] then 0 else WheelWeight(ts[..|ts| - 1]) + TimerWeight(ts[|ts| - 1])
  }

  ghost function Unit(c: Config, name: string): nat
    requires NoLoops(c)
  {
    TRIGGER + Cost(c, name, 0)
  }

  ghost function PendingWeight(c: Config, jobs: seq<Job>, sh: Shared): nat
    requires NoLoops(c)
  {
    if jobs == [] then 0
    else
      PendingWeight(c, jobs[..|jobs| - 1], sh)
      + Pending(sh, jobs[|jobs| - 1].name) * Unit(c, jobs[|jobs| - 1].name)
  }

  ghost function Weight(c: Config, s: State): nat
    requires NoLoops(c)
  {
    FramesWeight(c, s.frames) + WheelWeight(s.sh.wheel) + PendingWeight(c, c.jobs, s.sh)
  }

  // Sums after a change.

  lemma {:induction false} FramesWeightUpdate(c: Config, fs: seq<Frame>, i: nat, g: Frame)
    requires NoLoops(c) && i < |fs|
    ensures FramesWeight(c, fs[i := g]) == FramesWeight(c, fs) - FrameWeight(c, fs[i]) + FrameWeight(c, g)
    ensures FramesWeight(c, fs) >= FrameWeight(c, fs[i])
    decreases |fs|
  {
    var k := |fs| - 1;
    if i == k {
      assert fs[i := g][..k] == fs[..k];
    } else {
      assert fs[i := g][..k] == fs[..k][i := g];
      FramesWeightUpdate(c, fs[..k], i, g);
    }
  }

  lemma {:induction false} FramesWeightAppend(c: Config, fs: seq<Frame>, f: Option<Frame>)
    requires NoLoops(c)
    ensures FramesWeight(c, fs + AsSeq(f)) == FramesWeight(c, fs) + AddedWeight(c, f)
  {
    if f.Some? {
      assert (fs + AsSeq(f))[..|fs|] == fs;
    } else {
      assert fs + AsSeq(f) == fs;
    }
  }

  lemma {:induction false} WheelWeightUpdate(ts: seq<Timer>, i: nat, t: Timer)
    requires i < |ts|
    ensures WheelWeight(ts[i := t]) == WheelWeight(ts) - TimerWeight(ts[i]) + TimerWeight(t)
    ensures WheelWeight(ts) >= TimerWeight(ts[i])
    decreases |ts|
  {
    var k := |ts| - 1;
    if i == k {
      assert ts[i := t][..k] == ts[..k];
    } else {
      assert ts[i := t][..k] == ts[..k][i := t];
      WheelWeightUpdate(ts[..k], i, t);
    }
  }

  lemma StopLightens(sh: Shared, name: string)
    ensures WheelWeight(StopMapped(sh, name)) <= WheelWeight(sh.wheel)
  {
    if name in sh.timers && sh.timers[name] < |sh.wheel| && sh.wheel[sh.timers[name]].status == Armed {
      WheelWeightUpdate(sh.wheel, sh.timers[name], sh.wheel[sh.timers[name]].(status := Over));
    }
  }

  /** Changing one name's count changes the sum by that count's weight, the names being unique. */
  lemma {:induction false} PendingWeightUpdate(c: Config, jobs: seq<Job>, sh: Shared, sh': Shared, name: string)
    requires NoLoops(c) && UniqueNames(jobs)
    requires forall n :: n != name ==> Pending(sh', n) == Pending(sh, n)
    ensures PendingWeight(c, jobs, sh') + (if Declares(jobs, name) then Pending(sh, name) * Unit(c, name) else 0)
         == PendingWeight(c, jobs, sh) + (if Declares(jobs, name) then Pending(sh', name) * Unit(c, name) else 0)
    decreases |jobs|
  {
    if jobs != [] {
      var k := |jobs| - 1;
      PendingWeightUpdate(c, jobs[..k], sh, sh', name);
      if jobs[k].name == name {
        assert Declares(jobs, name) && !Declares(jobs[..k], name);
      } else {
        assert Declares(jobs, name) <==> Declares(jobs[..k], name) by {
          if Declares(jobs, name) {
            var m :| 0 <= m < |jobs| && jobs[m].name == name;
            assert jobs[..k][m].name == name;
          }
        }
      }
    }
  }

  lemma {:induction false} PendingWeightSame(c: Config, jobs: seq<Job>, sh: Shared, sh': Shared)
    requires NoLoops(c) && forall n :: Pending(sh', n) == Pending(sh, n)
    ensures PendingWeight(c, jobs, sh') == PendingWeight(c, jobs, sh)
    decreases |jobs|
  {
    if jobs != [] {
      PendingWeightSame(c, jobs[..|jobs| - 1], sh, sh');
    }
  }

  // Every internal step lowers the weight.

  /** Counts and timers stay, and what the goroutine and its child weigh is less than what it weighed. */
  ghost predicate Lighter(c: Config, s: State, f: Frame, e: Effect)
    requires NoLoops(c)
  {
    && e.sh.wheel == s.sh.wheel && (forall n :: Pending(e.sh, n) == Pending(s.sh, n))
    && FrameWeight(c, e.own) + AddedWeight(c, e.spawned) < FrameWeight(c, f)
  }

  lemma ExecuteLightens(c: Config, s: State, i: nat, f: Frame, ch: Choice)
    requires NoLoops(c) && f.RunCall?
    ensures InExecute(f.pc) ==>
      Lighter(c, s, f, StepExecute(s, i, f, ch))
  {
    hide Cost;
  }

  lemma RunLightens(c: Config, s: State, i: nat, f: Frame, ch: Choice)
    requires NoLoops(c) && s.config == c && f.RunCall? && Known(c, f.job)
    requires !f.pc.Returned? && !f.pc.Requeue? && !f.pc.DrainLock? && !f.pc.Chain?
    ensures Lighter(c, s, f, StepRun(s, i, f, ch))
  {
    hide StepExecute, Cost, AcquireDenial;
    ExecuteLightens(c, s, i, f, ch);
  }

  lemma ChainLightens(c: Config, s: State, i: nat, f: Frame)
    requires NoLoops(c) && s.config == c && f.RunCall? && f.pc.Chain? && Known(c, f.job)
    ensures Lighter(c, s, f, StepChain(s, i, f))
  {
    var names := ChainTargets(f.job, f.outcome);
    if f.depth < MAX_CHAIN_DEPTH {
      TargetsCost(c, f.job, f.depth, f.outcome);
    }
    assert names[0..] == names;
  }

  lemma LoopLightens(c: Config, s: State, i: nat, f: Frame)
    requires NoLoops(c) && f.ChainLoop? && f.config == c && f.next < |f.names|
    ensures Lighter(c, s, f, StepLoop(s, i, f))
  {
    var rest := f.names[f.next..];
    assert rest[0] == f.names[f.next] && rest[1..] == f.names[f.next + 1..];
    assert f.next + 1 == |f.names| ==> f.names[f.next + 1..] == [];
  }

  lemma OthersLighten(c: Config, s: State, i: nat, f: Frame, ch: Choice)
    requires NoLoops(c) && s.config == c
    requires match f
      case TriggerCall(_, pc) => pc.TriggerDisabled? || pc.TriggerDrain?
      case ForceCall(_, pc) => pc.ForceDrain?
      case CancelCall(_, pc) => !pc.CancelDone?
      case FireCall(_, _, _, done) => !done
      case _ => false
    ensures Lighter(c, s, f, StepFrame(s, i, f, ch))
  {
  }

  lemma LighterDrops(c: Config, s: State, i: nat, e: Effect)
    requires NoLoops(c) && i < |s.frames| && Lighter(c, s, s.frames[i], e)
    ensures Weight(c, Commit(s, i, e)) < Weight(c, s)
  {
    FramesWeightUpdate(c, s.frames, i, e.own);
    FramesWeightAppend(c, s.frames[i := e.own], e.spawned);
    PendingWeightSame(c, c.jobs, s.sh, e.sh);
  }

  /** One name's count changes, and the whole change weighs less than nothing. */
  lemma CountingDrops(c: Config, s: State, i: nat, e: Effect, name: string)
    requires NoLoops(c) && UniqueNames(c.jobs) && Declares(c.jobs, name) && i < |s.frames|
    requires forall n :: n != name ==> Pending(e.sh, n) == Pending(s.sh, n)
    requires FrameWeight(c, e.own) + AddedWeight(c, e.spawned)
             + WheelWeight(e.sh.wheel) + Pending(e.sh, name) * Unit(c, name)
           < FrameWeight(c, s.frames[i])
             + WheelWeight(s.sh.wheel) + Pending(s.sh, name) * Unit(c, name)
    ensures Weight(c, Commit(s, i, e)) < Weight(c, s)
  {
    FramesWeightUpdate(c, s.frames, i, e.own);
    FramesWeightAppend(c, s.frames[i := e.own], e.spawned);
    PendingWeightUpdate(c, c.jobs, s.sh, e.sh, name);
  }

  lemma OneMore(p: nat, u: nat)
    ensures (p + 1) * u == p * u + u
    ensures p > 0 ==> p * u >= u
  {
  }

  lemma RequeueDrops(c: Config, s: State, i: nat, f: Frame)
    requires NoLoops(c) && UniqueNames(c.jobs) && i < |s.frames| && s.frames[i] == f
    requires f.RunCall? && f.pc.Requeue? && Declares(c.jobs, f.job.name)
    ensures Weight(c, Commit(s, i, StepRequeue(s, f))) < Weight(c, s)
  {
    OneMore(Pending(s.sh, f.job.name), Unit(c, f.job.name));
    CountingDrops(c, s, i, StepRequeue(s, f), f.job.name);
  }

  lemma DrainDrops(c: Config, s: State, i: nat, f: Frame)
    requires NoLoops(c) && UniqueNames(c.jobs) && s.config == c && PendingKnown(c, s.sh)
    requires i < |s.frames| && s.frames[i] == f && f.RunCall? && f.pc.DrainLock?
    ensures Weight(c, Commit(s, i, StepDrain(s, i, f))) < Weight(c, s)
  {
    var e := StepDrain(s, i, f);
    match DrainPick(s.sh, c, f.job)
    case None => LighterDrops(c, s, i, e);
    case Some(name) =>
      FirstWaitingIs(s.sh, Candidates(c, f.job));
      OneMore(Pending(s.sh, name), Unit(c, name));
      CountingDrops(c, s, i, e, name);
  }

  lemma TriggerDrops(c: Config, s: State, i: nat, f: Frame)
    requires NoLoops(c) && UniqueNames(c.jobs) && i < |s.frames| && s.frames[i] == f
    requires f.TriggerCall? && f.triggerPc.TriggerLock? && Declares(c.jobs, f.job.name)
    ensures Weight(c, Commit(s, i, StepTrigger(s, f))) < Weight(c, s)
  {
    var e := StepTrigger(s, f);
    OneMore(Pending(s.sh, f.job.name), Unit(c, f.job.name));
    if f.job.name !in s.sh.running {
      StopLightens(s.sh, f.job.name);
      var k := |s.sh.wheel|;
      assert e.sh.wheel[..k] == StopMapped(s.sh, f.job.name);
    }
    CountingDrops(c, s, i, e, f.job.name);
  }

  lemma ForceDrops(c: Config, s: State, i: nat, f: Frame)
    requires NoLoops(c) && UniqueNames(c.jobs) && i < |s.frames| && s.frames[i] == f
    requires f.ForceCall? && f.forcePc.ForceLock? && Declares(c.jobs, f.job.name)
    ensures Weight(c, Commit(s, i, StepForce(s, f))) < Weight(c, s)
  {
    var e := StepForce(s, f);
    StopLightens(s.sh, f.job.name);
    assert Pending(e.sh, f.job.name) == 0;
    assert Pending(s.sh, f.job.name) * Unit(c, f.job.name) >= 0;
    CountingDrops(c, s, i, e, f.job.name);
  }

  /** The callback's batch, its timer gone, outweighs the goroutine that looks the job up. */
  lemma {:induction false} FireTakes(c: Config, s: State, t: nat, sh: Shared)
    requires NoLoops(c) && UniqueNames(c.jobs)
    requires t < |s.sh.wheel| && s.sh.wheel[t].status == Fired && sh.wheel == s.sh.wheel[t := s.sh.wheel[t].(status := Over)]
    requires forall n :: n != s.sh.wheel[t].name ==> Pending(sh, n) == Pending(s.sh, n)
    requires Pending(sh, s.sh.wheel[t].name) <= Pending(s.sh, s.sh.wheel[t].name)
    requires Pending(sh, s.sh.wheel[t].name) < Pending(s.sh, s.sh.wheel[t].name) ==>
      Pending(sh, s.sh.wheel[t].name) == 0 && Declares(c.jobs, s.sh.wheel[t].name)
    ensures WheelWeight(sh.wheel) + PendingWeight(c, c.jobs, sh)
          + (if Pending(sh, s.sh.wheel[t].name) < Pending(s.sh, s.sh.wheel[t].name) then CALL + 1 + Cost(c, s.sh.wheel[t].name, 0) else 0)
          < WheelWeight(s.sh.wheel) + PendingWeight(c, c.jobs, s.sh)
  {
    var name := s.sh.wheel[t].name;
    WheelWeightUpdate(s.sh.wheel, t, s.sh.wheel[t].(status := Over));
    PendingWeightUpdate(c, c.jobs, s.sh, sh, name);
    OneMore(Pending(s.sh, name), Unit(c, name));
  }

  /** What the callback does to the timer and the counts. */
  lemma FireShape(s: State, t: nat)
    requires t < |s.sh.wheel|
    ensures var (sh, n) := FireShared(s, t);
      var name := s.sh.wheel[t].name;
      && sh.wheel == s.sh.wheel[t := s.sh.wheel[t].(status := Over)]
      && (forall m :: m != name ==> Pending(sh, m) == Pending(s.sh, m))
      && Pending(sh, name) == Pending(s.sh, name) - n
      && (n > 0 ==> Pending(sh, name) == 0)
  {
  }

  lemma FireDrops(c: Config, s: State, t: nat)
    requires NoLoops(c) && UniqueNames(c.jobs) && PendingKnown(c, s.sh)
    requires t < |s.sh.wheel| && s.sh.wheel[t].status == Fired
    ensures Weight(c, StepFire(s, t)) < Weight(c, s)
  {
    hide FramesWeight, WheelWeight, PendingWeight, Cost, FireShared;
    var (sh, n) := FireShared(s, t);
    var name := s.sh.wheel[t].name;
    FireShape(s, t);
    FireTakes(c, s, t, sh);
    var added := if n > 0 then Some(FireCall(name, n, |s.history.batches|, false)) else None;
    FramesWeightAppend(c, s.frames, added);
    assert StepFire(s, t).frames == s.frames + AsSeq(added);
    assert AddedWeight(c, added) == if n > 0 then CALL + 1 + Cost(c, name, 0) else 0;
  }

  lemma ExpireDrops(c: Config, s: State, t: nat)
    requires NoLoops(c) && t < |s.sh.wheel| && s.sh.wheel[t].status == Armed
    ensures Weight(c, Perform(s, Expire(t))) < Weight(c, s)
  {
    WheelWeightUpdate(s.sh.wheel, t, s.sh.wheel[t].(status := Fired));
    PendingWeightSame(c, c.jobs, s.sh, Perform(s, Expire(t)).sh);
  }

  /** What the weight argument needs of a state; it holds however switches are set. */
  ghost predicate Settled(c: Config, s: State) {
    Valid(c) && Fixed(c, s) && PendingKnown(c, s.sh) && Grown(s)
  }

  lemma RunDrops(c: Config, s: State, i: nat, f: Frame, ch: Choice)
    requires NoLoops(c) && UniqueNames(c.jobs) && s.config == c && PendingKnown(c, s.sh)
    requires i < |s.frames| && s.frames[i] == f && f.RunCall? && Known(c, f.job) && !f.pc.Returned?
    ensures Weight(c, Commit(s, i, StepRun(s, i, f, ch))) < Weight(c, s)
  {
    if f.pc.Requeue? {
      KnownIsDeclared(c, f.job);
      RequeueDrops(c, s, i, f);
    } else if f.pc.DrainLock? {
      DrainDrops(c, s, i, f);
    } else if f.pc.Chain? {
      ChainLightens(c, s, i, f);
      LighterDrops(c, s, i, StepChain(s, i, f));
    } else {
      RunLightens(c, s, i, f, ch);
      LighterDrops(c, s, i, StepRun(s, i, f, ch));
    }
  }

  lemma OtherGoDrops(c: Config, s: State, i: nat, ch: Choice)
    requires NoLoops(c) && Settled(c, s) && i < |s.frames| && Runnable(s, i, ch)
    requires !s.frames[i].RunCall? && !s.frames[i].ChainLoop?
    ensures Weight(c, Perform(s, Go(i, ch))) < Weight(c, s)
  {
    var f := s.frames[i];
    ValidHasUniqueNames(c);
    assert KnownFrame(c, f);
    if f.TriggerCall? && f.triggerPc.TriggerLock? {
      KnownIsDeclared(c, f.job);
      TriggerDrops(c, s, i, f);
    } else if f.ForceCall? && f.forcePc.ForceLock? {
      KnownIsDeclared(c, f.job);
      ForceDrops(c, s, i, f);
    } else {
      OthersLighten(c, s, i, f, ch);
      LighterDrops(c, s, i, StepFrame(s, i, f, ch));
    }
  }

  lemma GoDrops(c: Config, s: State, i: nat, ch: Choice)
    requires NoLoops(c) && Settled(c, s) && i < |s.frames| && Runnable(s, i, ch)
    ensures Weight(c, Perform(s, Go(i, ch))) < Weight(c, s)
  {
    var f := s.frames[i];
    ValidHasUniqueNames(c);
    assert KnownFrame(c, f) && LoopOk(s, i);
    if f.RunCall? {
      RunDrops(c, s, i, f, ch);
    } else if f.ChainLoop? {
      LoopLightens(c, s, i, f);
      LighterDrops(c, s, i, StepLoop(s, i, f));
    } else {
      OtherGoDrops(c, s, i, ch);
    }
  }

  /** Timers, goroutines, chains and drains: each step by itself brings the runner nearer to rest. */
  lemma StepDrops(c: Config, s: State, a: Action)
    requires NoLoops(c) && Settled(c, s) && Enabled(s, a) && Internal(a)
    ensures Weight(c, Perform(s, a)) < Weight(c, s)
  {
    match a
    case Go(i, ch) => GoDrops(c, s, i, ch);
    case Fire(t) =>
      ValidHasUniqueNames(c);
      FireDrops(c, s, t);
    case Expire(t) => ExpireDrops(c, s, t);
  }

  lemma StepKeepsSettled(c: Config, s: State, e: Event)
    requires Settled(c, s) && Can(s, e) && Respects(c, e.action)
    ensures Settled(c, Apply(s, e))
  {
    var t := s.(now := e.at);
    GrownIgnoresTheClock(s, e.at);
    StepKeepsFixed(c, t, e.action);
    StepKeepsPendingKnown(c, t, e.action);
    StepKeepsGrown(t, e.action);
  }

  lemma ClockWeighsNothing(c: Config, s: State, at: int)
    requires NoLoops(c) && Settled(c, s)
    ensures Settled(c, s.(now := at)) && Weight(c, s.(now := at)) == Weight(c, s)
  {
    GrownIgnoresTheClock(s, at);
  }

  /** Left to itself the runner takes at most as many steps as its weight, whatever the schedule. */
  lemma {:induction false} ComesToRest(c: Config, s: State, es: seq<Event>)
    requires NoLoops(c) && Settled(c, s) && Legal(s, es) && AllInternal(es)
    ensures Settled(c, Exec(s, es))
    ensures |es| + Weight(c, Exec(s, es)) <= Weight(c, s)
    decreases |es|
  {
    hide Settled, Weight, Perform;
    if es != [] {
      var t := s.(now := es[0].at);
      assert Internal(es[0].action);
      ClockWeighsNothing(c, s, es[0].at);
      StepDrops(c, t, es[0].action);
      StepKeepsSettled(c, s, es[0]);
      ComesToRest(c, Apply(s, es[0]), es[1..]);
    }
  }
}
