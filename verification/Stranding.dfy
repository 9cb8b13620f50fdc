/** Nothing is missed: every pending trigger has somebody who will come back for it. */
module Stranding {
  import opened JobConfig
  import opened RunnerState
  import opened Protocol
  import opened Exclusion
  import opened FixedConfig
  import opened Debounce
  import opened KnownJobs

  function GroupOf(c: Config, name: string): string {
    match Lookup(c, name)
    case Some(job) => job.group
    case None => ""
  }

  /** Same job or same non-empty group. */
  predicate SameQueue(c: Config, a: string, b: string) {
    a == b || (GroupOf(c, a) != "" && GroupOf(c, a) == GroupOf(c, b))
  }

  /**
   Somebody who will come for a queue: a call that will still get to its drain or has taken a batch
   there, or a timer's callback that has taken one; both then start a call that drains in its turn.
   A Trigger, a ForceRun or a chain loop on its way is nobody yet: it brings a trigger of its own,
   and only that one, when it is counted or called, gets the queue a timer or a call.
   */
  predicate WillDrain(f: Frame) {
    match f
    case RunCall(_, _, _, _, pc, _, _) => !pc.Requeue? && !pc.Chain? && !pc.Returned?
    case FireCall(_, _, _, done) => !done
    case _ => false
  }

  function JobOf(f: Frame): string {
    match f
    case RunCall(job, _, _, _, _, _, _) => job.name
    case FireCall(name, _, _, _) => name
    case _ => ""
  }

  predicate Drains(c: Config, f: Frame, name: string) {
    WillDrain(f) && SameQueue(c, JobOf(f), name)
  }

  ghost predicate HasDrainer(c: Config, s: State, name: string) {
    exists i :: 0 <= i < |s.frames| && Drains(c, s.frames[i], name)
  }

  ghost predicate HasTimer(s: State, name: string) {
    exists t :: 0 <= t < |s.sh.wheel| && s.sh.wheel[t].name == name && s.sh.wheel[t].status != Over
  }

  ghost predicate Covered(c: Config, s: State, name: string) {
    HasTimer(s, name) || HasDrainer(c, s, name)
  }

  /** The job's triggers wait, and nobody comes for them. */
  ghost predicate Stranded(c: Config, s: State, name: string) {
    Pending(s.sh, name) > 0 && !Covered(c, s, name)
  }

  /** A taken batch belongs to the same queue as the run that took it. */
  predicate HandsToOwnQueue(c: Config, f: Frame) {
    f.RunCall? && f.pc.DrainLookup? ==> SameQueue(c, f.job.name, f.pc.name)
  }

  /** One valid configuration, drain mode off, nothing disabled. */
  ghost predicate Calm(c: Config, s: State) {
    && Valid(c) && Fixed(c, s) && !s.draining && s.sh.disabled == {}
    && PendingKnown(c, s.sh) && NothingLost(c, s)
    && (forall i :: 0 <= i < |s.frames| ==> HandsToOwnQueue(c, s.frames[i]))
  }

  predicate KeepsCalm(c: Config, a: Action) {
    Respects(c, a) && !a.SetDraining? && !a.SetDisabled?
  }

  lemma HolderDrains(c: Config, s: State, name: string)
    requires Exclusive(s)
    ensures name in s.sh.running ==> HasDrainer(c, s, name)
  {
    if name in s.sh.running {
      assert NameHeld(s, name);
      var i :| 0 <= i < |s.frames| && Holds(s.frames[i]) && s.frames[i].job.name == name;
      assert Drains(c, s.frames[i], name);
    }
  }

  lemma GroupHolderDrains(c: Config, s: State, group: string, name: string)
    requires Exclusive(s) && Fixed(c, s) && group in s.sh.groupBusy && GroupOf(c, name) == group
    ensures exists i :: 0 <= i < |s.frames| && Holds(s.frames[i]) && Drains(c, s.frames[i], name)
  {
    assert GroupHeld(s, group);
    var i :| 0 <= i < |s.frames| && Holds(s.frames[i]) && s.frames[i].job.group == group && group != "";
    assert KnownFrame(c, s.frames[i]);
    assert Drains(c, s.frames[i], name);
  }

  /** Whoever is denied leaves the queue to a holder. */
  lemma DeniedIsCovered(c: Config, s: State, job: Job, name: string)
    requires Exclusive(s) && Fixed(c, s) && Known(c, job) && AcquireDenial(s.sh, job).Some?
    requires SameQueue(c, job.name, name)
    ensures exists i :: 0 <= i < |s.frames| && Holds(s.frames[i]) && Drains(c, s.frames[i], name)
  {
    if job.name in s.sh.running {
      assert NameHeld(s, job.name);
      var i :| 0 <= i < |s.frames| && Holds(s.frames[i]) && s.frames[i].job.name == job.name;
      assert Drains(c, s.frames[i], name);
    } else if GroupOf(c, name) == job.group {
      GroupHolderDrains(c, s, job.group, name);
    } else {
      GroupHolderDrains(c, s, job.group, job.name);
    }
  }

  /** The drain's scan covers the whole queue of the finished job. */
  lemma QueueIsCandidates(c: Config, job: Job, name: string)
    requires Valid(c) && Known(c, job)
    ensures name in Candidates(c, job) <==> SameQueue(c, job.name, name)
    ensures name in Candidates(c, job) ==> Lookup(c, name).Some?
  {
    GroupMatesAre(c.jobs, job, name);
    forall j | j in c.jobs
      ensures Known(c, j)
    {
      LookupIsMembership(c, j);
    }
  }

  /** A step that neither takes, adds, nor ends a drainer's life. */
  ghost predicate KeepsCover(s: State, f: Frame, e: Effect) {
    && e.sh.wheel == s.sh.wheel
    && (forall name :: Pending(e.sh, name) == Pending(s.sh, name))
    && (WillDrain(f) ==> WillDrain(e.own) && JobOf(e.own) == JobOf(f))
  }

  predicate Requeuing(f: Frame) {
    f.RunCall? && f.pc.Requeue?
  }

  predicate Decides(f: Frame) {
    || (f.RunCall? && (f.pc.Acquire? || f.pc.Requeue? || f.pc.DrainLock? || f.pc.DrainLookup?))
    || (f.TriggerCall? && f.triggerPc.TriggerLock?)
    || (f.ForceCall? && f.forcePc.ForceLock?)
    || f.FireCall?
  }

  lemma OtherStepsKeepCover(s: State, i: nat, f: Frame, ch: Choice)
    requires !s.draining && s.sh.disabled == {} && !Decides(f)
    ensures KeepsCover(s, f, StepFrame(s, i, f, ch))
  {
  }

  lemma CoverKept(c: Config, s: State, i: nat, e: Effect, name: string)
    requires i < |s.frames| && KeepsCover(s, s.frames[i], e) && !Stranded(c, s, name)
    ensures !Stranded(c, Commit(s, i, e), name)
  {
    if HasDrainer(c, s, name) {
      var k :| 0 <= k < |s.frames| && Drains(c, s.frames[k], name);
      assert Drains(c, Commit(s, i, e).frames[k], name);
    }
  }

  /** Some call other than i drains the queue. */
  ghost predicate OtherDrains(c: Config, s: State, i: nat, name: string) {
    exists k :: 0 <= k < |s.frames| && k != i && Drains(c, s.frames[k], name)
  }

  lemma OthersStay(c: Config, s: State, i: nat, e: Effect, name: string)
    requires i < |s.frames| && OtherDrains(c, s, i, name)
    ensures HasDrainer(c, Commit(s, i, e), name)
  {
    var k :| 0 <= k < |s.frames| && k != i && Drains(c, s.frames[k], name);
    assert Drains(c, Commit(s, i, e).frames[k], name);
  }

  lemma AcquireKeepsCover(c: Config, s: State, i: nat, name: string)
    requires Exclusive(s) && Calm(c, s) && !Stranded(c, s, name)
    requires i < |s.frames| && s.frames[i].RunCall? && s.frames[i].pc.Acquire?
    ensures !Stranded(c, Commit(s, i, StepAcquire(s, s.frames[i])), name)
  {
    var f := s.frames[i];
    var e := StepAcquire(s, f);
    if AcquireDenial(s.sh, f.job).None? {
      CoverKept(c, s, i, e, name);
    } else if HasDrainer(c, s, name) {
      assert KnownFrame(c, f);
      if SameQueue(c, f.job.name, name) {
        DeniedIsCovered(c, s, f.job, name);
      }
      assert OtherDrains(c, s, i, name);
      OthersStay(c, s, i, e, name);
    }
  }

  /** When the drain takes nothing, whatever still waits in its queue waits for a holder. */
  lemma UndrainedIsCovered(c: Config, s: State, i: nat, name: string)
    requires Exclusive(s) && Calm(c, s) && i < |s.frames| && s.frames[i].RunCall? && s.frames[i].pc.DrainLock?
    requires DrainPick(s.sh, c, s.frames[i].job).None?
    requires SameQueue(c, s.frames[i].job.name, name) && Pending(s.sh, name) > 0
    ensures OtherDrains(c, s, i, name)
  {
    var job := s.frames[i].job;
    assert KnownFrame(c, s.frames[i]);
    if job.group != "" && job.group in s.sh.groupBusy {
      if GroupOf(c, name) == job.group {
        GroupHolderDrains(c, s, job.group, name);
      } else {
        GroupHolderDrains(c, s, job.group, job.name);
      }
    } else {
      QueueIsCandidates(c, job, name);
      FirstWaitingIs(s.sh, Candidates(c, job));
      assert !Waits(s.sh, name);
      assert NameHeld(s, name);
      var k :| 0 <= k < |s.frames| && Holds(s.frames[k]) && s.frames[k].job.name == name;
      assert Drains(c, s.frames[k], name);
    }
  }

  lemma DrainKeepsCover(c: Config, s: State, i: nat, name: string)
    requires Exclusive(s) && Calm(c, s) && !Stranded(c, s, name)
    requires i < |s.frames| && s.frames[i].RunCall? && s.frames[i].pc.DrainLock?
    ensures !Stranded(c, Commit(s, i, StepDrain(s, i, s.frames[i])), name)
  {
    var f := s.frames[i];
    var e := StepDrain(s, i, f);
    var s' := Commit(s, i, e);
    assert KnownFrame(c, f);
    if Pending(s'.sh, name) > 0 {
      assert Pending(s.sh, name) > 0;
      if HasDrainer(c, s, name) {
        if DrainPick(s.sh, c, f.job).Some? && SameQueue(c, f.job.name, name) {
          assert Drains(c, s'.frames[i], name);
        } else {
          if SameQueue(c, f.job.name, name) {
            UndrainedIsCovered(c, s, i, name);
          }
          assert OtherDrains(c, s, i, name);
          OthersStay(c, s, i, e, name);
        }
      }
    }
  }

  /** The call started for a taken batch drains the queue its taker would have drained. */
  lemma HandingOnKeepsCover(c: Config, s: State, i: nat, own: Frame, batchName: string, n: nat, b: nat, name: string)
    requires Calm(c, s) && !Stranded(c, s, name) && i < |s.frames| && Lookup(c, batchName).Some?
    requires SameQueue(c, JobOf(s.frames[i]), batchName)
    ensures !Stranded(c, Commit(s, i, GiveOrDrop(s, own, batchName, n, b)), name)
  {
    var e := GiveOrDrop(s, own, batchName, n, b);
    var s' := Commit(s, i, e);
    assert s'.frames[|s.frames|].job.name == batchName && WillDrain(s'.frames[|s.frames|]);
    if HasDrainer(c, s, name) {
      if SameQueue(c, JobOf(s.frames[i]), name) {
        assert Drains(c, s'.frames[|s.frames|], name);
      } else {
        assert OtherDrains(c, s, i, name);
        OthersStay(c, s, i, e, name);
      }
    }
  }

  /** Stopping one job's mapped timer stops no other job's. */
  lemma StopSparesOthers(sh: Shared, name: string, other: string, t: nat)
    requires Booked(sh) && other != name && t < |sh.wheel| && sh.wheel[t].name == other
    ensures StopMapped(sh, name)[t] == sh.wheel[t]
  {
  }

  lemma TriggerKeepsCover(c: Config, s: State, i: nat, name: string)
    requires Exclusive(s) && Booked(s.sh) && !Stranded(c, s, name)
    requires i < |s.frames| && s.frames[i].TriggerCall? && s.frames[i].triggerPc.TriggerLock?
    ensures !Stranded(c, Commit(s, i, StepTrigger(s, s.frames[i])), name)
  {
    var job := s.frames[i].job;
    var e := StepTrigger(s, s.frames[i]);
    var s' := Commit(s, i, e);
    if name == job.name {
      if name in s.sh.running {
        HolderDrains(c, s, name);
        assert OtherDrains(c, s, i, name);
        OthersStay(c, s, i, e, name);
      } else {
        assert s'.sh.wheel[|s.sh.wheel|].name == name;
      }
    } else if HasDrainer(c, s, name) {
      assert OtherDrains(c, s, i, name);
      OthersStay(c, s, i, e, name);
    } else if HasTimer(s, name) {
      var t :| 0 <= t < |s.sh.wheel| && s.sh.wheel[t].name == name && s.sh.wheel[t].status != Over;
      StopSparesOthers(s.sh, job.name, name, t);
      assert s'.sh.wheel[t] == s.sh.wheel[t];
    }
  }

  lemma ForceKeepsCover(c: Config, s: State, i: nat, name: string)
    requires Booked(s.sh) && !Stranded(c, s, name)
    requires i < |s.frames| && s.frames[i].ForceCall? && s.frames[i].forcePc.ForceLock?
    ensures !Stranded(c, Commit(s, i, StepForce(s, s.frames[i])), name)
  {
    var job := s.frames[i].job;
    var e := StepForce(s, s.frames[i]);
    var s' := Commit(s, i, e);
    if Pending(s'.sh, name) > 0 {
      assert name != job.name && Pending(s.sh, name) > 0;
      if HasDrainer(c, s, name) {
        assert OtherDrains(c, s, i, name);
        OthersStay(c, s, i, e, name);
      } else {
        var t :| 0 <= t < |s.sh.wheel| && s.sh.wheel[t].name == name && s.sh.wheel[t].status != Over;
        StopSparesOthers(s.sh, job.name, name, t);
        assert s'.sh.wheel[t] == s.sh.wheel[t];
      }
    }
  }

  lemma FireKeepsCover(c: Config, s: State, t: nat, name: string)
    requires Exclusive(s) && !Stranded(c, s, name) && !s.draining && t < |s.sh.wheel|
    ensures !Stranded(c, StepFire(s, t), name)
  {
    var s' := StepFire(s, t);
    if Pending(s'.sh, name) > 0 {
      assert Pending(s.sh, name) > 0;
      if name == s.sh.wheel[t].name {
        HolderDrains(c, s, name);
      }
      if HasDrainer(c, s, name) {
        var k :| 0 <= k < |s.frames| && Drains(c, s.frames[k], name);
        assert Drains(c, s'.frames[k], name);
      } else {
        var u :| 0 <= u < |s.sh.wheel| && s.sh.wheel[u].name == name && s.sh.wheel[u].status != Over;
        assert s'.sh.wheel[u] == s.sh.wheel[u];
      }
    }
  }

  /** The one dangerous step: a denied run's requeue strands its trigger exactly when nobody comes for its job. */
  lemma RequeueKeepsCoverIff(c: Config, s: State, i: nat, name: string)
    requires !Stranded(c, s, name)
    requires i < |s.frames| && s.frames[i].RunCall? && s.frames[i].pc.Requeue?
    ensures Stranded(c, Commit(s, i, StepRequeue(s, s.frames[i])), name)
      <==> name == s.frames[i].job.name && !Covered(c, s, name)
  {
    var e := StepRequeue(s, s.frames[i]);
    var s' := Commit(s, i, e);
    if HasDrainer(c, s, name) {
      assert OtherDrains(c, s, i, name);
      OthersStay(c, s, i, e, name);
    }
    if HasDrainer(c, s', name) {
      var k :| 0 <= k < |s'.frames| && Drains(c, s'.frames[k], name);
      assert k != i && Drains(c, s.frames[k], name);
    }
  }

  lemma ExpireKeepsCover(c: Config, s: State, t: nat, name: string)
    requires !Stranded(c, s, name) && t < |s.sh.wheel| && s.sh.wheel[t].status == Armed
    ensures !Stranded(c, Perform(s, Expire(t)), name)
  {
    var s' := Perform(s, Expire(t));
    if HasTimer(s, name) {
      var u :| 0 <= u < |s.sh.wheel| && s.sh.wheel[u].name == name && s.sh.wheel[u].status != Over;
      assert s'.sh.wheel[u].name == name && s'.sh.wheel[u].status != Over;
    }
    if HasDrainer(c, s, name) {
      var k :| 0 <= k < |s.frames| && Drains(c, s.frames[k], name);
      assert Drains(c, s'.frames[k], name);
    }
  }

  lemma CallKeepsCover(c: Config, s: State, a: Action, name: string)
    requires !Stranded(c, s, name) && KeepsCalm(c, a) && !a.Go? && !a.Fire? && !a.Expire?
    ensures !Stranded(c, Perform(s, a), name)
  {
    var s' := Perform(s, a);
    assert s'.sh == s.sh;
    if HasDrainer(c, s, name) {
      var k :| 0 <= k < |s.frames| && Drains(c, s.frames[k], name);
      assert Drains(c, s'.frames[k], name);
    }
    if HasTimer(s, name) {
      var u :| 0 <= u < |s.sh.wheel| && s.sh.wheel[u].name == name && s.sh.wheel[u].status != Over;
      assert s'.sh.wheel[u] == s.sh.wheel[u];
    }
  }

  /** The job's requeue comes when nobody is left to drain its queue and no timer is pending for it. */
  ghost predicate LateRequeue(c: Config, s: State, a: Action, name: string) {
    && a.Go? && a.frame < |s.frames| && s.frames[a.frame].RunCall? && s.frames[a.frame].pc.Requeue?
    && s.frames[a.frame].job.name == name && !Covered(c, s, name)
  }

  lemma DecisionKeepsCover(c: Config, s: State, i: nat, ch: Choice, name: string)
    requires Exclusive(s) && Booked(s.sh) && Calm(c, s) && !Stranded(c, s, name)
    requires i < |s.frames| && Runnable(s, i, ch) && Decides(s.frames[i])
    requires !Requeuing(s.frames[i])
    ensures !Stranded(c, Commit(s, i, StepFrame(s, i, s.frames[i], ch)), name)
  {
    var f := s.frames[i];
    assert HandKnown(c, f) && HandsToOwnQueue(c, f);
    if f.TriggerCall? {
      TriggerKeepsCover(c, s, i, name);
    } else if f.ForceCall? {
      ForceKeepsCover(c, s, i, name);
    } else if f.FireCall? {
      HandingOnKeepsCover(c, s, i, f.(done := true), f.name, f.n, f.batch, name);
    } else if f.pc.Acquire? {
      AcquireKeepsCover(c, s, i, name);
    } else if f.pc.DrainLock? {
      DrainKeepsCover(c, s, i, name);
    } else {
      HandingOnKeepsCover(c, s, i, AfterDrain(f), f.pc.name, f.pc.n, f.pc.batch, name);
    }
  }

  /** Exactly when a step of the real two-lock protocol strands a job's trigger. */
  lemma StepStrandsIff(c: Config, s: State, a: Action, name: string)
    requires Exclusive(s) && Booked(s.sh) && Calm(c, s) && !Stranded(c, s, name)
    requires Enabled(s, a) && KeepsCalm(c, a)
    ensures Stranded(c, Perform(s, a), name) <==> LateRequeue(c, s, a, name)
  {
    match a
    case Go(i, ch) =>
      var f := s.frames[i];
      if !Decides(f) {
        OtherStepsKeepCover(s, i, f, ch);
        CoverKept(c, s, i, StepFrame(s, i, f, ch), name);
      } else if Requeuing(f) {
        RequeueKeepsCoverIff(c, s, i, name);
      } else {
        DecisionKeepsCover(c, s, i, ch, name);
      }
    case Fire(t) => FireKeepsCover(c, s, t, name);
    case Expire(t) => ExpireKeepsCover(c, s, t, name);
    case _ => CallKeepsCover(c, s, a, name);
  }

  lemma DrainHandsToOwnQueue(c: Config, s: State, i: nat, f: Frame)
    requires Valid(c) && s.config == c && f.RunCall? && f.pc.DrainLock? && Known(c, f.job)
    ensures HandsToOwnQueue(c, StepDrain(s, i, f).own)
  {
    if DrainPick(s.sh, c, f.job).Some? {
      FirstWaitingIs(s.sh, Candidates(c, f.job));
      QueueIsCandidates(c, f.job, DrainPick(s.sh, c, f.job).value);
    }
  }

  lemma OthersHandNothing(c: Config, s: State, i: nat, f: Frame, ch: Choice)
    requires !(f.RunCall? && (f.pc.DrainLock? || f.pc.Returned?))
    ensures HandsToOwnQueue(c, StepFrame(s, i, f, ch).own)
  {
  }

  lemma AddedHandsNothing(c: Config, s: State, a: Action)
    ensures Added(s, a).Some? ==> HandsToOwnQueue(c, Added(s, a).value)
  {
  }

  lemma RunDisablesNothing(s: State, i: nat, f: Frame, ch: Choice)
    requires f.RunCall?
    ensures StepRun(s, i, f, ch).sh.disabled == s.sh.disabled
  {
    if f.pc.DrainLock? {
      assert DrainLocked(s.sh, s.config, f.job).0.disabled == s.sh.disabled;
    } else if f.pc.DrainLookup? {
    } else {
    }
  }

  lemma OthersDisableNothing(s: State, i: nat, f: Frame, ch: Choice)
    requires !f.RunCall?
    ensures StepFrame(s, i, f, ch).sh.disabled == s.sh.disabled
  {
  }

  lemma ActionsStaySwitchedOn(c: Config, s: State, a: Action)
    requires KeepsCalm(c, a)
    ensures Perform(s, a).sh.disabled == s.sh.disabled && Perform(s, a).draining == s.draining
  {
    if a.Go? && a.frame < |s.frames| {
      if s.frames[a.frame].RunCall? {
        RunDisablesNothing(s, a.frame, s.frames[a.frame], a.choice);
      } else {
        OthersDisableNothing(s, a.frame, s.frames[a.frame], a.choice);
      }
    }
  }

  lemma StepHandsToOwnQueue(c: Config, s: State, a: Action)
    requires Calm(c, s) && Enabled(s, a)
    ensures forall i :: 0 <= i < |Perform(s, a).frames| ==> HandsToOwnQueue(c, Perform(s, a).frames[i])
  {
    FramesAfter(s, a);
    AddedHandsNothing(c, s, a);
    if a.Go? {
      var f := s.frames[a.frame];
      assert KnownFrame(c, f);
      if f.RunCall? && f.pc.DrainLock? {
        DrainHandsToOwnQueue(c, s, a.frame, f);
      } else {
        OthersHandNothing(c, s, a.frame, f, a.choice);
      }
    }
  }

  lemma StepKeepsCalm(c: Config, s: State, a: Action)
    requires Calm(c, s) && Enabled(s, a) && KeepsCalm(c, a)
    ensures Calm(c, Perform(s, a))
  {
    StepKeepsFixed(c, s, a);
    ActionsStaySwitchedOn(c, s, a);
    StepKeepsPendingKnown(c, s, a);
    StepLosesNothing(c, s, a);
    StepHandsToOwnQueue(c, s, a);
  }

  // Whole runs.

  ghost predicate CalmRun(c: Config, es: seq<Event>) {
    forall k :: 0 <= k < |es| ==> KeepsCalm(c, es[k].action)
  }

  /** No step of the run is a late requeue of the job. */
  ghost predicate NeverLate(c: Config, s: State, es: seq<Event>, name: string)
    decreases |es|
  {
    es == [] ||
    (!LateRequeue(c, s.(now := es[0].at), es[0].action, name) && NeverLate(c, Apply(s, es[0]), es[1..], name))
  }

  /** In no state of the run is the job stranded. */
  ghost predicate NeverStranded(c: Config, s: State, es: seq<Event>, name: string)
    decreases |es|
  {
    !Stranded(c, s, name) && (es == [] || NeverStranded(c, Apply(s, es[0]), es[1..], name))
  }

  ghost predicate Orderly(c: Config, s: State) {
    Exclusive(s) && Booked(s.sh) && Calm(c, s)
  }

  lemma StepKeepsOrderly(c: Config, s: State, a: Action)
    requires Orderly(c, s) && Enabled(s, a) && KeepsCalm(c, a)
    ensures Orderly(c, Perform(s, a))
  {
    StepKeepsExclusive(s, a);
    StepKeepsBooked(s, a);
    StepKeepsCalm(c, s, a);
  }

  lemma ClockChangesNothing(c: Config, s: State, at: int)
    requires Orderly(c, s)
    ensures Orderly(c, s.(now := at)) && forall n :: Covered(c, s, n) <==> Covered(c, s.(now := at), n)
  {
    var t := s.(now := at);
    assert forall n :: NameHeld(s, n) <==> NameHeld(t, n);
    assert forall g :: GroupHeld(s, g) <==> GroupHeld(t, g);
  }

  lemma {:induction false} RunStrandsIff(c: Config, s: State, es: seq<Event>, name: string)
    requires Orderly(c, s) && !Stranded(c, s, name) && Legal(s, es) && CalmRun(c, es)
    ensures NeverStranded(c, s, es, name) <==> NeverLate(c, s, es, name)
    decreases |es|
  {
    if es != [] {
      var t := s.(now := es[0].at);
      assert KeepsCalm(c, es[0].action);
      ClockChangesNothing(c, s, es[0].at);
      StepStrandsIff(c, t, es[0].action, name);
      StepKeepsOrderly(c, t, es[0].action);
      if !Stranded(c, Apply(s, es[0]), name) {
        RunStrandsIff(c, Apply(s, es[0]), es[1..], name);
      }
    }
  }

  lemma {:induction false} LastIsNotStranded(c: Config, s: State, es: seq<Event>, name: string)
    requires NeverStranded(c, s, es, name)
    ensures !Stranded(c, Exec(s, es), name)
    decreases |es|
  {
    if es != [] {
      LastIsNotStranded(c, Apply(s, es[0]), es[1..], name);
    }
  }

  // How a run ends.

  /** The job is stranded in every state of the run. */
  ghost predicate StrandedThroughout(c: Config, s: State, es: seq<Event>, name: string)
    decreases |es|
  {
    Stranded(c, s, name) && (es == [] || StrandedThroughout(c, Apply(s, es[0]), es[1..], name))
  }

  /** Some late requeue of the job is never made good. */
  ghost predicate LeftBehind(c: Config, s: State, es: seq<Event>, name: string)
    decreases |es|
  {
    && es != []
    && var t := Apply(s, es[0]);
      || (LateRequeue(c, s.(now := es[0].at), es[0].action, name) && StrandedThroughout(c, t, es[1..], name))
      || LeftBehind(c, t, es[1..], name)
  }

  lemma {:induction false} StrandedAtEndIff(c: Config, s: State, es: seq<Event>, name: string)
    requires Orderly(c, s) && Legal(s, es) && CalmRun(c, es)
    ensures Stranded(c, Exec(s, es), name) <==> StrandedThroughout(c, s, es, name) || LeftBehind(c, s, es, name)
    decreases |es|
  {
    if es != [] {
      var t, u := s.(now := es[0].at), Apply(s, es[0]);
      assert KeepsCalm(c, es[0].action);
      ClockChangesNothing(c, s, es[0].at);
      StepKeepsOrderly(c, t, es[0].action);
      StrandedAtEndIff(c, u, es[1..], name);
      if !Stranded(c, s, name) {
        StepStrandsIff(c, t, es[0].action, name);
        assert StrandedThroughout(c, u, es[1..], name) ==> Stranded(c, u, name);
      }
    }
  }

  /** Denial and requeue as one step: while a call waits to requeue, only it may go. */
  ghost predicate Prompt(s: State, a: Action) {
    forall i :: 0 <= i < |s.frames| && Requeuing(s.frames[i]) ==> a.Go? && a.frame == i
  }

  ghost predicate PromptRun(s: State, es: seq<Event>)
    decreases |es|
  {
    es == [] || (Prompt(s, es[0].action) && PromptRun(Apply(s, es[0]), es[1..]))
  }

  /** Every call about to requeue still has a holder to drain after it. */
  ghost predicate RequeuesInTime(c: Config, s: State) {
    forall i :: 0 <= i < |s.frames| && Requeuing(s.frames[i]) ==> HasDrainer(c, s, s.frames[i].job.name)
  }

  lemma RunStopsBeforeRequeue(s: State, i: nat, f: Frame, ch: Choice)
    ensures Requeuing(StepFrame(s, i, f, ch).own) ==>
      f.RunCall? && f.pc.Acquire? && AcquireDenial(s.sh, f.job).Some? && StepFrame(s, i, f, ch).own.job == f.job
  {
  }

  lemma AddedIsNotRequeuing(s: State, a: Action)
    ensures Added(s, a).Some? ==> !Requeuing(Added(s, a).value)
  {
  }

  lemma PromptKeepsInTime(c: Config, s: State, a: Action)
    requires Orderly(c, s) && RequeuesInTime(c, s) && Enabled(s, a) && KeepsCalm(c, a) && Prompt(s, a)
    ensures RequeuesInTime(c, Perform(s, a))
  {
    var s' := Perform(s, a);
    FramesAfter(s, a);
    AddedIsNotRequeuing(s, a);
    if a.Go? {
      var f := s.frames[a.frame];
      RunStopsBeforeRequeue(s, a.frame, f, a.choice);
      if Requeuing(s'.frames[a.frame]) {
        assert KnownFrame(c, f);
        DeniedIsCovered(c, s, f.job, f.job.name);
        var k :| 0 <= k < |s.frames| && Holds(s.frames[k]) && Drains(c, s.frames[k], f.job.name);
        assert Drains(c, s'.frames[k], f.job.name);
      }
    }
  }

  lemma {:induction false} PromptIsNeverLate(c: Config, s: State, es: seq<Event>, name: string)
    requires Orderly(c, s) && RequeuesInTime(c, s) && Legal(s, es) && CalmRun(c, es) && PromptRun(s, es)
    ensures NeverLate(c, s, es, name)
    decreases |es|
  {
    if es != [] {
      var t := s.(now := es[0].at);
      assert KeepsCalm(c, es[0].action);
      ClockChangesNothing(c, s, es[0].at);
      assert RequeuesInTime(c, t) by {
        assert forall n :: HasDrainer(c, s, n) ==> HasDrainer(c, t, n);
      }
      PromptKeepsInTime(c, t, es[0].action);
      StepKeepsOrderly(c, t, es[0].action);
      PromptIsNeverLate(c, Apply(s, es[0]), es[1..], name);
    }
  }

  /**
   From start-up, under one valid configuration with drain mode off and nothing disabled: a run
   strands no trigger of a job in any of its states exactly when none of the job's requeues comes
   late; and a run in which each denial is followed at once by its requeue is such a run for all.
   */
  lemma {:induction false} NoStranding(c: Config, now: int, es: seq<Event>, name: string)
    requires Valid(c) && Legal(Init(c, {}, now), es) && CalmRun(c, es)
    ensures NeverStranded(c, Init(c, {}, now), es, name) <==> NeverLate(c, Init(c, {}, now), es, name)
    ensures PromptRun(Init(c, {}, now), es) ==> NeverStranded(c, Init(c, {}, now), es, name)
  {
    RunStrandsIff(c, Init(c, {}, now), es, name);
    if PromptRun(Init(c, {}, now), es) {
      PromptIsNeverLate(c, Init(c, {}, now), es, name);
    }
  }
}
