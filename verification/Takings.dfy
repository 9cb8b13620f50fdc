/** Who takes a pending count, which one a drain takes, and who still can in drain mode. */
module Takings {
  import opened Prelude
  import opened JobConfig
  import opened RunnerState
  import opened Protocol
  import opened Conservation
  import opened Draining
  import opened OneTimer

  // What a drain picks.

  /** Has something pending and does not run. */
  predicate IsWaiting(sh: Shared, name: string) {
    name in sh.pending && sh.pending[name] > 0 && name !in sh.running
  }

  /** The first waiting job of the finished job's group, in the order of the file. */
  ghost predicate FirstMate(sh: Shared, jobs: seq<Job>, finished: Job, name: string) {
    && IsWaiting(sh, name)
    && exists k :: 0 <= k < |jobs| && jobs[k].name == name && jobs[k].group == finished.group
         && forall m :: 0 <= m < k && jobs[m].group == finished.group ==> !IsWaiting(sh, jobs[m].name)
  }

  /** The finished job if it waits, otherwise the first of its group, and nobody while its group is taken. */
  ghost predicate IsNext(sh: Shared, c: Config, finished: Job, name: string) {
    && (finished.group == "" || finished.group !in sh.groupBusy)
    && (if IsWaiting(sh, finished.name) then name == finished.name
        else finished.group != "" && FirstMate(sh, c.jobs, finished, name))
  }

  lemma {:induction false} FirstWaitingConcat(sh: Shared, a: seq<string>, b: seq<string>)
    ensures FirstWaiting(sh, a + b) == if FirstWaiting(sh, a).Some? then FirstWaiting(sh, a) else FirstWaiting(sh, b)
  {
    if a == [] {
      assert a + b == b;
    } else {
      assert (a + b)[0] == a[0] && (a + b)[1..] == a[1..] + b;
      FirstWaitingConcat(sh, a[1..], b);
    }
  }

  /** No job of the group waits. */
  ghost predicate NoMate(sh: Shared, jobs: seq<Job>, finished: Job) {
    forall m :: 0 <= m < |jobs| && jobs[m].group == finished.group ==> !IsWaiting(sh, jobs[m].name)
  }

  lemma FirstMateGrows(sh: Shared, init: seq<Job>, last: Job, finished: Job, name: string)
    ensures FirstMate(sh, init + [last], finished, name) <==>
      || FirstMate(sh, init, finished, name)
      || (NoMate(sh, init, finished) && last.group == finished.group && last.name == name && IsWaiting(sh, name))
  {
    var jobs := init + [last];
    if FirstMate(sh, init, finished, name) {
      var k :| 0 <= k < |init| && init[k].name == name && init[k].group == finished.group
        && forall m :: 0 <= m < k && init[m].group == finished.group ==> !IsWaiting(sh, init[m].name);
      assert jobs[k] == init[k];
    }
    if FirstMate(sh, jobs, finished, name) {
      var k :| 0 <= k < |jobs| && jobs[k].name == name && jobs[k].group == finished.group
        && forall m :: 0 <= m < k && jobs[m].group == finished.group ==> !IsWaiting(sh, jobs[m].name);
      assert forall m :: 0 <= m < |init| ==> jobs[m] == init[m];
    }
    assert jobs[|init|] == last;
  }

  lemma {:induction false} MatesInOrder(sh: Shared, jobs: seq<Job>, finished: Job, name: string)
    requires !IsWaiting(sh, finished.name)
    ensures FirstWaiting(sh, GroupMates(jobs, finished)) == Some(name) <==> FirstMate(sh, jobs, finished, name)
    ensures FirstWaiting(sh, GroupMates(jobs, finished)).None? <==> NoMate(sh, jobs, finished)
  {
    if jobs != [] {
      var init, last := jobs[..|jobs| - 1], jobs[|jobs| - 1];
      assert jobs == init + [last];
      MatesInOrder(sh, init, finished, name);
      FirstMateGrows(sh, init, last, finished, name);
      FirstWaitingConcat(sh, GroupMates(init, finished), [last.name]);
      assert FirstWaiting(sh, [last.name]) == if IsWaiting(sh, last.name) then Some(last.name) else None;
      if FirstWaiting(sh, GroupMates(init, finished)).Some? {
        MatesInOrder(sh, init, finished, FirstWaiting(sh, GroupMates(init, finished)).value);
      }
      hide FirstMate, IsWaiting, FirstWaiting;
    }
  }

  lemma DrainPickIsNext(sh: Shared, c: Config, finished: Job, name: string)
    ensures DrainPick(sh, c, finished) == Some(name) <==> IsNext(sh, c, finished, name)
  {
    var mates := if finished.group != "" then GroupMates(c.jobs, finished) else [];
    assert Candidates(c, finished)[0] == finished.name && Candidates(c, finished)[1..] == mates;
    assert FirstWaiting(sh, Candidates(c, finished))
      == if IsWaiting(sh, finished.name) then Some(finished.name) else FirstWaiting(sh, mates);
    if !IsWaiting(sh, finished.name) {
      MatesInOrder(sh, c.jobs, finished, name);
    }
  }

  // Who takes.

  /** The drain of a finished run has its turn, and the job is the one to go. */
  ghost predicate DrainsTo(s: State, a: Action, name: string) {
    && a.Go? && a.frame < |s.frames| && s.frames[a.frame].RunCall? && s.frames[a.frame].pc.DrainLock?
    && IsNext(s.sh, s.config, s.frames[a.frame].job, name)
  }

  /** The callback of a timer of the job, which does not run, and drain mode is off. */
  predicate FiresFor(s: State, a: Action, name: string) {
    && a.Fire? && a.timer < |s.sh.wheel| && s.sh.wheel[a.timer].name == name
    && name !in s.sh.running && !s.draining
  }

  ghost predicate Takes(s: State, a: Action, name: string) {
    Pending(s.sh, name) > 0 && (Forces(s, a, name) || DrainsTo(s, a, name) || FiresFor(s, a, name))
  }

  lemma DrainLowersIff(s: State, i: nat, f: Frame, name: string)
    requires f.RunCall? && f.pc.DrainLock?
    ensures var e := StepDrain(s, i, f);
      Pending(e.sh, name) == if IsNext(s.sh, s.config, f.job, name) then 0 else Pending(s.sh, name)
  {
    DrainPickIsNext(s.sh, s.config, f.job, name);
  }

  lemma GoLowersIff(s: State, i: nat, ch: Choice, name: string)
    requires i < |s.frames| && Runnable(s, i, ch)
    ensures Pending(Perform(s, Go(i, ch)).sh, name) < Pending(s.sh, name) <==> Takes(s, Go(i, ch), name)
    ensures Takes(s, Go(i, ch), name) ==> Pending(Perform(s, Go(i, ch)).sh, name) == 0
  {
    hide DrainPick, IsNext;
    var f := s.frames[i];
    if f.RunCall? && f.pc.DrainLock? {
      DrainLowersIff(s, i, f, name);
    } else if !TakesOrAdds(f) {
      OtherStepsKeepBooks(s, i, f, ch);
    }
  }

  /** A step lowers a job's count exactly when it takes it, and then it takes all of it. */
  lemma LowersIff(s: State, a: Action, name: string)
    requires Enabled(s, a)
    ensures Pending(Perform(s, a).sh, name) < Pending(s.sh, name) <==> Takes(s, a, name)
    ensures Takes(s, a, name) ==> Pending(Perform(s, a).sh, name) == 0
  {
    hide DrainPick, IsNext;
    match a
    case Go(i, ch) => GoLowersIff(s, i, ch, name);
    case _ =>
  }

  lemma OthersTakeNothing(s: State, i: nat, f: Frame, ch: Choice)
    requires !(f.RunCall? && f.pc.DrainLock?) && !(f.ForceCall? && f.forcePc.ForceLock?)
    ensures StepFrame(s, i, f, ch).history.batches == s.history.batches
  {
  }

  /** The batch a step takes, counted for the job. */
  ghost predicate TakesOne(s: State, batches: seq<Taken>, name: string) {
    batches == s.history.batches + [Taken(name, Pending(s.sh, name))]
  }

  lemma DrainTakesBatch(s: State, i: nat, f: Frame)
    requires f.RunCall? && f.pc.DrainLock?
    ensures var after := StepDrain(s, i, f).history.batches;
      && (forall name :: IsNext(s.sh, s.config, f.job, name) ==> TakesOne(s, after, name))
      && ((forall name :: !IsNext(s.sh, s.config, f.job, name)) ==> after == s.history.batches)
  {
    forall name
      ensures DrainPick(s.sh, s.config, f.job) == Some(name) <==> IsNext(s.sh, s.config, f.job, name)
    {
      DrainPickIsNext(s.sh, s.config, f.job, name);
    }
    hide IsNext;
  }

  lemma NextIsPending(sh: Shared, c: Config, finished: Job, name: string)
    requires IsNext(sh, c, finished, name)
    ensures Pending(sh, name) > 0
  {
  }

  /** One batch of whatever job the step takes, and none when it takes none. */
  ghost predicate BatchesAsTaken(s: State, a: Action, after: seq<Taken>) {
    && (forall name :: Takes(s, a, name) || Forces(s, a, name) ==> TakesOne(s, after, name))
    && ((forall name :: !Takes(s, a, name) && !Forces(s, a, name)) ==> after == s.history.batches)
  }

  lemma GoTakesBatch(s: State, i: nat, ch: Choice)
    requires i < |s.frames|
    ensures BatchesAsTaken(s, Go(i, ch), StepFrame(s, i, s.frames[i], ch).history.batches)
  {
    hide StepDrain, IsNext;
    var f := s.frames[i];
    if f.RunCall? && f.pc.DrainLock? {
      DrainTakesBatch(s, i, f);
      forall name | IsNext(s.sh, s.config, f.job, name)
        ensures Takes(s, Go(i, ch), name)
      {
        NextIsPending(s.sh, s.config, f.job, name);
      }
    } else if f.ForceCall? && f.forcePc.ForceLock? {
      assert Forces(s, Go(i, ch), f.job.name);
    } else {
      OthersTakeNothing(s, i, f, ch);
    }
  }

  lemma FireTakesBatch(s: State, t: nat)
    requires t < |s.sh.wheel|
    ensures BatchesAsTaken(s, Fire(t), StepFire(s, t).history.batches)
  {
    assert FireShared(s, t).1 > 0 ==> Takes(s, Fire(t), s.sh.wheel[t].name);
  }

  /** What is taken is one batch of the job with the whole count; only a forced run makes one of nothing. */
  lemma TakingsAreBatches(s: State, a: Action)
    requires Enabled(s, a)
    ensures BatchesAsTaken(s, a, Perform(s, a).history.batches)
  {
    match a
    case Go(i, ch) =>
      hide BatchesAsTaken;
      GoTakesBatch(s, i, ch);
    case Fire(t) =>
      hide BatchesAsTaken;
      FireTakesBatch(s, t);
    case _ =>
  }

  // Who adds.

  /** A debounced trigger of the job is counted, or a denied call of it counts its own. */
  predicate Adds(s: State, a: Action, name: string) {
    && a.Go? && a.frame < |s.frames|
    && var f := s.frames[a.frame];
      || (f.TriggerCall? && f.triggerPc.TriggerLock? && f.job.name == name)
      || (f.RunCall? && f.pc.Requeue? && f.job.name == name)
  }

  /** A step raises a job's count exactly then, and by one. */
  lemma RaisesIff(s: State, a: Action, name: string)
    requires Enabled(s, a)
    ensures Pending(Perform(s, a).sh, name) > Pending(s.sh, name) <==> Adds(s, a, name)
    ensures Adds(s, a, name) ==> Pending(Perform(s, a).sh, name) == Pending(s.sh, name) + 1
  {
    hide DrainPick;
    match a
    case Go(i, ch) =>
      var f := s.frames[i];
      if f.RunCall? && f.pc.DrainLock? {
        DrainLowersIff(s, i, f, name);
      } else if !TakesOrAdds(f) {
        OtherStepsKeepBooks(s, i, f, ch);
      }
    case _ =>
  }

  /** A denied call goes on to count a trigger exactly when its job has a debounce; otherwise it returns. */
  lemma DeniedCountsIff(s: State, i: nat, ch: Choice)
    requires i < |s.frames| && s.frames[i].RunCall? && s.frames[i].pc.Acquire? && AcquireDenial(s.sh, s.frames[i].job).Some?
    ensures var f, g := s.frames[i], Perform(s, Go(i, ch)).frames[i];
      && g.RunCall? && g.job == f.job
      && (g.pc.Requeue? <==> f.job.debounce.Parsed? && f.job.debounce.nanos > 0)
      && (g.pc.Requeue? || g.pc.Returned?)
  {
  }

  // Drain mode.

  /** A drain or a forced run that has read the drain flag and is about to take the lock. */
  predicate AtLock(f: Frame) {
    (f.RunCall? && f.pc.DrainLock?) || (f.ForceCall? && f.forcePc.ForceLock?)
  }

  lemma NoneGetsToTheLock(s: State, i: nat, f: Frame, ch: Choice)
    requires s.draining
    ensures !AtLock(StepFrame(s, i, f, ch).own)
  {
  }

  /** In drain mode no step brings anybody to the lock, and only who is there already takes. */
  lemma DrainModeLocksOut(s: State, a: Action)
    requires s.draining && Enabled(s, a)
    ensures var frames := Perform(s, a).frames;
      forall k :: 0 <= k < |frames| && AtLock(frames[k]) ==> k < |s.frames| && frames[k] == s.frames[k]
    ensures forall name :: Takes(s, a, name) ==> a.Go? && AtLock(s.frames[a.frame])
  {
    FramesAfter(s, a);
    if a.Go? {
      NoneGetsToTheLock(s, a.frame, s.frames[a.frame], a.choice);
    }
  }

  ghost predicate NobodyAtLock(s: State) {
    forall k :: 0 <= k < |s.frames| ==> !AtLock(s.frames[k])
  }

  /** With nobody at the lock no pending count falls until Resume. */
  lemma {:induction false} DrainKeepsPending(s: State, es: seq<Event>, name: string)
    requires s.draining && NobodyAtLock(s) && Legal(s, es) && NoResume(es)
    ensures Pending(Exec(s, es).sh, name) >= Pending(s.sh, name)
    decreases |es|
  {
    if es != [] {
      var now := s.(now := es[0].at);
      assert !Resumes(es[0].action);
      DrainModeLocksOut(now, es[0].action);
      LowersIff(now, es[0].action, name);
      StepStaysDraining(now, es[0].action);
      DrainKeepsPending(Apply(s, es[0]), es[1..], name);
    }
  }
}
