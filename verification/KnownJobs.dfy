/** Under one configuration every pending count and every batch is for one of its jobs. */
module KnownJobs {
  import opened JobConfig
  import opened RunnerState
  import opened Protocol
  import opened FixedConfig
  import opened Conservation

  ghost predicate PendingKnown(c: Config, sh: Shared) {
    forall n :: Pending(sh, n) > 0 ==> Declares(c.jobs, n)
  }

  lemma KnownIsDeclared(c: Config, job: Job)
    requires Known(c, job)
    ensures Declares(c.jobs, job.name)
  {
    assert exists k :: 0 <= k < |c.jobs| && c.jobs[k] == job;
  }

  /** Pending counts grow only for jobs of the configuration. */
  lemma PendingGrowsForOwn(s: State, i: nat, f: Frame, ch: Choice, n: string)
    requires Pending(StepFrame(s, i, f, ch).sh, n) > Pending(s.sh, n)
    ensures (f.RunCall? || f.TriggerCall?) && f.job.name == n
  {
    if !TakesOrAdds(f) {
      OtherStepsKeepBooks(s, i, f, ch);
    } else if f.RunCall? && f.pc.DrainLock? {
    } else if f.ForceCall? {
    } else {
    }
  }

  lemma StepKeepsPendingKnown(c: Config, s: State, a: Action)
    requires Fixed(c, s) && PendingKnown(c, s.sh) && Enabled(s, a)
    ensures PendingKnown(c, Perform(s, a).sh)
  {
    forall n | Pending(Perform(s, a).sh, n) > 0
      ensures Declares(c.jobs, n)
    {
      if Pending(s.sh, n) == 0 && a.Go? {
        PendingGrowsForOwn(s, a.frame, s.frames[a.frame], a.choice, n);
        assert KnownFrame(c, s.frames[a.frame]);
        KnownIsDeclared(c, s.frames[a.frame].job);
      }
    }
  }

  // No batch is lost.

  predicate HandKnown(c: Config, f: Frame) {
    InHand(f).Some? ==> Lookup(c, InHand(f).value.0).Some?
  }

  /** No batch was dropped, and none in hand can be. */
  ghost predicate NothingLost(c: Config, s: State) {
    && (forall b :: 0 <= b < |s.history.fates| ==> !s.history.fates[b].Dropped?)
    && (forall i :: 0 <= i < |s.frames| ==> HandKnown(c, s.frames[i]))
  }

  /** What is taken in hand was pending, so it is known. */
  lemma StepTakesKnown(c: Config, s: State, i: nat, f: Frame, ch: Choice)
    requires s.config == c && PendingKnown(c, s.sh) && HandKnown(c, f) && !(f.FireCall? && f.done)
    ensures HandKnown(c, StepFrame(s, i, f, ch).own)
    ensures StepFrame(s, i, f, ch).spawned.Some? ==> HandKnown(c, StepFrame(s, i, f, ch).spawned.value)
  {
    if !HandsOver(f) {
      OtherStepsArePassive(s, i, f, ch);
    } else if f.RunCall? && f.pc.DrainLock? {
      FirstWaitingIs(s.sh, Candidates(c, f.job));
    }
  }

  lemma StepDropsNothing(c: Config, s: State, i: nat, f: Frame, ch: Choice)
    requires s.config == c && HandKnown(c, f) && !(f.FireCall? && f.done)
    requires forall b :: 0 <= b < |s.history.fates| ==> !s.history.fates[b].Dropped?
    ensures var fates := StepFrame(s, i, f, ch).history.fates;
      forall b :: 0 <= b < |fates| ==> !fates[b].Dropped?
  {
    if !HandsOver(f) {
      OtherStepsArePassive(s, i, f, ch);
    }
  }

  lemma StepLosesNothing(c: Config, s: State, a: Action)
    requires Fixed(c, s) && PendingKnown(c, s.sh) && NothingLost(c, s) && Enabled(s, a) && Respects(c, a)
    ensures NothingLost(c, Perform(s, a))
  {
    FramesAfter(s, a);
    if a.Go? {
      assert HandKnown(c, s.frames[a.frame]);
      StepTakesKnown(c, s, a.frame, s.frames[a.frame], a.choice);
      StepDropsNothing(c, s, a.frame, s.frames[a.frame], a.choice);
    }
  }

  lemma {:induction false} RunLosesNothing(c: Config, s: State, es: seq<Event>)
    requires Fixed(c, s) && PendingKnown(c, s.sh) && NothingLost(c, s) && Legal(s, es) && RespectsRun(c, es)
    ensures NothingLost(c, Exec(s, es))
    decreases |es|
  {
    if es != [] {
      var now := s.(now := es[0].at);
      assert Respects(c, es[0].action);
      StepLosesNothing(c, now, es[0].action);
      StepKeepsPendingKnown(c, now, es[0].action);
      StepKeepsFixed(c, now, es[0].action);
      RunLosesNothing(c, Apply(s, es[0]), es[1..]);
    }
  }

  /** While one configuration stays in force no batch is ever dropped, whatever is switched on or off. */
  lemma {:induction false} NothingIsDropped(c: Config, disabled: set<string>, now: int, es: seq<Event>)
    requires Legal(Init(c, disabled, now), es) && RespectsRun(c, es)
    ensures var fates := Exec(Init(c, disabled, now), es).history.fates;
      forall b :: 0 <= b < |fates| ==> !fates[b].Dropped?
  {
    RunLosesNothing(c, Init(c, disabled, now), es);
  }
}
