/** Every accepted debounced trigger is answered by a run of its job that acquired after it. */
module Delivery {
  import opened Prelude
  import opened JobConfig
  import opened RunnerState
  import opened Protocol
  import opened FixedConfig
  import opened Debounce
  import opened Intervals
  import opened Conservation
  import opened KnownJobs
  import opened Stranding
  import opened Schedules
  import opened Quiescence
  import opened Outcomes
  import opened Restarts

  /** On its way to acquiring for the job, or to starting a call that is. */
  predicate Carries(f: Frame, name: string) {
    match f
    case FireCall(n, _, _, done) => !done && n == name
    case RunCall(job, _, _, _, pc, _, _) =>
      || (job.name == name && (pc.CheckDisabled? || pc.CheckDrain? || pc.Acquire? || pc.Requeue?))
      || (pc.DrainLookup? && pc.name == name)
    case _ => false
  }

  predicate RanSince(f: Frame, name: string, step: nat) {
    f.RunCall? && f.job.name == name && f.times.acquired.Some? && f.times.acquired.value.step > step
  }

  predicate Answers(f: Frame, name: string, step: nat) {
    Carries(f, name) || RanSince(f, name, step)
  }

  /** The last accepted trigger of the job is still pending, being carried, or answered. */
  ghost predicate Served(s: State, name: string)
    requires name in s.history.acceptedAt
  {
    Pending(s.sh, name) > 0 || exists i :: 0 <= i < |s.frames| && Answers(s.frames[i], name, s.history.acceptedAt[name])
  }

  ghost predicate AllServed(c: Config, s: State) {
    && (forall i :: 0 <= i < |s.frames| ==> AcceptsDebounced(s.frames[i]))
    && (forall n :: n in s.history.acceptedAt ==>
          s.history.acceptedAt[n] < s.step && IsDebounced(c, n) && Served(s, n))
  }

  lemma RunKeepsJob(s: State, i: nat, f: Frame, ch: Choice)
    requires f.RunCall?
    ensures StepRun(s, i, f, ch).own.RunCall? && StepRun(s, i, f, ch).own.job == f.job
  {
  }

  /** A carrier's step passes the trigger on. */
  lemma RunCarriesOn(c: Config, s: State, i: nat, f: Frame, ch: Choice, name: string, at: nat)
    requires f.RunCall? && Answers(f, name, at) && at < s.step && IsDebounced(c, name)
    requires s.config == c && !s.draining && s.sh.disabled == {} && Known(c, f.job) && f.pc != Returned
    ensures var e := StepRun(s, i, f, ch);
      || Answers(e.own, name, at) || Pending(e.sh, name) > 0
      || (e.spawned.Some? && Answers(e.spawned.value, name, at))
  {
    if RanSince(f, name, at) {
      RunKeepsStarted(s, i, f, ch);
      RunKeepsJob(s, i, f, ch);
    }
  }

  /** A count that disappears is carried by whoever took it. */
  lemma TakerCarries(s: State, i: nat, f: Frame, ch: Choice, name: string)
    requires Pending(s.sh, name) > 0 && Pending(StepFrame(s, i, f, ch).sh, name) == 0
    ensures var e := StepFrame(s, i, f, ch);
      Carries(e.own, name) || (e.spawned.Some? && Carries(e.spawned.value, name))
  {
    if !TakesOrAdds(f) {
      OtherStepsKeepBooks(s, i, f, ch);
    } else if f.RunCall? && f.pc.DrainLock? {
    } else if f.ForceCall? {
    } else {
    }
  }

  lemma AcceptanceUnchanged(s: State, i: nat, f: Frame, ch: Choice)
    requires !(f.TriggerCall? && f.triggerPc.TriggerLock?)
    ensures StepFrame(s, i, f, ch).history.acceptedAt == s.history.acceptedAt
    ensures AcceptsDebounced(f) ==> AcceptsDebounced(StepFrame(s, i, f, ch).own)
  {
  }

  /** A step of goroutine i that accepts nothing. */
  lemma GoKeepsServed(c: Config, s: State, i: nat, ch: Choice, name: string)
    requires Calm(c, s) && AllServed(c, s) && i < |s.frames| && Runnable(s, i, ch)
    requires !(s.frames[i].TriggerCall? && s.frames[i].triggerPc.TriggerLock?)
    requires name in s.history.acceptedAt
    ensures var s' := Commit(s, i, StepFrame(s, i, s.frames[i], ch));
      s'.history.acceptedAt == s.history.acceptedAt && Served(s', name)
  {
    var f := s.frames[i];
    var e := StepFrame(s, i, f, ch);
    var s' := Commit(s, i, e);
    var at := s.history.acceptedAt[name];
    AcceptanceUnchanged(s, i, f, ch);
    assert KnownFrame(c, f);
    if Pending(s'.sh, name) == 0 {
      if Pending(s.sh, name) > 0 {
        TakerCarries(s, i, f, ch, name);
        assert Answers(s'.frames[i], name, at) || Answers(s'.frames[|s.frames|], name, at);
      } else {
        var k :| 0 <= k < |s.frames| && Answers(s.frames[k], name, at);
        if k == i {
          if f.RunCall? {
            RunCarriesOn(c, s, i, f, ch, name, at);
          }
          assert Answers(s'.frames[i], name, at) || Answers(s'.frames[|s.frames|], name, at);
        } else {
          assert Answers(s'.frames[k], name, at);
        }
      }
    }
  }

  lemma FireKeepsServed(c: Config, s: State, t: nat, name: string)
    requires AllServed(c, s) && t < |s.sh.wheel| && name in s.history.acceptedAt
    ensures StepFire(s, t).history.acceptedAt == s.history.acceptedAt && Served(StepFire(s, t), name)
  {
    var s' := StepFire(s, t);
    if Pending(s'.sh, name) == 0 {
      if Pending(s.sh, name) > 0 {
        assert Answers(s'.frames[|s.frames|], name, s.history.acceptedAt[name]);
      } else {
        var k :| 0 <= k < |s.frames| && Answers(s.frames[k], name, s.history.acceptedAt[name]);
        assert Answers(s'.frames[k], name, s.history.acceptedAt[name]);
      }
    }
  }

  lemma CallKeepsServed(c: Config, s: State, a: Action, name: string)
    requires AllServed(c, s) && name in s.history.acceptedAt && !a.Go? && !a.Fire? && KeepsCalm(c, a)
    ensures Perform(s, a).history.acceptedAt == s.history.acceptedAt && Served(Perform(s, a), name)
  {
    var s' := Perform(s, a);
    if Pending(s.sh, name) == 0 {
      var k :| 0 <= k < |s.frames| && Answers(s.frames[k], name, s.history.acceptedAt[name]);
      assert Answers(s'.frames[k], name, s.history.acceptedAt[name]);
    }
  }

  lemma AcceptCounts(s: State, f: Frame)
    requires f.TriggerCall? && f.triggerPc.TriggerLock?
    ensures var e := StepTrigger(s, f);
      && e.own == f.(triggerPc := TriggerDone(TriggerLocked(s.sh, f.job, s.now).1)) && e.spawned.None?
      && e.history.acceptedAt == s.history.acceptedAt[f.job.name := s.step]
      && (forall n :: Pending(e.sh, n) == Pending(s.sh, n) + if n == f.job.name then 1 else 0)
  {
  }

  /** Accepting a trigger makes it pending, and leaves the other jobs' triggers where they were. */
  lemma AcceptKeepsServed(c: Config, s: State, i: nat)
    requires Calm(c, s) && AllServed(c, s)
    requires i < |s.frames| && s.frames[i].TriggerCall? && s.frames[i].triggerPc.TriggerLock?
    ensures AllServed(c, Commit(s, i, StepTrigger(s, s.frames[i])))
  {
    hide StepTrigger, TriggerLocked;
    var f := s.frames[i];
    var s' := Commit(s, i, StepTrigger(s, f));
    assert KnownFrame(c, f) && AcceptsDebounced(f);
    AcceptCounts(s, f);
    forall n | n in s'.history.acceptedAt
      ensures s'.history.acceptedAt[n] < s'.step && IsDebounced(c, n) && Served(s', n)
    {
      if n != f.job.name && Pending(s.sh, n) == 0 {
        var k :| 0 <= k < |s.frames| && Answers(s.frames[k], n, s.history.acceptedAt[n]);
        assert Answers(s'.frames[k], n, s'.history.acceptedAt[n]);
      }
    }
  }

  lemma StepKeepsOneServed(c: Config, s: State, a: Action, n: string)
    requires Calm(c, s) && AllServed(c, s) && Enabled(s, a) && KeepsCalm(c, a)
    requires !(a.Go? && s.frames[a.frame].TriggerCall? && s.frames[a.frame].triggerPc.TriggerLock?)
    requires n in Perform(s, a).history.acceptedAt
    ensures n in s.history.acceptedAt && Perform(s, a).history.acceptedAt[n] == s.history.acceptedAt[n]
    ensures Served(Perform(s, a), n)
  {
    if a.Go? {
      AcceptanceUnchanged(s, a.frame, s.frames[a.frame], a.choice);
      GoKeepsServed(c, s, a.frame, a.choice, n);
    } else if a.Fire? {
      FireKeepsServed(c, s, a.timer, n);
    } else {
      CallKeepsServed(c, s, a, n);
    }
  }

  lemma StepKeepsServed(c: Config, s: State, a: Action)
    requires Calm(c, s) && AllServed(c, s) && Enabled(s, a) && KeepsCalm(c, a)
    ensures AllServed(c, Perform(s, a))
  {
    if a.Go? && s.frames[a.frame].TriggerCall? && s.frames[a.frame].triggerPc.TriggerLock? {
      AcceptKeepsServed(c, s, a.frame);
    } else {
      var s' := Perform(s, a);
      FramesAfter(s, a);
      AddedAcceptsNothing(s, a);
      if a.Go? {
        AcceptanceUnchanged(s, a.frame, s.frames[a.frame], a.choice);
      }
      forall n | n in s'.history.acceptedAt
        ensures s'.history.acceptedAt[n] < s'.step && IsDebounced(c, n) && Served(s', n)
      {
        StepKeepsOneServed(c, s, a, n);
      }
    }
  }

  lemma ServedIgnoresTheClock(c: Config, s: State, at: int)
    requires AllServed(c, s)
    ensures AllServed(c, s.(now := at))
  {
    assert forall n :: n in s.history.acceptedAt ==> Served(s, n) ==> Served(s.(now := at), n);
  }

  lemma {:induction false} RunKeepsServed(c: Config, s: State, es: seq<Event>)
    requires Orderly(c, s) && AllServed(c, s) && Legal(s, es) && CalmRun(c, es)
    ensures AllServed(c, Exec(s, es))
    decreases |es|
  {
    if es != [] {
      assert KeepsCalm(c, es[0].action);
      ClockChangesNothing(c, s, es[0].at);
      ServedIgnoresTheClock(c, s, es[0].at);
      StepKeepsServed(c, s.(now := es[0].at), es[0].action);
      StepKeepsOrderly(c, s.(now := es[0].at), es[0].action);
      RunKeepsServed(c, Apply(s, es[0]), es[1..]);
    }
  }

  /** Nothing can happen by itself, now or at any later instant. */
  ghost predicate Resting(s: State) {
    forall a, at :: s.now <= at && Internal(a) ==> !Enabled(s.(now := at), a)
  }

  lemma RestingFrames(s: State, i: nat, name: string)
    requires Resting(s) && i < |s.frames|
    ensures !WillDrain(s.frames[i]) && !Carries(s.frames[i], name)
    ensures s.frames[i].RunCall? ==> s.frames[i].pc.Returned?
  {
    assert !Enabled(s.(now := s.now), Go(i, FINE));
  }

  lemma RestingTimers(s: State, name: string)
    requires Resting(s)
    ensures !HasTimer(s, name)
  {
    forall t: nat | t < |s.sh.wheel|
      ensures s.sh.wheel[t].status == Over
    {
      var at := Max(s.now, s.sh.wheel[t].due);
      assert !Enabled(s.(now := at), Expire(t)) && !Enabled(s.(now := at), Fire(t));
    }
  }

  /** At rest what is pending is stranded. */
  lemma RestingCoversNothing(c: Config, s: State, name: string)
    requires Resting(s)
    ensures Pending(s.sh, name) > 0 <==> Stranded(c, s, name)
  {
    RestingTimers(s, name);
    forall i | 0 <= i < |s.frames|
      ensures !WillDrain(s.frames[i])
    {
      RestingFrames(s, i, name);
    }
  }

  lemma {:induction false} RunKeepsSettled(c: Config, s: State, es: seq<Event>)
    requires Settled(c, s) && Legal(s, es) && RespectsRun(c, es)
    ensures Settled(c, Exec(s, es))
    decreases |es|
  {
    if es != [] {
      assert Respects(c, es[0].action);
      StepKeepsSettled(c, s, es[0]);
      RunKeepsSettled(c, Apply(s, es[0]), es[1..]);
    }
  }

  /**
   Quiescence. After any start `es` under one configuration, whatever is switched on or off in it,
   every run `rest` of internal steps is at most as long as the weight of the state it starts in.
   */
  lemma {:induction false} EveryScheduleEnds(c: Config, disabled: set<string>, now: int, es: seq<Event>, rest: seq<Event>)
    requires Valid(c) && NoLoops(c) && Legal(Init(c, disabled, now), es) && RespectsRun(c, es)
    requires Legal(Exec(Init(c, disabled, now), es), rest) && AllInternal(rest)
    ensures |rest| <= Weight(c, Exec(Init(c, disabled, now), es))
  {
    var s := Init(c, disabled, now);
    assert PendingKnown(c, s.sh);
    RunKeepsSettled(c, s, es);
    ComesToRest(c, Exec(s, es), rest);
  }

  /**
   Call i of the job acquired after the job's last accepted trigger, and has returned: it ran its
   command to an end, or it could not write its record.
   */
  ghost predicate AnsweredBy(s: State, es: seq<Event>, i: nat, name: string) {
    var t := Exec(s, es);
    && name in t.history.acceptedAt && i < |t.frames| && RanSince(t.frames[i], name, t.history.acceptedAt[name])
    && t.frames[i].pc.Returned?
    && Found(s, es, i, t.frames[i].outcome)
  }

  ghost predicate Answered(s: State, es: seq<Event>, name: string) {
    exists i :: AnsweredBy(s, es, i, name)
  }

  /**
   Nothing is missed. When a calm run comes to rest, a trigger of the job is pending exactly when
   a late requeue of the job was never made good; and if none is, and a debounced trigger of the
   job was accepted, then a run of the job has answered the last one.
   */
  lemma {:induction false} EveryTriggerIsAnswered(c: Config, now: int, es: seq<Event>, name: string)
    requires Valid(c) && Legal(Init(c, {}, now), es) && CalmRun(c, es) && Resting(Exec(Init(c, {}, now), es))
    ensures var s := Exec(Init(c, {}, now), es);
      && (Pending(s.sh, name) > 0 <==> LeftBehind(c, Init(c, {}, now), es, name))
      && (Pending(s.sh, name) == 0 && name in s.history.acceptedAt ==> Answered(Init(c, {}, now), es, name))
  {
    var s := Exec(Init(c, {}, now), es);
    StrandedAtEndIff(c, Init(c, {}, now), es, name);
    RunKeepsServed(c, Init(c, {}, now), es);
    RestingCoversNothing(c, s, name);
    if Pending(s.sh, name) == 0 && name in s.history.acceptedAt {
      var i :| 0 <= i < |s.frames| && Answers(s.frames[i], name, s.history.acceptedAt[name]);
      RestingFrames(s, i, name);
      ReturnsWithOutcome(c, {}, now, es, i);
      assert AnsweredBy(Init(c, {}, now), es, i, name);
    }
  }

  // Maximal schedules.

  ghost predicate OneRequeuing(s: State) {
    forall i, k :: 0 <= i < |s.frames| && 0 <= k < |s.frames| && Requeuing(s.frames[i]) && Requeuing(s.frames[k]) ==> i == k
  }

  lemma PromptKeepsOneRequeuing(s: State, a: Action)
    requires OneRequeuing(s) && Enabled(s, a) && Prompt(s, a)
    ensures OneRequeuing(Perform(s, a))
  {
    FramesAfter(s, a);
    AddedIsNotRequeuing(s, a);
    if a.Go? {
      RunStopsBeforeRequeue(s, a.frame, s.frames[a.frame], a.choice);
    }
  }

  lemma {:induction false} RunKeepsOneRequeuing(s: State, es: seq<Event>)
    requires OneRequeuing(s) && Legal(s, es) && PromptRun(s, es)
    ensures OneRequeuing(Exec(s, es))
    decreases |es|
  {
    if es != [] {
      var t := s.(now := es[0].at);
      assert Prompt(t, es[0].action);
      PromptKeepsOneRequeuing(t, es[0].action);
      RunKeepsOneRequeuing(Apply(s, es[0]), es[1..]);
    }
  }

  /** No internal step may follow, denial and requeue being one step. */
  ghost predicate Maximal(s: State) {
    forall e: Event :: Internal(e.action) && Prompt(s, e.action) ==> !Can(s, e)
  }

  lemma MaximalIsResting(s: State)
    requires OneRequeuing(s) && Maximal(s)
    ensures Resting(s)
  {
    forall a, at | s.now <= at && Internal(a)
      ensures !Enabled(s.(now := at), a)
    {
      if i :| 0 <= i < |s.frames| && Requeuing(s.frames[i]) {
        var e := Event(Go(i, FINE), at);
        assert Prompt(s, e.action) && Can(s, e);
        assert false;
      } else {
        assert Prompt(s, a);
        assert !Can(s, Event(a, at));
      }
    }
  }

  /**
   After any calm start, whatever the schedule: the steps the runner takes by itself are bounded,
   and when no more can be taken it is at rest, no trigger of any job is pending, and every
   accepted debounced trigger has been answered.
   */
  lemma {:induction false} EveryScheduleAnswers(c: Config, now: int, es: seq<Event>, rest: seq<Event>)
    requires Valid(c) && NoLoops(c) && Legal(Init(c, {}, now), es) && CalmRun(c, es)
    requires Legal(Exec(Init(c, {}, now), es), rest) && AllInternal(rest) && PromptRun(Init(c, {}, now), es + rest)
    ensures |rest| <= Weight(c, Exec(Init(c, {}, now), es))
    ensures var t := Exec(Exec(Init(c, {}, now), es), rest);
      Maximal(t) ==>
        && Resting(t)
        && (forall name :: Pending(t.sh, name) == 0)
        && (forall name :: name in t.history.acceptedAt ==> Answered(Init(c, {}, now), es + rest, name))
  {
    hide Maximal, Resting;
    var s, all := Init(c, {}, now), es + rest;
    assert forall k :: 0 <= k < |es| ==> KeepsCalm(c, es[k].action) ==> Respects(c, es[k].action);
    EveryScheduleEnds(c, {}, now, es, rest);
    ExecConcat(s, es, rest);
    forall k | 0 <= k < |all|
      ensures KeepsCalm(c, all[k].action)
    {
      assert k >= |es| ==> all[k] == rest[k - |es|] && Internal(all[k].action);
    }
    var t := Exec(s, all);
    if Maximal(t) {
      RunKeepsOneRequeuing(s, all);
      MaximalIsResting(t);
      forall name
        ensures Pending(t.sh, name) == 0
        ensures name in t.history.acceptedAt ==> Answered(s, all, name)
      {
        NoStranding(c, now, all, name);
        LastIsNotStranded(c, s, all, name);
        RestingCoversNothing(c, t, name);
        EveryTriggerIsAnswered(c, now, all, name);
      }
    }
  }
}
