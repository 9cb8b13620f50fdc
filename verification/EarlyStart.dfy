/**
 Debounced batches that start before their timer is due: exactly which steps do it, and that every
 debounced job can meet both of them.
 */
module EarlyStart {
  import opened Prelude
  import opened JobConfig
  import opened RunnerState
  import opened Protocol
  import opened FixedConfig
  import opened Debounce
  import opened OneTimer
  import opened Takings
  import opened Stranding
  import opened Schedules
  import opened LateRequeue
  import opened Delivery

  /** A timer expires no earlier than it is due. */
  ghost predicate FiredIsDue(s: State) {
    forall t :: 0 <= t < |s.sh.wheel| && s.sh.wheel[t].status == Fired ==> s.sh.wheel[t].due <= s.now
  }

  predicate ForcesNow(s: State, a: Action) {
    a.Go? && a.frame < |s.frames| && s.frames[a.frame].ForceCall? && s.frames[a.frame].forcePc.ForceLock?
  }

  lemma GoKeepsFiredDue(s: State, i: nat, f: Frame, ch: Choice)
    requires FiredIsDue(s)
    ensures var wheel := StepFrame(s, i, f, ch).sh.wheel;
      forall t :: 0 <= t < |wheel| && wheel[t].status == Fired ==> wheel[t].due <= s.now
  {
    if !(f.TriggerCall? && f.triggerPc.TriggerLock?) && !(f.ForceCall? && f.forcePc.ForceLock?) {
      OthersKeepTimers(s, i, f, ch);
    }
  }

  lemma StepKeepsFiredDue(s: State, a: Action)
    requires FiredIsDue(s) && Enabled(s, a)
    ensures FiredIsDue(Perform(s, a))
  {
    match a
    case Go(i, ch) => GoKeepsFiredDue(s, i, s.frames[i], ch);
    case _ =>
  }

  lemma {:induction false} RunKeepsFiredDue(s: State, es: seq<Event>)
    requires FiredIsDue(s) && Legal(s, es)
    ensures FiredIsDue(Exec(s, es))
    decreases |es|
  {
    if es != [] {
      StepKeepsFiredDue(s.(now := es[0].at), es[0].action);
      RunKeepsFiredDue(Apply(s, es[0]), es[1..]);
    }
  }

  // Which steps are early.

  /** The step takes triggers of the job from the pending count. */
  ghost predicate TakesBatch(s: State, a: Action, name: string) {
    && Enabled(s, a)
    && var b, after := |s.history.batches|, Perform(s, a).history.batches;
      |after| > b && after[b].name == name && after[b].n > 0
  }

  /** The job's batch is booked to fire later than now. */
  predicate NotYetDue(s: State, name: string) {
    name in s.sh.firesAt && s.now < s.sh.firesAt[name]
  }

  /** A drain picks the job although its timer runs. */
  ghost predicate DrainsEarly(s: State, a: Action, name: string) {
    && a.Go? && a.frame < |s.frames| && s.frames[a.frame].RunCall? && s.frames[a.frame].pc.DrainLock?
    && DrainPick(s.sh, s.config, s.frames[a.frame].job) == Some(name) && NotYetDue(s, name)
  }

  /** The callback of a timer that is no longer the job's takes the batch of the one that is. */
  ghost predicate FiresStale(s: State, a: Action, name: string) {
    && a.Fire? && a.timer < |s.sh.wheel| && s.sh.wheel[a.timer].name == name
    && name in s.sh.timers && a.timer != s.sh.timers[name]
    && name !in s.sh.running && !s.draining && Pending(s.sh, name) > 0 && NotYetDue(s, name)
  }

  lemma FireTakesEarlyIff(s: State, t: nat, name: string)
    requires Booked(s.sh) && FiredIsDue(s) && Enabled(s, Fire(t))
    ensures TakesBatch(s, Fire(t), name) && NotYetDue(s, name) <==> FiresStale(s, Fire(t), name)
  {
    if NotYetDue(s, name) {
      assert IsReal(s.sh, name);
    }
  }

  lemma GoTakesIff(s: State, i: nat, ch: Choice, name: string)
    requires i < |s.frames| && Runnable(s, i, ch) && !ForcesNow(s, Go(i, ch))
    ensures TakesBatch(s, Go(i, ch), name) <==>
      s.frames[i].RunCall? && s.frames[i].pc.DrainLock? && DrainPick(s.sh, s.config, s.frames[i].job) == Some(name)
  {
    var f := s.frames[i];
    if f.RunCall? && f.pc.DrainLock? {
      FirstWaitingIs(s.sh, Candidates(s.config, f.job));
    } else {
      OthersTakeNothing(s, i, f, ch);
    }
  }

  /**
   In every reachable state: a step other than a forced run takes a batch whose timer is not yet
   due exactly when it is a drain that picks the job, or the callback of another timer of the job.
   The job's own timer is never early.
   */
  lemma {:induction false} TakesEarlyIff(c: Config, disabled: set<string>, now: int, es: seq<Event>, e: Event, name: string)
    requires Legal(Init(c, disabled, now), es) && Can(Exec(Init(c, disabled, now), es), e)
    requires !ForcesNow(Exec(Init(c, disabled, now), es), e.action)
    ensures var s := Exec(Init(c, disabled, now), es).(now := e.at);
      && FiredIsDue(s)
      && (TakesBatch(s, e.action, name) && NotYetDue(s, name)
          <==> DrainsEarly(s, e.action, name) || FiresStale(s, e.action, name))
  {
    RunKeepsBooked(Init(c, disabled, now), es);
    RunKeepsFiredDue(Init(c, disabled, now), es);
    var s := Exec(Init(c, disabled, now), es).(now := e.at);
    match e.action
    case Go(i, ch) => GoTakesIff(s, i, ch, name);
    case Fire(t) => FireTakesEarlyIff(s, t, name);
    case _ =>
  }

  /**
   While no callback has dropped an armed timer's entry, every callback that is early is one of a
   timer that had expired while it was still the job's: replacing or removing it came too late.
   */
  lemma {:induction false} StaleHadExpired(c: Config, disabled: set<string>, now: int, es: seq<Event>, e: Event, name: string)
    requires Legal(Init(c, disabled, now), es) && NeverDropsArmed(Init(c, disabled, now), es)
    requires Can(Exec(Init(c, disabled, now), es), e)
    requires FiresStale(Exec(Init(c, disabled, now), es).(now := e.at), e.action, name)
    ensures exists k: nat :: ExpiresMapped(Init(c, disabled, now), es, k, name, e.action.timer)
  {
    FiredWhileMapped(Init(c, disabled, now), es, e.action.timer);
  }

  // Runs that do it.

  ghost predicate SwitchedOn(s: State) {
    !s.draining && s.sh.disabled == {}
  }

  /** A debounced trigger is called from outside and counted. */
  lemma TriggerNow(c: Config, s: State, es: seq<Event>, t: State, job: Job) returns (fs: seq<Event>, u: State)
    requires Comes(c, s, es, t) && SwitchedOn(t) && Known(c, job) && DebounceDur(job) > 0
    ensures Comes(c, s, fs, u) && u.now == t.now && u.draining == t.draining && u.config == t.config
    ensures u.sh == TriggerLocked(t.sh, job, t.now).0
    ensures u.frames == t.frames + [TriggerCall(job, TriggerDone(TriggerLocked(t.sh, job, t.now).1))]
  {
    var i := |t.frames|;
    var t1, t2, gs;
    fs, t1 := ThenOutside(c, s, es, t, Event(CallTrigger(job), t.now));
    assert t1.frames == t.frames + [TriggerCall(job, TriggerDisabled)] && t1.sh == t.sh && t1.now == t.now;
    Nowhere(t1);
    gs, t2 := Go1(t1, [], t1, i, FINE);
    gs, t2 := Go1(t1, gs, t2, i, FINE);
    gs, u := Go1(t1, gs, t2, i, FINE);
    ThenInside(c, s, fs, t1, gs, u);
    fs := fs + gs;
  }

  /** A run is forced from outside; its call is left at its beginning. */
  lemma ForceNow(c: Config, s: State, es: seq<Event>, t: State, job: Job) returns (fs: seq<Event>, u: State)
    requires Comes(c, s, es, t) && SwitchedOn(t) && Known(c, job)
    ensures Comes(c, s, fs, u) && u.now == t.now && u.draining == t.draining && u.config == t.config
    ensures u.sh == ForceLocked(t.sh, job.name).0
  {
    var i := |t.frames|;
    var t1, t2, gs;
    fs, t1 := ThenOutside(c, s, es, t, Event(CallForce(job), t.now));
    assert t1.frames == t.frames + [ForceCall(job, ForceDrain)] && t1.sh == t.sh && t1.now == t.now;
    Nowhere(t1);
    gs, t2 := Go1(t1, [], t1, i, FINE);
    gs, u := Go1(t1, gs, t2, i, FINE);
    ThenInside(c, s, fs, t1, gs, u);
    fs := fs + gs;
  }

  lemma FirstDelay(job: Job, at: int)
    requires DebounceDur(job) > 0
    ensures Delay(job, at, at) > 0
  {
  }

  /** A calm run that can be followed by an early drain of the job. */
  ghost predicate CanDrainEarly(c: Config, job: Job, now: int, es: seq<Event>, e: Event) {
    && Legal(Init(c, {}, now), es) && CalmRun(c, es) && KeepsCalm(c, e.action)
    && var s := Exec(Init(c, {}, now), es);
      Can(s, e) && DrainsEarly(s.(now := e.at), e.action, job.name) && TakesBatch(s.(now := e.at), e.action, job.name)
  }

  /** The job's own run has released and not drained yet. */
  lemma ReleasedOnly(c: Config, job: Job, now: int) returns (es: seq<Event>, t: State)
    requires Known(c, job)
    ensures Comes(c, Init(c, {}, now), es, t) && t.now == now && t.config == c && SwitchedOn(t)
    ensures |t.frames| == 1 && t.frames[0].RunCall? && t.frames[0].job == job && t.frames[0].pc.DrainLock?
    ensures t.sh.running == {} && t.sh.groupBusy == {} && t.sh.firstAt == map[]
  {
    hide Comes, Leads;
    var s := Init(c, {}, now);
    var t0, t1, fs;
    ComesNowhere(c, s);
    es, t0 := ThenOutside(c, s, [], s, Event(CallRun(job), now));
    fs, t1 := ToCommand(t0, 0);
    ThenInside(c, s, es, t0, fs, t1);
    es := es + fs;
    fs, t := ToDrain(t1, 0, Success);
    ThenInside(c, s, es, t1, fs, t);
    es := es + fs;
  }

  /** Every debounced job: a trigger comes in between the release and the drain of the job's own run. */
  lemma DrainCanBeEarly(c: Config, job: Job, now: int)
    requires Valid(c) && Known(c, job) && DebounceDur(job) > 0
    ensures exists es, e :: CanDrainEarly(c, job, now, es, e)
  {
    var es, t := ReleasedOnly(c, job, now);
    var fs, u := TriggerNow(c, Init(c, {}, now), es, t, job);
    FirstDelay(job, now);
    assert Waits(u.sh, job.name) && Candidates(c, job)[0] == job.name;
    var e := Event(Go(0, FINE), now);
    assert u.(now := now) == u && u.frames[0] == t.frames[0];
    assert DrainsEarly(u, e.action, job.name);
    GoTakesIff(u, 0, FINE, job.name);
    assert CanDrainEarly(c, job, now, fs, e);
  }

  /** A calm run that can be followed by a stale callback taking the job's batch early. */
  ghost predicate CanFireStale(c: Config, job: Job, now: int, es: seq<Event>, e: Event) {
    && Legal(Init(c, {}, now), es) && CalmRun(c, es) && KeepsCalm(c, e.action)
    && var s := Exec(Init(c, {}, now), es);
      Can(s, e) && FiresStale(s.(now := e.at), e.action, job.name) && TakesBatch(s.(now := e.at), e.action, job.name)
  }

  /** A timer of the job has expired, and a forced run has lost the race to stop it. */
  lemma ExpiredThenForced(c: Config, job: Job, now: int) returns (es: seq<Event>, t: State)
    requires Known(c, job) && DebounceDur(job) > 0
    ensures Comes(c, Init(c, {}, now), es, t) && SwitchedOn(t) && t.sh.running == {}
    ensures |t.sh.wheel| == 1 && t.sh.wheel[0].name == job.name && t.sh.wheel[0].status == Fired
    ensures job.name !in t.sh.firstAt && job.name !in t.sh.timers
  {
    hide Comes;
    var s := Init(c, {}, now);
    var t1, t2;
    ComesNowhere(c, s);
    es, t1 := TriggerNow(c, s, [], s, job);
    FirstDelay(job, now);
    var due := now + Delay(job, now, now);
    assert t1.sh.wheel == [Timer(job.name, due, Armed)];
    es, t2 := ThenOutside(c, s, es, t1, Event(Expire(0), due));
    assert t2.sh.wheel == [Timer(job.name, due, Fired)];
    es, t := ForceNow(c, s, es, t2, job);
  }

  /** Every debounced job: a new batch begins while the old timer's callback is still to come. */
  lemma StaleCanBeEarly(c: Config, job: Job, now: int)
    requires Valid(c) && Known(c, job) && DebounceDur(job) > 0
    ensures exists es, e :: CanFireStale(c, job, now, es, e)
  {
    var es, t := ExpiredThenForced(c, job, now);
    var fs, u := TriggerNow(c, Init(c, {}, now), es, t, job);
    FirstDelay(job, t.now);
    assert u.sh.wheel[0] == t.sh.wheel[0] && u.sh.timers[job.name] == 1;
    var e := Event(Fire(0), u.now);
    assert u.(now := u.now) == u;
    assert FiresStale(u, e.action, job.name) && TakesBatch(u, e.action, job.name);
    assert CanFireStale(c, job, now, fs, e);
  }

  /** A calm run at whose end a timer of the job is armed and no entry names it. */
  ghost predicate CanForgetArmed(c: Config, job: Job, now: int, es: seq<Event>) {
    && Legal(Init(c, {}, now), es) && CalmRun(c, es)
    && var sh := Exec(Init(c, {}, now), es).sh;
      exists t :: 0 <= t < |sh.wheel| && sh.wheel[t].name == job.name && sh.wheel[t].status == Armed && !Maps(sh, job.name, t)
  }

  /** Every debounced job: the stale callback drops the entry of the new batch's timer, which stays armed. */
  lemma StaleForgetsArmed(c: Config, job: Job, now: int)
    requires Valid(c) && Known(c, job) && DebounceDur(job) > 0
    ensures exists es :: CanForgetArmed(c, job, now, es)
  {
    var es, t := ExpiredThenForced(c, job, now);
    var fs, u := TriggerNow(c, Init(c, {}, now), es, t, job);
    assert u.sh.wheel[0] == t.sh.wheel[0] && u.sh.timers[job.name] == 1 && u.sh.wheel[1].status == Armed;
    var gs, v := ThenOutside(c, Init(c, {}, now), fs, u, Event(Fire(0), u.now));
    assert v.sh.wheel[1] == u.sh.wheel[1] && !Maps(v.sh, job.name, 1);
    assert CanForgetArmed(c, job, now, gs);
  }

  // Which configurations are safe from it.

  /** Nothing is ever booked. */
  ghost predicate NothingBooked(s: State) {
    s.sh.firesAt == map[] && s.sh.wheel == [] && forall i :: 0 <= i < |s.frames| ==> AcceptsDebounced(s.frames[i])
  }

  lemma StepBooksNothing(c: Config, s: State, a: Action)
    requires NothingDebounced(c) && Fixed(c, s) && NothingBooked(s) && Enabled(s, a)
    ensures NothingBooked(Perform(s, a))
  {
    FramesAfter(s, a);
    AddedAcceptsNothing(s, a);
    match a
    case Go(i, ch) =>
      var f := s.frames[i];
      assert KnownFrame(c, f) && AcceptsDebounced(f);
      assert f.TriggerCall? ==> f.job in c.jobs;
      AcceptanceUnchanged(s, i, f, ch);
      if f.ForceCall? && f.forcePc.ForceLock? {
        ForceForgets(s, f);
      } else {
        OthersKeepTimers(s, i, f, ch);
      }
    case Fire(t) => FireForgets(s, t);
    case _ => EnvironmentKeepsMaps(s, a);
  }

  lemma {:induction false} RunBooksNothing(c: Config, s: State, es: seq<Event>)
    requires NothingDebounced(c) && Fixed(c, s) && NothingBooked(s) && Legal(s, es) && CalmRun(c, es)
    ensures NothingBooked(Exec(s, es))
    decreases |es|
  {
    if es != [] {
      var t := s.(now := es[0].at);
      assert KeepsCalm(c, es[0].action);
      StepBooksNothing(c, t, es[0].action);
      StepKeepsFixed(c, t, es[0].action);
      RunBooksNothing(c, Apply(s, es[0]), es[1..]);
    }
  }

  /** In no calm run does a step other than a forced run take a batch before its timer is due. */
  ghost predicate NeverEarly(c: Config, now: int) {
    forall es, e, name ::
      Legal(Init(c, {}, now), es) && CalmRun(c, es) && Can(Exec(Init(c, {}, now), es), e) && KeepsCalm(c, e.action)
      && !ForcesNow(Exec(Init(c, {}, now), es), e.action) ==>
        var s := Exec(Init(c, {}, now), es).(now := e.at);
        !(TakesBatch(s, e.action, name) && NotYetDue(s, name))
  }

  /** A valid configuration is safe exactly when it debounces nothing. */
  lemma NeverEarlyIff(c: Config, now: int)
    requires Valid(c)
    ensures NeverEarly(c, now) <==> NothingDebounced(c)
  {
    if NothingDebounced(c) {
      forall es | Legal(Init(c, {}, now), es) && CalmRun(c, es)
        ensures NothingBooked(Exec(Init(c, {}, now), es))
      {
        RunBooksNothing(c, Init(c, {}, now), es);
      }
    } else {
      var job :| job in c.jobs && DebounceDur(job) > 0;
      LookupIsMembership(c, job);
      DrainCanBeEarly(c, job, now);
      var es, e :| CanDrainEarly(c, job, now, es, e);
      assert !NeverEarly(c, now);
    }
  }

  /** In no calm run is there an armed timer that no entry names. */
  ghost predicate NeverForgetsArmed(c: Config, now: int) {
    forall es :: Legal(Init(c, {}, now), es) && CalmRun(c, es) ==> AllMapped(Exec(Init(c, {}, now), es).sh)
  }

  lemma NeverForgetsArmedIff(c: Config, now: int)
    requires Valid(c)
    ensures NeverForgetsArmed(c, now) <==> NothingDebounced(c)
  {
    if NothingDebounced(c) {
      forall es | Legal(Init(c, {}, now), es) && CalmRun(c, es)
        ensures AllMapped(Exec(Init(c, {}, now), es).sh)
      {
        RunBooksNothing(c, Init(c, {}, now), es);
      }
    } else {
      var job :| job in c.jobs && DebounceDur(job) > 0;
      LookupIsMembership(c, job);
      StaleForgetsArmed(c, job, now);
      var es :| CanForgetArmed(c, job, now, es);
      assert !AllMapped(Exec(Init(c, {}, now), es).sh);
    }
  }
}
