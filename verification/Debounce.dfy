/** The debounce bookkeeping: three maps in step with the runtime's timers, and when a batch fires. */
module Debounce {
  import opened Prelude
  import opened JobConfig
  import opened RunnerState
  import opened Protocol
  import opened FixedConfig

  /** The mapped timer is real: made for that job and instant, and its callback has not taken the lock yet. */
  predicate IsReal(sh: Shared, n: string) {
    && n in sh.timers && n in sh.firesAt
    && sh.timers[n] < |sh.wheel|
    && sh.wheel[sh.timers[n]].name == n
    && sh.wheel[sh.timers[n]].status != Over
    && sh.wheel[sh.timers[n]].due == sh.firesAt[n]
  }

  ghost predicate Booked(sh: Shared) {
    && sh.timers.Keys == sh.firesAt.Keys == sh.firstAt.Keys
    && (forall n :: n in sh.timers ==> IsReal(sh, n))
  }

  lemma TriggerKeepsBooked(sh: Shared, job: Job, now: int)
    requires Booked(sh)
    ensures Booked(TriggerLocked(sh, job, now).0)
  {
    hide Delay, FirstOf;
    var sh' := TriggerLocked(sh, job, now).0;
    if job.name !in sh.running {
      assert sh'.timers.Keys == sh.timers.Keys + {job.name};
      assert sh'.firesAt.Keys == sh.firesAt.Keys + {job.name};
      assert sh'.firstAt.Keys == sh.firstAt.Keys + {job.name};
      forall n | n in sh'.timers
        ensures IsReal(sh', n)
      {
        assert n != job.name ==> IsReal(sh, n);
      }
    }
  }

  lemma ForgetKeepsBooked(sh: Shared, name: string)
    requires Booked(sh)
    ensures Booked(Forget(sh, name)) && name !in Forget(sh, name).timers && Forget(sh, name).wheel == sh.wheel
  {
    forall n | n in Forget(sh, name).timers
      ensures IsReal(Forget(sh, name), n)
    {
      assert IsReal(sh, n);
    }
  }

  lemma FireKeepsBooked(s: State, t: nat)
    requires Booked(s.sh) && t < |s.sh.wheel|
    ensures Booked(FireShared(s, t).0)
  {
    hide Forget;
    var name := s.sh.wheel[t].name;
    var cleared, sh' := Forget(s.sh, name), FireShared(s, t).0;
    ForgetKeepsBooked(s.sh, name);
    forall n | n in sh'.timers
      ensures IsReal(sh', n)
    {
      assert n != name && IsReal(cleared, n);
    }
  }

  lemma ForceKeepsBooked(sh: Shared, name: string)
    requires Booked(sh)
    ensures Booked(ForceLocked(sh, name).0)
  {
    var sh' := ForceLocked(sh, name).0;
    forall n | n in sh'.timers
      ensures IsReal(sh', n)
    {
      assert IsReal(sh, n);
    }
  }

  predicate SameMaps(sh: Shared, sh': Shared) {
    sh'.timers == sh.timers && sh'.firesAt == sh.firesAt && sh'.firstAt == sh.firstAt
  }

  predicate SameTimers(sh: Shared, sh': Shared) {
    SameMaps(sh, sh') && sh'.wheel == sh.wheel
  }

  lemma DrainKeepsTimers(s: State, i: nat, f: Frame)
    requires f.RunCall?
    ensures SameTimers(s.sh, StepDrain(s, i, f).sh)
  {
    hide DrainPick;
    assert SameTimers(s.sh, DrainLocked(s.sh, s.config, f.job).0);
  }

  lemma ExecuteKeepsTimers(s: State, i: nat, f: Frame, c: Choice)
    requires f.RunCall?
    ensures SameTimers(s.sh, StepExecute(s, i, f, c).sh)
  {
  }

  lemma RunKeepsTimers(s: State, i: nat, f: Frame, c: Choice)
    requires f.RunCall?
    ensures SameTimers(s.sh, StepRun(s, i, f, c).sh)
  {
    hide StepDrain, StepExecute, Lookup, AcquireDenial, ChainTargets, Settle;
    ExecuteKeepsTimers(s, i, f, c);
    DrainKeepsTimers(s, i, f);
  }

  /** Only a trigger and a forced run touch the timers. */
  lemma OthersKeepTimers(s: State, i: nat, f: Frame, c: Choice)
    requires !(f.TriggerCall? && f.triggerPc.TriggerLock?) && !(f.ForceCall? && f.forcePc.ForceLock?)
    ensures SameTimers(s.sh, StepFrame(s, i, f, c).sh)
  {
    hide StepRun, Lookup, TriggerLocked, ForceLocked, Settle;
    if f.RunCall? {
      RunKeepsTimers(s, i, f, c);
    }
  }

  lemma CallKeepsTimers(s: State, a: Action)
    requires !a.Go? && !a.Fire? && !a.Expire?
    ensures SameTimers(s.sh, Perform(s, a).sh)
  {
  }

  lemma StepKeepsBooked(s: State, a: Action)
    requires Booked(s.sh) && Enabled(s, a)
    ensures Booked(Perform(s, a).sh)
  {
    match a
    case Go(i, c) =>
      var f := s.frames[i];
      if f.TriggerCall? && f.triggerPc.TriggerLock? {
        TriggerKeepsBooked(s.sh, f.job, s.now);
      } else if f.ForceCall? && f.forcePc.ForceLock? {
        ForceKeepsBooked(s.sh, f.job.name);
      } else {
        OthersKeepTimers(s, i, f, c);
      }
    case Fire(t) => FireKeepsBooked(s, t);
    case Expire(t) =>
    case _ => CallKeepsTimers(s, a);
  }

  lemma {:induction false} RunKeepsBooked(s: State, es: seq<Event>)
    requires Booked(s.sh) && Legal(s, es)
    ensures Booked(Exec(s, es).sh)
    decreases |es|
  {
    if es != [] {
      StepKeepsBooked(s.(now := es[0].at), es[0].action);
      RunKeepsBooked(Apply(s, es[0]), es[1..]);
    }
  }

  /** Whenever the lock is free, in any run, lost races between Stop and a callback included. */
  lemma {:induction false} TimerBookkeeping(c: Config, disabled: set<string>, now: int, es: seq<Event>)
    requires Legal(Init(c, disabled, now), es)
    ensures Booked(Exec(Init(c, disabled, now), es).sh)
  {
    RunKeepsBooked(Init(c, disabled, now), es);
  }

  // When a batch fires.

  /** Triggers of one job at the given instants, one after the other. */
  function Rearm(sh: Shared, job: Job, ts: seq<int>): Shared {
    if ts == [] then sh
    else TriggerLocked(Rearm(sh, job, ts[..|ts| - 1]), job, ts[|ts| - 1]).0
  }

  /** Each trigger comes no later than the timer the triggers before it armed: that one has not fired. */
  ghost predicate BeforeFiring(sh: Shared, job: Job, ts: seq<int>) {
    forall k :: 0 < k < |ts| ==>
      job.name in Rearm(sh, job, ts[..k]).firesAt && ts[k] <= Rearm(sh, job, ts[..k]).firesAt[job.name]
  }

  /** The instant promised for a batch with triggers from `first` to `last`. */
  function Promised(job: Job, first: int, last: int): int {
    match (job.debounce, job.debounceMax)
    case (Parsed(wait), Parsed(most)) => if most > 0 then Min(last + wait, first + most) else last + wait
    case (Parsed(wait), _) => last + wait
    case (_, Parsed(most)) => if most > 0 then Min(last, first + most) else last
    case (_, _) => last
  }

  /** Whatever the instants, the timer is armed for the promised instant or, when that is past, for now. */
  lemma {:induction false} FiresAtExactly(sh: Shared, job: Job, ts: seq<int>)
    requires ts != [] && job.name !in sh.running && job.name !in sh.firstAt
    ensures var sh' := Rearm(sh, job, ts);
      && job.name !in sh'.running
      && job.name in sh'.firstAt && sh'.firstAt[job.name] == ts[0]
      && job.name in sh'.firesAt
      && sh'.firesAt[job.name] == Max(ts[|ts| - 1], Promised(job, ts[0], ts[|ts| - 1]))
      && Pending(sh', job.name) == Pending(sh, job.name) + |ts|
    decreases |ts|
  {
    var init := ts[..|ts| - 1];
    if init != [] {
      FiresAtExactly(sh, job, init);
    } else {
      assert Rearm(sh, job, init) == sh;
    }
  }

  /** A trigger no later than the promise before it keeps a promise that is not in the past. */
  lemma PromiseStaysAhead(job: Job, first: int, last: int, next: int)
    requires DebounceDur(job) > 0 && next <= Promised(job, first, last)
    ensures next <= Promised(job, first, next)
  {
  }

  lemma FirstPromiseIsAhead(job: Job, first: int)
    requires DebounceDur(job) > 0
    ensures first <= Promised(job, first, first)
  {
  }

  /**
   With callbacks run when due: triggers t1 to tk leave the batch armed for
   min(tk + debounce, t1 + debounce_max), or tk + debounce without a positive maximum.
   */
  lemma {:induction false} DebounceBound(sh: Shared, job: Job, ts: seq<int>)
    requires ts != [] && job.name !in sh.running && job.name !in sh.firstAt && DebounceDur(job) > 0
    requires BeforeFiring(sh, job, ts)
    ensures var sh' := Rearm(sh, job, ts);
      job.name in sh'.firesAt && sh'.firesAt[job.name] == Promised(job, ts[0], ts[|ts| - 1])
    decreases |ts|
  {
    hide Promised, TriggerLocked;
    FiresAtExactly(sh, job, ts);
    FirstPromiseIsAhead(job, ts[0]);
    var k := |ts| - 1;
    if k > 0 {
      var init := ts[..k];
      forall m | 0 < m < |init|
        ensures init[..m] == ts[..m]
      {
      }
      assert BeforeFiring(sh, job, init);
      DebounceBound(sh, job, init);
      assert ts[k] <= Rearm(sh, job, ts[..k]).firesAt[job.name];
      PromiseStaysAhead(job, ts[0], ts[k - 1], ts[k]);
    }
  }

  // The same bound for whole runs.

  /** The callback of every mapped timer has run by its due instant. */
  ghost predicate Punctual(s: State, e: Event) {
    forall n :: n in s.sh.firesAt ==> e.at <= s.sh.firesAt[n]
  }

  ghost predicate PunctualRun(c: Config, s: State, es: seq<Event>)
    decreases |es|
  {
    es == [] ||
    (Punctual(s, es[0]) && Respects(c, es[0].action) && PunctualRun(c, Apply(s, es[0]), es[1..]))
  }

  predicate AcceptsDebounced(f: Frame) {
    f.TriggerCall? && f.triggerPc.TriggerLock? ==> DebounceDur(f.job) > 0
  }

  lemma AddedAcceptsNothing(s: State, a: Action)
    ensures Added(s, a).Some? ==> AcceptsDebounced(Added(s, a).value)
  {
  }

  lemma StepAcceptsDebounced(s: State, i: nat, f: Frame, ch: Choice)
    ensures AcceptsDebounced(StepFrame(s, i, f, ch).own)
  {
  }

  /** The instant promised to the job's batch, from its first trigger and its last arming one. */
  function PromisedNow(c: Config, s: State, n: string): int
    requires Lookup(c, n).Some? && n in s.sh.firstAt && n in s.history.armedAt
  {
    Promised(Lookup(c, n).value, s.sh.firstAt[n], s.history.armedAt[n])
  }

  predicate HasInstants(c: Config, s: State, n: string) {
    && Lookup(c, n).Some? && n in s.sh.firstAt && n in s.history.armedAt
    && s.sh.firstAt[n] <= s.history.armedAt[n] <= s.now
  }

  /** Every batch is booked for the promised instant or, when the last trigger came after that, for its own. */
  ghost predicate BookedAsPromised(c: Config, s: State) {
    forall n :: n in s.sh.firesAt ==>
      HasInstants(c, s, n) && s.sh.firesAt[n] == Max(s.history.armedAt[n], PromisedNow(c, s, n))
  }

  /** No promise was in the past when it was made. */
  ghost predicate PromisesAhead(c: Config, s: State) {
    forall n :: n in s.sh.firesAt ==> HasInstants(c, s, n) && s.history.armedAt[n] <= PromisedNow(c, s, n)
  }

  /** What the locked part of a trigger does to the instants of its job. */
  lemma TriggerSets(s: State, i: nat)
    requires i < |s.frames| && s.frames[i].TriggerCall? && s.frames[i].triggerPc.TriggerLock?
    ensures var job, t := s.frames[i].job, Commit(s, i, StepTrigger(s, s.frames[i]));
      var first := FirstOf(s.sh, job.name, s.now);
      && t.now == s.now
      && (job.name in s.sh.running ==> SameMaps(s.sh, t.sh) && t.history.armedAt == s.history.armedAt)
      && (job.name !in s.sh.running ==>
            && t.sh.firstAt == s.sh.firstAt[job.name := first]
            && t.sh.firesAt == s.sh.firesAt[job.name := s.now + Delay(job, first, s.now)]
            && t.history.armedAt == s.history.armedAt[job.name := s.now])
  {
  }

  lemma TriggerBooks(c: Config, s: State, i: nat)
    requires Fixed(c, s) && Booked(s.sh) && BookedAsPromised(c, s)
    requires i < |s.frames| && s.frames[i].TriggerCall? && s.frames[i].triggerPc.TriggerLock?
    ensures BookedAsPromised(c, Commit(s, i, StepTrigger(s, s.frames[i])))
  {
    hide Commit, StepTrigger, IsReal;
    assert KnownFrame(c, s.frames[i]);
    TriggerSets(s, i);
  }

  lemma TriggerPromisesAhead(c: Config, s: State, i: nat)
    requires Fixed(c, s) && Booked(s.sh) && BookedAsPromised(c, s) && PromisesAhead(c, s)
    requires i < |s.frames| && s.frames[i].TriggerCall? && s.frames[i].triggerPc.TriggerLock?
    requires AcceptsDebounced(s.frames[i]) && forall n :: n in s.sh.firesAt ==> s.now <= s.sh.firesAt[n]
    ensures PromisesAhead(c, Commit(s, i, StepTrigger(s, s.frames[i])))
  {
    hide Commit, StepTrigger, IsReal;
    assert KnownFrame(c, s.frames[i]);
    TriggerSets(s, i);
  }

  /** What is still booked is booked as it was. */
  ghost predicate KeepsBookings(s: State, s': State) {
    && s'.now == s.now && s'.history.armedAt == s.history.armedAt
    && forall n :: n in s'.sh.firesAt ==>
         && n in s.sh.firesAt && s'.sh.firesAt[n] == s.sh.firesAt[n]
         && (n in s.sh.firstAt ==> n in s'.sh.firstAt && s'.sh.firstAt[n] == s.sh.firstAt[n])
  }

  lemma KeptPromises(c: Config, s: State, s': State)
    requires KeepsBookings(s, s')
    ensures BookedAsPromised(c, s) ==> BookedAsPromised(c, s')
    ensures PromisesAhead(c, s) ==> PromisesAhead(c, s')
  {
  }

  lemma RunKeepsArmedAt(s: State, i: nat, f: Frame, ch: Choice)
    requires !(f.TriggerCall? && f.triggerPc.TriggerLock?)
    ensures StepFrame(s, i, f, ch).history.armedAt == s.history.armedAt
  {
  }

  lemma FireForgets(s: State, t: nat)
    requires t < |s.sh.wheel|
    ensures SameMaps(StepFire(s, t).sh, Forget(s.sh, s.sh.wheel[t].name))
  {
  }

  lemma ForceForgets(s: State, f: Frame)
    requires f.ForceCall? && f.forcePc.ForceLock?
    ensures SameMaps(StepForce(s, f).sh, Forget(s.sh, f.job.name))
  {
  }

  lemma EnvironmentKeepsMaps(s: State, a: Action)
    requires !a.Go? && !a.Fire?
    ensures SameMaps(Perform(s, a).sh, s.sh)
  {
  }

  lemma GoKeepsBookings(s: State, i: nat, ch: Choice)
    requires i < |s.frames| && !(s.frames[i].TriggerCall? && s.frames[i].triggerPc.TriggerLock?)
    ensures KeepsBookings(s, Commit(s, i, StepFrame(s, i, s.frames[i], ch)))
  {
    hide StepRun, StepLoop, StepCancel;
    var f := s.frames[i];
    RunKeepsArmedAt(s, i, f, ch);
    if f.ForceCall? && f.forcePc.ForceLock? {
      ForceForgets(s, f);
    } else {
      OthersKeepTimers(s, i, f, ch);
    }
  }

  lemma OthersKeepBookings(s: State, a: Action)
    requires !a.Go? && Enabled(s, a)
    ensures KeepsBookings(s, Perform(s, a))
  {
    if a.Fire? {
      FireForgets(s, a.timer);
    } else {
      EnvironmentKeepsMaps(s, a);
    }
  }

  predicate Arms(s: State, a: Action) {
    a.Go? && a.frame < |s.frames| && s.frames[a.frame].TriggerCall? && s.frames[a.frame].triggerPc.TriggerLock?
  }

  lemma StepKeepsBookings(s: State, a: Action)
    requires Enabled(s, a) && !Arms(s, a)
    ensures KeepsBookings(s, Perform(s, a))
  {
    if a.Go? {
      GoKeepsBookings(s, a.frame, a.choice);
    } else {
      OthersKeepBookings(s, a);
    }
  }

  lemma StepBooksAsPromised(c: Config, s: State, a: Action)
    requires Fixed(c, s) && Booked(s.sh) && BookedAsPromised(c, s) && Enabled(s, a)
    ensures BookedAsPromised(c, Perform(s, a))
  {
    hide BookedAsPromised, PromisesAhead, KeepsBookings, Booked;
    if Arms(s, a) {
      TriggerBooks(c, s, a.frame);
    } else {
      StepKeepsBookings(s, a);
      KeptPromises(c, s, Perform(s, a));
    }
  }

  lemma {:induction false} RunBooksAsPromised(c: Config, s: State, es: seq<Event>)
    requires Fixed(c, s) && Booked(s.sh) && BookedAsPromised(c, s) && Legal(s, es) && RespectsRun(c, es)
    ensures BookedAsPromised(c, Exec(s, es))
    decreases |es|
  {
    if es != [] {
      var now := s.(now := es[0].at);
      assert Respects(c, es[0].action);
      StepBooksAsPromised(c, now, es[0].action);
      StepKeepsBooked(now, es[0].action);
      StepKeepsFixed(c, now, es[0].action);
      RunBooksAsPromised(c, Apply(s, es[0]), es[1..]);
    }
  }

  /**
   While one configuration is in force, in every run: each batch is booked for the promised instant,
   or for its last arming trigger's own when that is later.
   */
  lemma {:induction false} FiresAsPromised(c: Config, disabled: set<string>, now: int, es: seq<Event>)
    requires Legal(Init(c, disabled, now), es) && RespectsRun(c, es)
    ensures BookedAsPromised(c, Exec(Init(c, disabled, now), es))
  {
    RunBooksAsPromised(c, Init(c, disabled, now), es);
  }

  ghost predicate AllAcceptDebounced(s: State) {
    forall i :: 0 <= i < |s.frames| ==> AcceptsDebounced(s.frames[i])
  }

  lemma StepKeepsAccepting(s: State, a: Action)
    requires AllAcceptDebounced(s) && Enabled(s, a)
    ensures AllAcceptDebounced(Perform(s, a))
  {
    FramesAfter(s, a);
    AddedAcceptsNothing(s, a);
    if a.Go? {
      StepAcceptsDebounced(s, a.frame, s.frames[a.frame], a.choice);
    }
  }

  lemma StepPromisesAhead(c: Config, s: State, a: Action)
    requires Fixed(c, s) && Booked(s.sh) && BookedAsPromised(c, s) && PromisesAhead(c, s) && AllAcceptDebounced(s)
    requires Enabled(s, a) && forall n :: n in s.sh.firesAt ==> s.now <= s.sh.firesAt[n]
    ensures PromisesAhead(c, Perform(s, a))
  {
    hide BookedAsPromised, PromisesAhead, KeepsBookings, Booked;
    if Arms(s, a) {
      TriggerPromisesAhead(c, s, a.frame);
    } else {
      StepKeepsBookings(s, a);
      KeptPromises(c, s, Perform(s, a));
    }
  }

  lemma {:induction false} RunPromisesAhead(c: Config, s: State, es: seq<Event>)
    requires Fixed(c, s) && Booked(s.sh) && BookedAsPromised(c, s) && PromisesAhead(c, s) && AllAcceptDebounced(s)
    requires Legal(s, es) && PunctualRun(c, s, es)
    ensures var t := Exec(s, es); BookedAsPromised(c, t) && PromisesAhead(c, t)
    decreases |es|
  {
    if es != [] {
      var now := s.(now := es[0].at);
      StepPromisesAhead(c, now, es[0].action);
      StepBooksAsPromised(c, now, es[0].action);
      StepKeepsAccepting(now, es[0].action);
      StepKeepsBooked(now, es[0].action);
      StepKeepsFixed(c, now, es[0].action);
      RunPromisesAhead(c, Apply(s, es[0]), es[1..]);
    }
  }

  /**
   With callbacks run when due, in whole runs and mixed with anything else: every batch is booked
   for exactly min(last + debounce, first + debounce_max), or last + debounce without a positive
   maximum, so that no trickle of triggers can push it past first + debounce_max.
   */
  lemma {:induction false} TrickleStillFires(c: Config, disabled: set<string>, now: int, es: seq<Event>)
    requires Legal(Init(c, disabled, now), es) && PunctualRun(c, Init(c, disabled, now), es)
    ensures var s := Exec(Init(c, disabled, now), es);
      forall n :: n in s.sh.firesAt ==>
        && HasInstants(c, s, n) && s.sh.firesAt[n] == PromisedNow(c, s, n)
        && s.sh.firesAt[n] <= s.now + DebounceDur(Lookup(c, n).value)
        && (DebounceMaxDur(Lookup(c, n).value) > 0 ==>
              s.sh.firesAt[n] <= s.sh.firstAt[n] + DebounceMaxDur(Lookup(c, n).value))
  {
    RunPromisesAhead(c, Init(c, disabled, now), es);
  }
}
