/** Why denial and requeue must not be separated: a run of the two-lock code that strands a trigger. */
module LateRequeue {
  import opened JobConfig
  import opened RunnerState
  import opened Protocol
  import opened FixedConfig
  import opened Conservation
  import opened Restarts
  import opened Stranding
  import opened Schedules
  import opened ChainSchedules

  /** A calm run from s to t, calls from outside included. */
  ghost predicate Comes(c: Config, s: State, es: seq<Event>, t: State) {
    Legal(s, es) && CalmRun(c, es) && Exec(s, es) == t
  }

  lemma ComesNowhere(c: Config, s: State)
    ensures Comes(c, s, [], s)
  {
  }

  lemma ThenInside(c: Config, s: State, es: seq<Event>, t: State, fs: seq<Event>, u: State)
    requires Comes(c, s, es, t) && Leads(t, fs, u)
    ensures Comes(c, s, es + fs, u)
  {
    ExecConcat(s, es, fs);
    forall k | 0 <= k < |es + fs|
      ensures KeepsCalm(c, (es + fs)[k].action)
    {
      assert k >= |es| ==> (es + fs)[k] == fs[k - |es|] && Internal(fs[k - |es|].action);
    }
  }

  lemma ThenOutside(c: Config, s: State, es: seq<Event>, t: State, e: Event) returns (fs: seq<Event>, u: State)
    requires Comes(c, s, es, t) && Can(t, e) && KeepsCalm(c, e.action)
    ensures Comes(c, s, fs, u) && u == Apply(t, e)
  {
    fs, u := es + [e], Apply(t, e);
    assert [e][1..] == [];
    assert Exec(t, [e]) == Exec(u, []) && Legal(t, [e]);
    ExecConcat(s, es, [e]);
  }

  /** Two calls of the job come in at once. */
  lemma TwoCalls(c: Config, job: Job, now: int) returns (es: seq<Event>, t: State)
    requires Known(c, job)
    ensures Comes(c, Init(c, {}, now), es, t)
    ensures t.frames == [NewCall(job, 0, 0, External), NewCall(job, 0, 0, External)]
    ensures t.sh == IDLE && !t.draining && t.signalled == {} && t.config == c && t.now == now
  {
    hide Comes;
    var s := Init(c, {}, now);
    ComesNowhere(c, s);
    es, t := ThenOutside(c, s, [], s, Event(CallRun(job), now));
    es, t := ThenOutside(c, s, es, t, Event(CallRun(job), now));
  }

  /** The holder drains an empty queue; only then does the denied call count its trigger. */
  lemma DrainThenRequeue(t: State, job: Job) returns (es: seq<Event>, u: State)
    requires |t.frames| == 2 && t.frames[0].RunCall? && t.frames[0].pc.DrainLock? && t.frames[0].job == job
    requires t.frames[1].RunCall? && t.frames[1].pc.Requeue? && t.frames[1].job == job
    requires t.frames[0].outcome.Finished? && t.sh.pending == map[] && t.sh.wheel == []
    ensures Leads(t, es, u)
    ensures |u.frames| == 2 && !WillDrain(u.frames[0]) && !WillDrain(u.frames[1])
    ensures u.sh.wheel == [] && Pending(u.sh, job.name) == 1 && Count(u.history.requeued, job.name) > 0
  {
    hide Leads;
    NothingWaits(t.sh, t.config, job);
    Nowhere(t);
    es, u := Go1(t, [], t, 0, FINE);
    assert u.frames[1] == t.frames[1] && u.sh == t.sh;
    es, u := Go1(t, es, u, 1, FINE);
  }

  /** From the two calls on: one acquires, the other is denied, and the first is done before the denial is counted. */
  lemma DeniedTooLate(t0: State, job: Job) returns (es: seq<Event>, u: State)
    requires t0.frames == [NewCall(job, 0, 0, External), NewCall(job, 0, 0, External)]
    requires t0.sh == IDLE && !t0.draining && t0.signalled == {} && DebounceDur(job) > 0
    ensures Leads(t0, es, u)
    ensures |u.frames| == 2 && !WillDrain(u.frames[0]) && !WillDrain(u.frames[1])
    ensures u.sh.wheel == [] && Pending(u.sh, job.name) == 1 && Count(u.history.requeued, job.name) > 0
  {
    hide Leads;
    var first, t1 := ToCommand(t0, 0);
    var second, t2 := ToRequeue(t1, 1);
    Then(t0, first, t1, second, t2);
    var third, t3 := ToDrain(t2, 0, Success);
    Then(t0, first + second, t2, third, t3);
    var last;
    last, u := DrainThenRequeue(t3, job);
    Then(t0, first + second + third, t3, last, u);
    es := first + second + third + last;
  }

  /** A legal run under the assumptions of NoStranding at whose end a pending trigger has nobody coming for it. */
  ghost predicate Strands(c: Config, job: Job, now: int, es: seq<Event>) {
    && Legal(Init(c, {}, now), es) && CalmRun(c, es)
    && Stranded(c, Exec(Init(c, {}, now), es), job.name)
  }

  /** Under every configuration, every debounced job has such a run, with no debounce timer involved. */
  lemma TwoLocksCanStrand(c: Config, job: Job, now: int)
    requires Valid(c) && Known(c, job) && DebounceDur(job) > 0
    ensures exists es :: Strands(c, job, now, es)
  {
    var calls, t := TwoCalls(c, job, now);
    var rest, u := DeniedTooLate(t, job);
    ThenInside(c, Init(c, {}, now), calls, t, rest, u);
    assert Strands(c, job, now, calls + rest);
  }

  // Who is requeued at all.

  /** Requeues are for debounced jobs only. */
  ghost predicate RequeuesDebounced(c: Config, s: State) {
    && (forall i :: 0 <= i < |s.frames| && Requeuing(s.frames[i]) ==> IsDebounced(c, s.frames[i].job.name))
    && (forall n :: n in s.history.requeued ==> IsDebounced(c, n))
  }

  lemma GoRequeuesDebounced(c: Config, s: State, i: nat, f: Frame, ch: Choice)
    requires KnownFrame(c, f) && (Requeuing(f) ==> IsDebounced(c, f.job.name))
    requires forall n :: n in s.history.requeued ==> IsDebounced(c, n)
    ensures var e := StepFrame(s, i, f, ch);
      && (Requeuing(e.own) ==> IsDebounced(c, e.own.job.name))
      && (forall n :: n in e.history.requeued ==> IsDebounced(c, n))
  {
    RunStopsBeforeRequeue(s, i, f, ch);
    if !TakesOrAdds(f) {
      OtherStepsKeepBooks(s, i, f, ch);
    }
  }

  lemma StepRequeuesDebounced(c: Config, s: State, a: Action)
    requires Fixed(c, s) && RequeuesDebounced(c, s) && Enabled(s, a)
    ensures RequeuesDebounced(c, Perform(s, a))
  {
    hide IsDebounced, KnownFrame, StepFrame;
    FramesAfter(s, a);
    AddedIsNotRequeuing(s, a);
    if a.Go? {
      assert KnownFrame(c, s.frames[a.frame]);
      GoRequeuesDebounced(c, s, a.frame, s.frames[a.frame], a.choice);
    }
  }

  lemma {:induction false} RunRequeuesDebounced(c: Config, s: State, es: seq<Event>)
    requires Fixed(c, s) && RequeuesDebounced(c, s) && Legal(s, es) && CalmRun(c, es)
    ensures RequeuesDebounced(c, Exec(s, es))
    decreases |es|
  {
    if es != [] {
      var t := s.(now := es[0].at);
      assert KeepsCalm(c, es[0].action);
      StepRequeuesDebounced(c, t, es[0].action);
      StepKeepsFixed(c, t, es[0].action);
      RunRequeuesDebounced(c, Apply(s, es[0]), es[1..]);
    }
  }

  /** A calm run in which a denied call of the job has been counted as a pending trigger. */
  ghost predicate Requeues(c: Config, name: string, now: int, es: seq<Event>) {
    Legal(Init(c, {}, now), es) && CalmRun(c, es) && Count(Exec(Init(c, {}, now), es).history.requeued, name) > 0
  }

  /** A denied run is merely skipped unless its job is debounced, and then it can be counted. */
  lemma RequeuesIff(c: Config, name: string, now: int)
    ensures (exists es :: Requeues(c, name, now, es)) <==> IsDebounced(c, name)
  {
    if IsDebounced(c, name) {
      var job := Lookup(c, name).value;
      var calls, t := TwoCalls(c, job, now);
      var rest, u := DeniedTooLate(t, job);
      ThenInside(c, Init(c, {}, now), calls, t, rest, u);
      assert Requeues(c, name, now, calls + rest);
    }
    forall es | Requeues(c, name, now, es)
      ensures IsDebounced(c, name)
    {
      RunRequeuesDebounced(c, Init(c, {}, now), es);
    }
  }

  // Which configurations are safe from it.

  ghost predicate NobodyRequeues(s: State) {
    forall i :: 0 <= i < |s.frames| ==> !Requeuing(s.frames[i])
  }

  ghost predicate NothingDebounced(c: Config) {
    forall job :: job in c.jobs ==> DebounceDur(job) <= 0
  }

  lemma UndebouncedGoOn(c: Config, s: State, i: nat, f: Frame, ch: Choice)
    requires NothingDebounced(c) && KnownFrame(c, f) && !Requeuing(f)
    ensures !Requeuing(StepFrame(s, i, f, ch).own)
  {
    assert f.RunCall? ==> f.job in c.jobs;
  }

  lemma StepRequeuesNobody(c: Config, s: State, a: Action)
    requires NothingDebounced(c) && Fixed(c, s) && NobodyRequeues(s) && Enabled(s, a)
    ensures NobodyRequeues(Perform(s, a))
  {
    FramesAfter(s, a);
    AddedIsNotRequeuing(s, a);
    if a.Go? {
      var f := s.frames[a.frame];
      assert KnownFrame(c, f);
      UndebouncedGoOn(c, s, a.frame, f, a.choice);
    }
  }

  lemma {:induction false} UndebouncedAreNeverLate(c: Config, s: State, es: seq<Event>, name: string)
    requires NothingDebounced(c) && Fixed(c, s) && NobodyRequeues(s) && Legal(s, es) && CalmRun(c, es)
    ensures NeverLate(c, s, es, name)
    decreases |es|
  {
    if es != [] {
      var t := s.(now := es[0].at);
      assert KeepsCalm(c, es[0].action);
      assert es[0].action.Go? ==> !Requeuing(s.frames[es[0].action.frame]);
      StepRequeuesNobody(c, t, es[0].action);
      StepKeepsFixed(c, t, es[0].action);
      UndebouncedAreNeverLate(c, Apply(s, es[0]), es[1..], name);
    }
  }

  /** No calm run ever strands a trigger of any job. */
  ghost predicate NeverStrands(c: Config, now: int) {
    forall es, name :: Legal(Init(c, {}, now), es) && CalmRun(c, es) ==> NeverStranded(c, Init(c, {}, now), es, name)
  }

  /** A valid configuration is safe exactly when it debounces nothing. */
  lemma NeverStrandsIff(c: Config, now: int)
    requires Valid(c)
    ensures NeverStrands(c, now) <==> NothingDebounced(c)
  {
    if NothingDebounced(c) {
      forall es, name | Legal(Init(c, {}, now), es) && CalmRun(c, es)
        ensures NeverStranded(c, Init(c, {}, now), es, name)
      {
        UndebouncedAreNeverLate(c, Init(c, {}, now), es, name);
        NoStranding(c, now, es, name);
      }
    } else {
      var job :| job in c.jobs && DebounceDur(job) > 0;
      LookupIsMembership(c, job);
      TwoLocksCanStrand(c, job, now);
      var es :| Strands(c, job, now, es);
      if NeverStranded(c, Init(c, {}, now), es, job.name) {
        LastIsNotStranded(c, Init(c, {}, now), es, job.name);
      }
    }
  }
}
