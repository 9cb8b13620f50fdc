/** Drain mode: nothing new gets past the drain check, so what is in flight only shrinks. */
module Draining {
  import opened JobConfig
  import opened Protocol
  import opened Exclusion
  import opened Intervals

  /** Has passed the drain check and not yet released. */
  predicate PastCheck(f: Frame) {
    f.RunCall? && (f.pc.Acquire? || f.pc.Requeue? || Holds(f))
  }

  function Past(s: State): set<nat> {
    set i: nat | i < |s.frames| && PastCheck(s.frames[i])
  }

  predicate Resumes(a: Action) {
    a.SetDraining? && !a.on
  }

  lemma RunCannotPass(s: State, i: nat, f: Frame, c: Choice)
    requires f.RunCall? && s.draining && !PastCheck(f)
    ensures !PastCheck(StepRun(s, i, f, c).own)
  {
  }

  lemma OtherCannotPass(s: State, i: nat, f: Frame, c: Choice)
    requires !f.RunCall?
    ensures !PastCheck(StepFrame(s, i, f, c).own)
  {
  }

  lemma AddedHasNotPassed(s: State, a: Action)
    ensures Added(s, a).Some? ==> !PastCheck(Added(s, a).value)
  {
  }

  lemma StepStaysDraining(s: State, a: Action)
    requires !Resumes(a)
    ensures s.draining ==> Perform(s, a).draining
  {
  }

  lemma StepShrinksPast(s: State, a: Action)
    requires s.draining && Enabled(s, a) && !Resumes(a)
    ensures Perform(s, a).draining && Past(Perform(s, a)) <= Past(s)
  {
    FramesAfter(s, a);
    StepStaysDraining(s, a);
    AddedHasNotPassed(s, a);
    if a.Go? && !PastCheck(s.frames[a.frame]) {
      if s.frames[a.frame].RunCall? {
        RunCannotPass(s, a.frame, s.frames[a.frame], a.choice);
      } else {
        OtherCannotPass(s, a.frame, s.frames[a.frame], a.choice);
      }
    }
  }

  predicate NoResume(es: seq<Event>) {
    forall k :: 0 <= k < |es| ==> !Resumes(es[k].action)
  }

  lemma {:induction false} RunShrinksPast(s: State, es: seq<Event>)
    requires s.draining && Legal(s, es) && NoResume(es)
    ensures Exec(s, es).draining && Past(Exec(s, es)) <= Past(s)
    decreases |es|
  {
    if es != [] {
      var now := s.(now := es[0].at);
      assert !Resumes(es[0].action);
      StepShrinksPast(now, es[0].action);
      RunShrinksPast(Apply(s, es[0]), es[1..]);
    }
  }

  /**
   From any reachable state in drain mode, and until Resume, whatever triggers, timers, chains and
   drains in progress do: the calls past the check are among those past it now, and once there
   are none RunningCount is 0 and stays 0.
   */
  lemma {:induction false} DrainSafety(c: Config, disabled: set<string>, now: int, es: seq<Event>, later: seq<Event>)
    requires Legal(Init(c, disabled, now), es)
    requires var s := Exec(Init(c, disabled, now), es); s.draining && Legal(s, later) && NoResume(later)
    ensures var s := Exec(Init(c, disabled, now), es);
      var s' := Exec(s, later);
      && Past(s') <= Past(s)
      && Holders(s') <= Past(s) && |s'.sh.running| == |Holders(s')|
      && (Past(s) == {} ==> |s'.sh.running| == 0)
  {
    var s := Exec(Init(c, disabled, now), es);
    var s' := Exec(s, later);
    RunKeepsSerial(Init(c, disabled, now), es);
    RunKeepsSerial(s, later);
    RunShrinksPast(s, later);
    RunningCountIsHolders(s');
    assert Holders(s') <= Past(s');
  }

  // What RunningCount tells.

  predicate AtAcquire(f: Frame) {
    f.RunCall? && f.pc.Acquire?
  }

  ghost predicate NobodyCanStart(s: State) {
    s.draining && forall i :: 0 <= i < |s.frames| ==> !AtAcquire(s.frames[i]) && !Holds(s.frames[i])
  }

  lemma NobodyStarts(s: State, i: nat, f: Frame, c: Choice)
    requires s.draining && !AtAcquire(f) && !Holds(f)
    ensures !AtAcquire(StepFrame(s, i, f, c).own) && !Holds(StepFrame(s, i, f, c).own)
  {
  }

  lemma StepStartsNobody(s: State, a: Action)
    requires NobodyCanStart(s) && Enabled(s, a) && !Resumes(a)
    ensures NobodyCanStart(Perform(s, a))
  {
    FramesAfter(s, a);
    StepStaysDraining(s, a);
    AddedHasNotPassed(s, a);
    if a.Go? {
      NobodyStarts(s, a.frame, s.frames[a.frame], a.choice);
    }
  }

  lemma {:induction false} RunStartsNobody(s: State, es: seq<Event>)
    requires NobodyCanStart(s) && Legal(s, es) && NoResume(es)
    ensures NobodyCanStart(Exec(s, es))
    decreases |es|
  {
    if es != [] {
      assert !Resumes(es[0].action);
      StepStartsNobody(s.(now := es[0].at), es[0].action);
      RunStartsNobody(Apply(s, es[0]), es[1..]);
    }
  }

  /** Until Resume, whatever happens, RunningCount is 0. */
  ghost predicate StaysAtZero(s: State) {
    forall later :: Legal(s, later) && NoResume(later) ==> Exec(s, later).sh.running == {}
  }

  lemma HoldersAreRunning(s: State)
    requires Exclusive(s)
    ensures s.sh.running == {} <==> forall i :: 0 <= i < |s.frames| ==> !Holds(s.frames[i])
    ensures s.sh.running == {} ==> s.sh.groupBusy == {}
  {
    forall i | 0 <= i < |s.frames| && Holds(s.frames[i])
      ensures s.frames[i].job.name in s.sh.running
    {
      assert NameHeld(s, s.frames[i].job.name);
    }
  }

  /** A call between the drain check and its acquire starts its run although RunningCount showed 0. */
  lemma CheckedCallStarts(s: State, i: nat) returns (e: Event)
    requires Exclusive(s) && s.sh.running == {} && i < |s.frames| && AtAcquire(s.frames[i])
    ensures Legal(s, [e]) && NoResume([e]) && Exec(s, [e]).sh.running != {}
  {
    HoldersAreRunning(s);
    e := Event(Go(i, Choice(true, true, false)), s.now);
    assert [e][1..] == [];
    assert Exec(s, [e]) == Exec(Apply(s, e), []);
    assert s.frames[i].job.name in Apply(s, e).sh.running;
  }

  /**
   In every reachable state in drain mode with a RunningCount of 0: it stays 0 until Resume exactly
   when no call is between the drain check and its acquire.
   */
  lemma {:induction false} ZeroStaysIff(c: Config, disabled: set<string>, now: int, es: seq<Event>)
    requires Legal(Init(c, disabled, now), es)
    requires var s := Exec(Init(c, disabled, now), es); s.draining && s.sh.running == {}
    ensures var s := Exec(Init(c, disabled, now), es);
      StaysAtZero(s) <==> forall i :: 0 <= i < |s.frames| ==> !AtAcquire(s.frames[i])
  {
    var s := Exec(Init(c, disabled, now), es);
    RunKeepsSerial(Init(c, disabled, now), es);
    HoldersAreRunning(s);
    if i :| 0 <= i < |s.frames| && AtAcquire(s.frames[i]) {
      var e := CheckedCallStarts(s, i);
      assert !StaysAtZero(s);
    } else {
      forall later | Legal(s, later) && NoResume(later)
        ensures Exec(s, later).sh.running == {}
      {
        RunStartsNobody(s, later);
        RunKeepsSerial(s, later);
        HoldersAreRunning(Exec(s, later));
      }
    }
  }
}
