/** Cancel reaches the run it read the function of, and no later run of that job. */
module Cancellation {
  import opened Prelude
  import opened JobConfig
  import opened RunnerState
  import opened Protocol
  import opened Exclusion
  import opened Intervals

  /** Between setCancel and clearCancel. */
  predicate Cancelable(f: Frame) {
    f.RunCall? && (f.pc.Command? || f.pc.ReadTimedOut? || f.pc.ReadContext? || f.pc.ClearCancel?)
  }

  /** The entry's call is between setCancel and clearCancel. */
  predicate Entry(s: State, n: string) {
    && n in s.sh.cancels && s.sh.cancels[n] < |s.frames|
    && Cancelable(s.frames[s.sh.cancels[n]]) && s.frames[s.sh.cancels[n]].job.name == n
  }

  predicate Registered(s: State, i: nat)
    requires i < |s.frames| && s.frames[i].RunCall?
  {
    s.frames[i].job.name in s.sh.cancels && s.sh.cancels[s.frames[i].job.name] == i
  }

  ghost predicate CancelMap(s: State) {
    && (forall n :: n in s.sh.cancels ==> Entry(s, n))
    && (forall i :: 0 <= i < |s.frames| && Cancelable(s.frames[i]) ==> Registered(s, i))
  }

  /** Call i of job `name` was in flight when step number `read` was taken. */
  ghost predicate InFlightAt(s: State, i: nat, name: string, read: nat) {
    && i < |s.frames| && Started(s.frames[i]) && s.frames[i].job.name == name
    && s.frames[i].times.acquired.value.step < read < s.step
    && (s.frames[i].times.released.Some? ==> read < s.frames[i].times.released.value.step)
  }

  /** The call a Cancel has read, and when, once it has. */
  function Target(f: Frame): Option<(nat, nat)> {
    if f.CancelCall? && f.cancelPc.CancelSignal? then Some((f.cancelPc.target, f.cancelPc.read))
    else if f.CancelCall? && f.cancelPc.CancelDone? then f.cancelPc.signalled
    else None
  }

  ghost predicate TargetsInFlight(s: State) {
    forall k :: 0 <= k < |s.frames| && Target(s.frames[k]).Some? ==>
      InFlightAt(s, Target(s.frames[k]).value.0, s.frames[k].name, Target(s.frames[k]).value.1)
  }

  predicate EndedCanceled(f: Frame) {
    f.RunCall? && f.outcome == Finished(Canceled)
  }

  predicate ReturnedTrue(f: Frame) {
    f.CancelCall? && f.cancelPc.CancelDone? && f.cancelPc.signalled.Some?
  }

  ghost predicate SignalledBy(s: State, i: nat) {
    exists k :: 0 <= k < |s.frames| && ReturnedTrue(s.frames[k]) && s.frames[k].cancelPc.signalled.value.0 == i
  }

  ghost predicate SignalsExplained(s: State) {
    && (forall i :: i in s.signalled <==> SignalledBy(s, i))
    && (forall i :: 0 <= i < |s.frames| && EndedCanceled(s.frames[i]) ==>
          i in s.signalled || LimitPassed(s.frames[i], s.now))
  }

  /** What a step inside run may do to `cancels`, to being cancelable and to the outcome. */
  predicate CancelsRightly(s: State, i: nat, f: Frame, c: Choice, e: Effect)
    requires f.RunCall?
  {
    && (f.pc.SetCancel? ==> Cancelable(e.own) && e.sh.cancels == s.sh.cancels[f.job.name := i])
    && (f.pc.ClearCancel? ==> !Cancelable(e.own) && e.sh.cancels == s.sh.cancels - {f.job.name})
    && (!f.pc.SetCancel? && !f.pc.ClearCancel? ==> Cancelable(e.own) == Cancelable(f) && e.sh.cancels == s.sh.cancels)
    && (EndedCanceled(e.own) && !EndedCanceled(f) ==> f.pc.ReadContext? && (i in s.signalled || c.limitHit))
    && e.own.RunCall? && (f.times.start.Some? ==> f.pc.WriteMeta? || e.own.times.start == f.times.start)
    && e.own.RunCall? && e.own.job == f.job && e.signalled == s.signalled
  }

  lemma ExecuteCancels(s: State, i: nat, f: Frame, c: Choice)
    requires f.RunCall?
    ensures InExecute(f.pc) || f.pc.Returned? ==>
      CancelsRightly(s, i, f, c, StepExecute(s, i, f, c))
  {
  }

  lemma DrainCancels(s: State, i: nat, f: Frame, c: Choice)
    requires f.RunCall? && f.pc.DrainLock?
    ensures CancelsRightly(s, i, f, c, StepDrain(s, i, f))
  {
    hide DrainPick;
  }

  /** The goroutine's own part in `cancels`. */
  lemma RunCancels(s: State, i: nat, f: Frame, c: Choice)
    requires f.RunCall?
    ensures CancelsRightly(s, i, f, c, StepRun(s, i, f, c))
  {
    hide StepExecute, StepDrain, AcquireDenial, Lookup, ChainTargets, Settle;
    ExecuteCancels(s, i, f, c);
    if f.pc.DrainLock? {
      DrainCancels(s, i, f, c);
    }
  }

  lemma OtherCancels(s: State, i: nat, f: Frame, c: Choice)
    requires !f.RunCall?
    ensures var e := StepFrame(s, i, f, c);
      e.sh.cancels == s.sh.cancels && !e.own.RunCall? && (!f.CancelCall? ==> !e.own.CancelCall? && e.signalled == s.signalled)
  {
  }

  lemma AddedIsFresh(s: State, a: Action)
    ensures var f := Added(s, a);
      && (f.Some? ==> !Cancelable(f.value) && !ReturnedTrue(f.value) && !EndedCanceled(f.value))
      && (f.Some? && f.value.CancelCall? ==> f.value.cancelPc.CancelRead?)
  {
  }

  lemma EnvironmentCancels(s: State, a: Action)
    requires !a.Go?
    ensures Perform(s, a).sh.cancels == s.sh.cancels && Perform(s, a).signalled == s.signalled
  {
  }

  lemma ExecuteAddsNothing(s: State, i: nat, f: Frame, c: Choice)
    requires f.RunCall?
    ensures StepExecute(s, i, f, c).spawned.None?
  {
  }

  lemma RunAddsUncancelable(s: State, i: nat, f: Frame, c: Choice)
    requires f.RunCall?
    ensures var g := StepRun(s, i, f, c).spawned; g.Some? ==> !Cancelable(g.value)
  {
    hide StepExecute, DrainPick, DrainLocked, AcquireDenial;
    assert StepExecute(s, i, f, c).spawned.None? by {
      ExecuteAddsNothing(s, i, f, c);
    }
  }

  lemma OneHolderPerName(s: State, i: nat)
    requires Exclusive(s) && i < |s.frames| && Holds(s.frames[i])
    ensures forall k :: 0 <= k < |s.frames| && k != i && Cancelable(s.frames[k]) ==> s.frames[k].job.name != s.frames[i].job.name
  {
  }

  /** Frame i steps inside run, and nobody else holds its name. */
  lemma RunKeepsCancelMap(s: State, i: nat, c: Choice)
    requires Exclusive(s) && CancelMap(s) && i < |s.frames| && s.frames[i].RunCall?
    ensures CancelMap(Commit(s, i, StepRun(s, i, s.frames[i], c)))
  {
    hide StepRun, Exclusive;
    var f := s.frames[i];
    var e := StepRun(s, i, f, c);
    var s' := Commit(s, i, e);
    RunCancels(s, i, f, c);
    if Holds(f) {
      OneHolderPerName(s, i);
    }
    RunAddsUncancelable(s, i, f, c);
    forall n | n in s'.sh.cancels
      ensures Entry(s', n)
    {
      assert n in s.sh.cancels ==> Entry(s, n);
    }
    forall k | 0 <= k < |s'.frames| && Cancelable(s'.frames[k])
      ensures Registered(s', k)
    {
      assert k < |s.frames| && Cancelable(s.frames[k]) ==> Registered(s, k);
    }
  }

  lemma OthersKeepCancelMap(s: State, a: Action)
    requires CancelMap(s) && Enabled(s, a) && !(a.Go? && s.frames[a.frame].RunCall?)
    ensures CancelMap(Perform(s, a))
  {
    hide StepRun, StepLoop, StepTrigger, StepForce, StepCancel, StepFire;
    var s' := Perform(s, a);
    FramesAfter(s, a);
    AddedIsFresh(s, a);
    if a.Go? {
      OtherCancels(s, a.frame, s.frames[a.frame], a.choice);
    } else {
      EnvironmentCancels(s, a);
    }
    forall n | n in s'.sh.cancels
      ensures Entry(s', n)
    {
      assert Entry(s, n);
    }
    forall k | 0 <= k < |s'.frames| && Cancelable(s'.frames[k])
      ensures Registered(s', k)
    {
      assert Registered(s, k);
    }
  }

  lemma StepKeepsCancelMap(s: State, a: Action)
    requires Exclusive(s) && CancelMap(s) && Enabled(s, a)
    ensures CancelMap(Perform(s, a))
  {
    if a.Go? && s.frames[a.frame].RunCall? {
      RunKeepsCancelMap(s, a.frame, a.choice);
    } else {
      OthersKeepCancelMap(s, a);
    }
  }

  /** What Cancel reads is a call in flight. */
  lemma ReadIsInFlight(s: State, name: string)
    requires CancelMap(s) && AllTimed(s) && name in s.sh.cancels
    ensures InFlightAt(s.(step := s.step + 1), s.sh.cancels[name], name, s.step)
  {
    assert Timed(s.frames[s.sh.cancels[name]], s.now, s.step);
  }

  /** Cancel finds no run, and says so, exactly when no call of the job is between setCancel and clearCancel. */
  lemma FindsNobodyIff(s: State, k: nat, ch: Choice)
    requires CancelMap(s) && k < |s.frames| && s.frames[k].CancelCall? && s.frames[k].cancelPc.CancelRead?
    ensures var f, g := s.frames[k], Perform(s, Go(k, ch)).frames[k];
      g.CancelCall? && (g.cancelPc == CancelDone(None) <==>
        forall i :: 0 <= i < |s.frames| && Cancelable(s.frames[i]) ==> s.frames[i].job.name != f.name)
  {
    if s.frames[k].name in s.sh.cancels {
      assert Entry(s, s.frames[k].name);
    }
  }

  lemma InFlightStays(s: State, a: Action, i: nat, name: string, read: nat)
    requires AllTimed(s) && Enabled(s, a) && InFlightAt(s, i, name, read)
    ensures InFlightAt(Perform(s, a), i, name, read)
  {
    FramesAfter(s, a);
    if a.Go? && a.frame == i {
      assert Timed(s.frames[i], s.now, s.step);
      RunKeepsStarted(s, i, s.frames[i], a.choice);
    }
  }

  /** A target appears by reading `cancels`, is then never changed, and is signalled only by its own Cancel. */
  lemma TargetOnlyFromRead(s: State, k: nat, f: Frame, c: Choice)
    ensures var e := StepFrame(s, k, f, c);
      && (Target(f).Some? ==> Target(e.own) == Target(f) && e.own.name == f.name)
      && (Target(f).None? && Target(e.own).Some? ==>
            f.CancelCall? && e.own.name == f.name && f.name in s.sh.cancels
            && Target(e.own).value == (s.sh.cancels[f.name], s.step) && e.sh.cancels == s.sh.cancels)
      && (e.signalled != s.signalled ==>
            ReturnedTrue(e.own) && e.signalled == s.signalled + {e.own.cancelPc.signalled.value.0})
      && s.signalled <= e.signalled
      && (ReturnedTrue(f) ==> e.own == f)
      && (ReturnedTrue(e.own) && !ReturnedTrue(f) ==> e.own.cancelPc.signalled.value.0 in e.signalled)
  {
  }

  lemma StepKeepsTargets(s: State, a: Action)
    requires AllTimed(s) && CancelMap(s) && TargetsInFlight(s) && Enabled(s, a)
    ensures TargetsInFlight(Perform(s, a))
  {
    var s' := Perform(s, a);
    FramesAfter(s, a);
    AddedIsFresh(s, a);
    forall k | 0 <= k < |s'.frames| && Target(s'.frames[k]).Some?
      ensures InFlightAt(s', Target(s'.frames[k]).value.0, s'.frames[k].name, Target(s'.frames[k]).value.1)
    {
      if k < |s.frames| && Target(s.frames[k]).Some? {
        InFlightStays(s, a, Target(s.frames[k]).value.0, s.frames[k].name, Target(s.frames[k]).value.1);
      }
      if a.Go? && a.frame == k {
        TargetOnlyFromRead(s, k, s.frames[k], a.choice);
        if Target(s.frames[k]).None? {
          ReadIsInFlight(s, s.frames[k].name);
        }
      }
    }
  }

  /** What a step does to the signals, the Cancels that returned true, and the runs that ended canceled. */
  ghost predicate SignalsRightly(s: State, s': State) {
    && |s.frames| <= |s'.frames| && s.signalled <= s'.signalled
    && (forall k :: 0 <= k < |s.frames| && ReturnedTrue(s.frames[k]) ==> s'.frames[k] == s.frames[k])
    && (forall k :: 0 <= k < |s'.frames| && ReturnedTrue(s'.frames[k]) && !(k < |s.frames| && ReturnedTrue(s.frames[k])) ==>
          s'.frames[k].cancelPc.signalled.value.0 in s'.signalled)
    && (forall i :: i in s'.signalled && i !in s.signalled ==> SignalledBy(s', i))
  }

  lemma StepSignalsRightly(s: State, a: Action)
    requires Enabled(s, a)
    ensures SignalsRightly(s, Perform(s, a))
  {
    hide StepRun, StepLoop, StepTrigger, StepForce, StepCancel, StepFire;
    var s' := Perform(s, a);
    FramesAfter(s, a);
    AddedIsFresh(s, a);
    if a.Go? {
      TargetOnlyFromRead(s, a.frame, s.frames[a.frame], a.choice);
      assert s'.signalled != s.signalled ==> ReturnedTrue(s'.frames[a.frame]);
    } else {
      EnvironmentCancels(s, a);
    }
  }

  lemma SignalsStayExplained(s: State, s': State, i: nat)
    requires SignalsRightly(s, s') && (forall k :: k in s.signalled <==> SignalledBy(s, k))
    ensures i in s'.signalled <==> SignalledBy(s', i)
  {
    if i in s.signalled {
      var k :| 0 <= k < |s.frames| && ReturnedTrue(s.frames[k]) && s.frames[k].cancelPc.signalled.value.0 == i;
      assert s'.frames[k] == s.frames[k];
    }
    if SignalledBy(s', i) {
      var k :| 0 <= k < |s'.frames| && ReturnedTrue(s'.frames[k]) && s'.frames[k].cancelPc.signalled.value.0 == i;
      assert k < |s.frames| && ReturnedTrue(s.frames[k]) ==> SignalledBy(s, i);
    }
  }

  /** A run ends canceled only by its own read, of a signal or of its timeout. */
  lemma StepEndsCanceled(s: State, a: Action)
    requires AllTimed(s) && SignalsExplained(s) && Enabled(s, a)
    ensures var s' := Perform(s, a);
      forall i :: 0 <= i < |s'.frames| && EndedCanceled(s'.frames[i]) ==> i in s'.signalled || LimitPassed(s'.frames[i], s'.now)
  {
    hide StepRun, StepLoop, StepTrigger, StepForce, StepCancel, StepFire, SignalledBy;
    FramesAfter(s, a);
    AddedIsFresh(s, a);
    if a.Go? {
      if s.frames[a.frame].RunCall? {
        RunCancels(s, a.frame, s.frames[a.frame], a.choice);
      } else {
        OtherCancels(s, a.frame, s.frames[a.frame], a.choice);
        TargetOnlyFromRead(s, a.frame, s.frames[a.frame], a.choice);
      }
    } else {
      EnvironmentCancels(s, a);
    }
  }

  lemma StepKeepsExplained(s: State, a: Action)
    requires AllTimed(s) && SignalsExplained(s) && Enabled(s, a)
    ensures SignalsExplained(Perform(s, a))
  {
    StepSignalsRightly(s, a);
    StepEndsCanceled(s, a);
    hide SignalsRightly, SignalledBy, Perform;
    forall i: nat
      ensures i in Perform(s, a).signalled <==> SignalledBy(Perform(s, a), i)
    {
      SignalsStayExplained(s, Perform(s, a), i);
    }
  }

  ghost predicate CancelSafe(s: State) {
    && Exclusive(s) && AllTimed(s) && Serial(s)
    && CancelMap(s) && TargetsInFlight(s) && SignalsExplained(s)
  }

  lemma LaterIsCancelSafe(s: State, at: int)
    requires CancelSafe(s) && s.now <= at
    ensures CancelSafe(s.(now := at))
  {
    var t := s.(now := at);
    assert forall n :: NameHeld(t, n) <==> NameHeld(s, n);
    assert forall g :: GroupHeld(t, g) <==> GroupHeld(s, g);
    assert forall i :: SignalledBy(t, i) <==> SignalledBy(s, i);
  }

  lemma StepKeepsCancelSafe(s: State, e: Event)
    requires CancelSafe(s) && Can(s, e)
    ensures CancelSafe(Apply(s, e))
  {
    hide Exclusive, AllTimed, Serial, CancelMap, TargetsInFlight, SignalsExplained;
    var now := s.(now := e.at);
    LaterIsCancelSafe(s, e.at);
    StepKeepsExclusive(now, e.action);
    StepKeepsTimed(now, e.action);
    StepKeepsSerial(now, e.action);
    StepKeepsCancelMap(now, e.action);
    StepKeepsTargets(now, e.action);
    StepKeepsExplained(now, e.action);
  }

  lemma {:induction false} RunKeepsCancelSafe(s: State, es: seq<Event>)
    requires CancelSafe(s) && Legal(s, es)
    ensures CancelSafe(Exec(s, es))
    decreases |es|
  {
    if es != [] {
      StepKeepsCancelSafe(s, es[0]);
      RunKeepsCancelSafe(Apply(s, es[0]), es[1..]);
    }
  }

  /** No two runs of one job are in flight at one step. */
  lemma OneInFlight(s: State, i: nat, k: nat, name: string, read: nat)
    requires Serial(s) && InFlightAt(s, i, name, read) && InFlightAt(s, k, name, read)
    ensures i == k
  {
    if i != k {
      assert Clash(s.frames[i], s.frames[k]) && Clash(s.frames[k], s.frames[i]);
    }
  }

  /**
   In every reachable state `cancels` maps running jobs to their calls in flight. A Cancel that
   returned true signalled the one call of its job in flight when it read the map, so no later
   run; and a run ends canceled only because some Cancel of its job did so to it, or because its
   job has a timeout that had passed.
   */
  lemma {:induction false} CancelTargetsOneRun(c: Config, disabled: set<string>, now: int, es: seq<Event>)
    requires Legal(Init(c, disabled, now), es)
    ensures var s := Exec(Init(c, disabled, now), es);
      && CancelMap(s) && s.sh.cancels.Keys <= s.sh.running
      && (forall i :: i in s.signalled <==> SignalledBy(s, i))
      && (forall k, i :: 0 <= k < |s.frames| && ReturnedTrue(s.frames[k]) ==>
            (InFlightAt(s, i, s.frames[k].name, Target(s.frames[k]).value.1) <==> i == Target(s.frames[k]).value.0))
      && (forall i :: 0 <= i < |s.frames| && EndedCanceled(s.frames[i]) ==>
            SignalledBy(s, i) || LimitPassed(s.frames[i], s.now))
  {
    RunKeepsCancelSafe(Init(c, disabled, now), es);
    var s := Exec(Init(c, disabled, now), es);
    forall n | n in s.sh.cancels.Keys
      ensures n in s.sh.running
    {
      assert Holds(s.frames[s.sh.cancels[n]]);
      assert NameHeld(s, n);
    }
    forall k, i | 0 <= k < |s.frames| && ReturnedTrue(s.frames[k])
      ensures InFlightAt(s, i, s.frames[k].name, Target(s.frames[k]).value.1) <==> i == Target(s.frames[k]).value.0
    {
      if InFlightAt(s, i, s.frames[k].name, Target(s.frames[k]).value.1) {
        OneInFlight(s, i, Target(s.frames[k]).value.0, s.frames[k].name, Target(s.frames[k]).value.1);
      }
    }
  }
}
