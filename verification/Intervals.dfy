/** What mutual exclusion means for the recorded runs: conflicting runs never overlap in time. */
module Intervals {
  import opened Prelude
  import opened JobConfig
  import opened RunnerState
  import opened Protocol
  import opened Exclusion

  /** A call's instants are in order, none lies in the future, and they agree with its program counter. */
  ghost predicate InOrder(t: Times, now: int, step: nat) {
    && (t.acquired.Some? ==> t.acquired.value.at <= now && t.acquired.value.step < step)
    && (t.start.Some? ==> t.acquired.Some? && t.acquired.value.at <= t.start.value <= now)
    && (t.end.Some? ==> t.start.Some? && t.start.value <= t.end.value <= now)
    && (t.released.Some? ==> t.acquired.Some? && t.acquired.value.at <= t.released.value.at <= now && t.released.value.step < step)
    && (t.released.Some? && t.end.Some? ==> t.end.value <= t.released.value.at)
  }

  /** Which instants have been noted at which point of the call. */
  predicate Noted(f: Frame)
    requires f.RunCall?
  {
    var t := f.times;
    match f.pc
    case CheckDisabled => t == NO_TIMES
    case CheckDrain => t == NO_TIMES
    case Acquire => t == NO_TIMES
    case Requeue => t == NO_TIMES
    case WriteMeta => t.acquired.Some? && t.start.None? && t.end.None? && t.released.None?
    case SetCancel => t.acquired.Some? && t.start.Some? && t.end.None? && t.released.None?
    case Command => t.acquired.Some? && t.start.Some? && t.end.None? && t.released.None?
    case ReadTimedOut => t.acquired.Some? && t.start.Some? && t.end.Some? && t.released.None?
    case ReadContext => t.acquired.Some? && t.start.Some? && t.end.Some? && t.released.None?
    case ClearCancel => t.acquired.Some? && t.start.Some? && t.end.Some? && t.released.None?
    case Release => t.acquired.Some? && t.start.Some? && t.released.None?
    case Returned => t == NO_TIMES || t.released.Some?
    case _ => t.released.Some?
  }

  ghost predicate Timed(f: Frame, now: int, step: nat) {
    f.RunCall? ==> InOrder(f.times, now, step) && Noted(f)
  }

  ghost predicate AllTimed(s: State) {
    forall i :: 0 <= i < |s.frames| ==> Timed(s.frames[i], s.now, s.step)
  }

  predicate Started(f: Frame) {
    f.RunCall? && f.times.acquired.Some?
  }

  /** Two runs that both got going although one job or one group allows a single run. */
  predicate Clash(f: Frame, g: Frame) {
    Started(f) && Started(g) && Conflict(f.job, g.job)
  }

  /** f released no later than g acquired. */
  predicate Before(f: Frame, g: Frame) {
    && Started(f) && Started(g) && f.times.released.Some?
    && f.times.released.value.at <= g.times.acquired.value.at
    && f.times.released.value.step < g.times.acquired.value.step
  }

  ghost predicate Serial(s: State) {
    forall i, k :: 0 <= i < k < |s.frames| && Clash(s.frames[i], s.frames[k]) ==>
      Before(s.frames[i], s.frames[k]) || Before(s.frames[k], s.frames[i])
  }

  /** One goroutine's step leaves its own instants in order. */
  lemma RunKeepsTimed(s: State, i: nat, f: Frame, c: Choice)
    requires f.RunCall? && Timed(f, s.now, s.step) && f.pc != Returned
    ensures Timed(StepRun(s, i, f, c).own, s.now, s.step + 1)
    ensures StepRun(s, i, f, c).own.RunCall? && StepRun(s, i, f, c).own.job == f.job
  {
  }

  /** Only the acquire and the release write `acquired` and `released`. */
  lemma RunKeepsStarted(s: State, i: nat, f: Frame, c: Choice)
    requires f.RunCall?
    ensures var g := StepRun(s, i, f, c).own;
      && (f.pc.Acquire? || g.times.acquired == f.times.acquired)
      && (f.pc.Release? || g.times.released == f.times.released)
      && (f.pc.Acquire? && Holds(g) ==> AcquireDenial(s.sh, f.job).None? && g.times.acquired == Some(Moment(s.now, s.step)))
      && (f.pc.Acquire? && !Holds(g) ==> g.times == f.times)
      && (f.pc.Release? ==> g.times.released == Some(Moment(s.now, s.step)))
  {
  }

  lemma AddedIsUntimed(s: State, a: Action)
    ensures var f := Added(s, a);
      f.Some? && f.value.RunCall? ==> f.value.times == NO_TIMES && f.value.pc.CheckDisabled?
  {
  }

  lemma OthersStayOther(s: State, i: nat, f: Frame, c: Choice)
    requires !f.RunCall?
    ensures !StepFrame(s, i, f, c).own.RunCall?
  {
  }

  lemma StepKeepsTimed(s: State, a: Action)
    requires AllTimed(s) && Enabled(s, a)
    ensures AllTimed(Perform(s, a))
  {
    var s' := Perform(s, a);
    FramesAfter(s, a);
    AddedIsUntimed(s, a);
    forall k | 0 <= k < |s'.frames|
      ensures Timed(s'.frames[k], s.now, s.step + 1)
    {
      if k < |s.frames| {
        assert Timed(s.frames[k], s.now, s.step);
        if a.Go? && a.frame == k {
          if s.frames[k].RunCall? {
            RunKeepsTimed(s, k, s.frames[k], a.choice);
          } else {
            OthersStayOther(s, k, s.frames[k], a.choice);
          }
        }
      }
    }
  }

  /** A job that may acquire conflicts with nobody who still holds. */
  lemma FreeMeansReleased(s: State, job: Job, k: nat)
    requires Exclusive(s) && k < |s.frames| && AcquireDenial(s.sh, job).None?
    requires s.frames[k].RunCall? && Conflict(job, s.frames[k].job)
    ensures !Holds(s.frames[k])
  {
    if Holds(s.frames[k]) {
      assert NameHeld(s, s.frames[k].job.name);
      assert s.frames[k].job.group != "" ==> GroupHeld(s, s.frames[k].job.group);
    }
  }

  /** The heart: whoever acquires now finds every conflicting earlier run already released. */
  lemma StepKeepsSerial(s: State, a: Action)
    requires Exclusive(s) && AllTimed(s) && Serial(s) && Enabled(s, a)
    ensures Serial(Perform(s, a))
  {
    hide StepRun, StepLoop, StepTrigger, StepForce, StepCancel, StepFire, Exclusive;
    var s' := Perform(s, a);
    FramesAfter(s, a);
    AddedIsUntimed(s, a);
    if a.Go? {
      var i, f := a.frame, s.frames[a.frame];
      assert Timed(f, s.now, s.step);
      if f.RunCall? {
        RunKeepsStarted(s, i, f, a.choice);
        RunKeepsTimed(s, i, f, a.choice);
        var g := s'.frames[i];
        forall k | 0 <= k < |s.frames| && k != i && Clash(g, s.frames[k])
          ensures Before(g, s.frames[k]) || Before(s.frames[k], g)
        {
          assert Timed(s.frames[k], s.now, s.step);
          if Started(f) {
            assert Clash(f, s.frames[k]) && Clash(s.frames[k], f);
          } else {
            FreeMeansReleased(s, f.job, k);
          }
        }
      } else {
        OthersStayOther(s, i, f, a.choice);
      }
    }
  }

  lemma {:induction false} RunKeepsSerial(s: State, es: seq<Event>)
    requires Exclusive(s) && AllTimed(s) && Serial(s) && Legal(s, es)
    ensures var s' := Exec(s, es); Exclusive(s') && AllTimed(s') && Serial(s')
    decreases |es|
  {
    if es != [] {
      var now := s.(now := es[0].at);
      StepKeepsExclusive(now, es[0].action);
      StepKeepsTimed(now, es[0].action);
      StepKeepsSerial(now, es[0].action);
      RunKeepsSerial(Apply(s, es[0]), es[1..]);
    }
  }

  function Holders(s: State): set<nat> {
    set i: nat | i < |s.frames| && Holds(s.frames[i])
  }

  /** A set of names counts the members of a set of calls that carry different names. */
  lemma {:induction false} CountByName(s: State, holders: set<nat>, names: set<string>)
    requires forall i :: i in holders ==> i < |s.frames| && s.frames[i].RunCall? && s.frames[i].job.name in names
    requires forall n :: n in names ==> exists i :: i in holders && s.frames[i].job.name == n
    requires forall i, k :: i in holders && k in holders && i != k ==> s.frames[i].job.name != s.frames[k].job.name
    ensures |holders| == |names|
    decreases |holders|
  {
    if holders == {} {
      assert names == {};
    } else {
      var i :| i in holders;
      var n := s.frames[i].job.name;
      forall m | m in names - {n}
        ensures exists k :: k in holders - {i} && s.frames[k].job.name == m
      {
        var k :| k in holders && s.frames[k].job.name == m;
        assert k in holders - {i};
      }
      CountByName(s, holders - {i}, names - {n});
    }
  }

  lemma RunningCountIsHolders(s: State)
    requires Exclusive(s)
    ensures |s.sh.running| == |Holders(s)|
  {
    forall n | n in s.sh.running
      ensures exists i :: i in Holders(s) && s.frames[i].job.name == n
    {
      assert NameHeld(s, n);
      var i :| 0 <= i < |s.frames| && Holds(s.frames[i]) && s.frames[i].job.name == n;
      assert i in Holders(s);
    }
    forall i | i in Holders(s)
      ensures s.frames[i].job.name in s.sh.running
    {
      assert NameHeld(s, s.frames[i].job.name);
    }
    CountByName(s, Holders(s), s.sh.running);
  }

  predicate Recorded(f: Frame) {
    f.RunCall? && f.times.start.Some? && f.times.end.Some?
  }

  /** The recorded intervals [start, end] have at most an endpoint in common. */
  predicate Apart(f: Frame, g: Frame)
    requires Recorded(f) && Recorded(g)
  {
    f.times.end.value <= g.times.start.value || g.times.end.value <= f.times.start.value
  }

  /**
   In every state of every interleaving, config reloads included: the guards name exactly the
   calls in flight, RunningCount counts them, and the recorded intervals of one job, or of one
   captured group, have no common interior.
   */
  lemma {:induction false} MutualExclusion(c: Config, disabled: set<string>, now: int, es: seq<Event>)
    requires Legal(Init(c, disabled, now), es)
    ensures var s := Exec(Init(c, disabled, now), es);
      && Exclusive(s)
      && |s.sh.running| == |Holders(s)|
      && forall i, k :: 0 <= i < k < |s.frames| && Recorded(s.frames[i]) && Recorded(s.frames[k]) ==>
           (Conflict(s.frames[i].job, s.frames[k].job) ==> Apart(s.frames[i], s.frames[k]))
  {
    RunKeepsSerial(Init(c, disabled, now), es);
    var s := Exec(Init(c, disabled, now), es);
    RunningCountIsHolders(s);
    forall i, k | 0 <= i < k < |s.frames| && Recorded(s.frames[i]) && Recorded(s.frames[k])
      && Conflict(s.frames[i].job, s.frames[k].job)
      ensures Apart(s.frames[i], s.frames[k])
    {
      assert Timed(s.frames[i], s.now, s.step) && Timed(s.frames[k], s.now, s.step);
      assert Clash(s.frames[i], s.frames[k]);
    }
  }
}
