/** What becomes of a call: turned away, unable to write its record, or run to an end. */
module Outcomes {
  import opened Prelude
  import opened JobConfig
  import opened RunnerState
  import opened Protocol
  import opened Intervals

  /** Has not been turned away nor acquired yet. */
  predicate Undecided(f: Frame) {
    f.RunCall? && (f.pc.CheckDisabled? || f.pc.CheckDrain? || f.pc.Acquire?) && f.times.acquired.None?
  }

  /** Was turned away; a debounced call still has its trigger to count. */
  predicate Refused(f: Frame) {
    f.RunCall? && (f.pc.Requeue? || f.pc.Returned?) && f.times.acquired.None?
  }

  predicate Admitted(f: Frame) {
    f.RunCall? && !f.pc.CheckDisabled? && !f.pc.CheckDrain? && !f.pc.Acquire? && !f.pc.Requeue? && f.times.acquired.Some?
  }

  /** Call i now finds its job disabled, drain mode on, or its job or group taken. */
  predicate TurnedAway(s: State, a: Action, i: nat)
    requires i < |s.frames|
  {
    && a.Go? && a.frame == i && s.frames[i].RunCall?
    && var f := s.frames[i];
      || (f.pc.CheckDisabled? && f.job.name in s.sh.disabled)
      || (f.pc.CheckDrain? && s.draining)
      || (f.pc.Acquire? && AcquireDenial(s.sh, f.job).Some?)
  }

  lemma DrainStaysAdmitted(s: State, i: nat, f: Frame)
    requires f.RunCall?
    ensures var g := StepDrain(s, i, f).own;
      g.RunCall? && g.times == f.times && (g.pc.DrainLookup? || g.pc.Chain? || g.pc.Returned?)
  {
  }

  lemma RunDecides(s: State, i: nat, f: Frame, ch: Choice)
    requires f.RunCall? && !f.pc.Returned?
    ensures var g := StepRun(s, i, f, ch).own;
      && (Refused(f) ==> Refused(g))
      && (Admitted(f) ==> Admitted(g))
      && (Undecided(f) ==> Refused(g) || Admitted(g) || Undecided(g))
  {
    hide StepDrain, Lookup, ChainTargets;
    RunKeepsStarted(s, i, f, ch);
    DrainStaysAdmitted(s, i, f);
  }

  lemma UndecidedStep(s: State, i: nat, ch: Choice)
    requires i < |s.frames| && Undecided(s.frames[i])
    ensures Refused(StepRun(s, i, s.frames[i], ch).own) <==> TurnedAway(s, Go(i, ch), i)
  {
  }

  // What the switches say.

  function DisabledAfter(es: seq<Event>, name: string, was: bool): bool
    decreases |es|
  {
    if es == [] then was
    else DisabledAfter(es[1..], name,
                       if es[0].action.SetDisabled? && es[0].action.name == name then es[0].action.off else was)
  }

  function DrainingAfter(es: seq<Event>, was: bool): bool
    decreases |es|
  {
    if es == [] then was
    else DrainingAfter(es[1..], if es[0].action.SetDraining? then es[0].action.on else was)
  }

  lemma ExecuteKeepsDisabled(s: State, i: nat, f: Frame, ch: Choice)
    requires f.RunCall?
    ensures StepExecute(s, i, f, ch).sh.disabled == s.sh.disabled
  {
  }

  lemma DrainKeepsDisabled(s: State, i: nat, f: Frame)
    requires f.RunCall?
    ensures StepDrain(s, i, f).sh.disabled == s.sh.disabled
  {
    hide DrainPick;
  }

  lemma RunKeepsDisabled(s: State, i: nat, f: Frame, ch: Choice)
    requires f.RunCall?
    ensures StepRun(s, i, f, ch).sh.disabled == s.sh.disabled
  {
    hide StepExecute, StepDrain, Lookup, AcquireDenial, ChainTargets, Settle;
    assert StepExecute(s, i, f, ch).sh.disabled == s.sh.disabled by {
      ExecuteKeepsDisabled(s, i, f, ch);
    }
    assert StepDrain(s, i, f).sh.disabled == s.sh.disabled by {
      DrainKeepsDisabled(s, i, f);
    }
  }

  function ConfigAfter(es: seq<Event>, was: Config): Config
    decreases |es|
  {
    if es == [] then was else ConfigAfter(es[1..], if es[0].action.Reload? then es[0].action.config else was)
  }

  lemma FramesKeepDisabled(s: State, i: nat, f: Frame, ch: Choice)
    ensures StepFrame(s, i, f, ch).sh.disabled == s.sh.disabled
  {
    hide StepRun, Lookup;
    if f.RunCall? {
      RunKeepsDisabled(s, i, f, ch);
    }
  }

  lemma StepSwitches(s: State, a: Action, name: string)
    ensures name in Perform(s, a).sh.disabled <==>
      if a.SetDisabled? && a.name == name then a.off else name in s.sh.disabled
    ensures Perform(s, a).draining == if a.SetDraining? then a.on else s.draining
    ensures Perform(s, a).config == if a.Reload? then a.config else s.config
  {
    match a
    case Go(i, ch) =>
      if i < |s.frames| {
        FramesKeepDisabled(s, i, s.frames[i], ch);
      }
    case _ =>
  }

  /** Disabled is what was switched off last, drain mode is on when it was turned on last, the configuration is the last loaded. */
  lemma {:induction false} SwitchesHold(s: State, es: seq<Event>, name: string)
    ensures name in Exec(s, es).sh.disabled <==> DisabledAfter(es, name, name in s.sh.disabled)
    ensures Exec(s, es).draining == DrainingAfter(es, s.draining)
    ensures Exec(s, es).config == ConfigAfter(es, s.config)
    decreases |es|
  {
    if es != [] {
      StepSwitches(s.(now := es[0].at), es[0].action, name);
      SwitchesHold(Apply(s, es[0]), es[1..], name);
    }
  }

  // Who is turned away.

  ghost predicate WasTurnedAway(s: State, es: seq<Event>, i: nat)
    decreases |es|
  {
    && es != []
    && var t := s.(now := es[0].at);
      (i < |t.frames| && TurnedAway(t, es[0].action, i)) || WasTurnedAway(Apply(s, es[0]), es[1..], i)
  }

  /** Once decided, a call stays so, and is not turned away again. */
  lemma {:induction false} DecidedStays(s: State, es: seq<Event>, i: nat)
    requires Legal(s, es) && i < |s.frames| && (Refused(s.frames[i]) || Admitted(s.frames[i]))
    ensures !WasTurnedAway(s, es, i) && i < |Exec(s, es).frames|
    ensures Refused(s.frames[i]) ==> Refused(Exec(s, es).frames[i])
    ensures Admitted(s.frames[i]) ==> Admitted(Exec(s, es).frames[i])
    decreases |es|
  {
    if es != [] {
      var t := s.(now := es[0].at);
      FramesAfter(t, es[0].action);
      if es[0].action.Go? && es[0].action.frame == i {
        RunDecides(t, i, s.frames[i], es[0].action.choice);
      }
      DecidedStays(Apply(s, es[0]), es[1..], i);
    }
  }

  lemma {:induction false} OtherStaysOther(s: State, es: seq<Event>, i: nat)
    requires Legal(s, es) && i < |s.frames| && !s.frames[i].RunCall?
    ensures i < |Exec(s, es).frames| && !Exec(s, es).frames[i].RunCall?
    decreases |es|
  {
    if es != [] {
      var t := s.(now := es[0].at);
      FramesAfter(t, es[0].action);
      if es[0].action.Go? && es[0].action.frame == i {
        OthersStayOther(t, i, s.frames[i], es[0].action.choice);
      }
      OtherStaysOther(Apply(s, es[0]), es[1..], i);
    }
  }

  lemma {:induction false} UndecidedRun(s: State, es: seq<Event>, i: nat)
    requires Legal(s, es) && (i < |s.frames| ==> Undecided(s.frames[i]))
    requires i < |Exec(s, es).frames| && Exec(s, es).frames[i].RunCall?
    ensures var f := Exec(s, es).frames[i]; Refused(f) || Admitted(f) || Undecided(f)
    ensures Refused(Exec(s, es).frames[i]) <==> WasTurnedAway(s, es, i)
    decreases |es|
  {
    if es != [] {
      var t, u := s.(now := es[0].at), Apply(s, es[0]);
      FramesAfter(t, es[0].action);
      AddedIsUntimed(t, es[0].action);
      if i < |s.frames| && es[0].action.Go? && es[0].action.frame == i {
        RunDecides(t, i, s.frames[i], es[0].action.choice);
        UndecidedStep(t, i, es[0].action.choice);
      }
      if i < |u.frames| && !u.frames[i].RunCall? {
        OtherStaysOther(u, es[1..], i);
      } else if i < |u.frames| && !Undecided(u.frames[i]) {
        DecidedStays(u, es[1..], i);
      } else {
        UndecidedRun(u, es[1..], i);
      }
    }
  }

  /**
   In every run, whatever is switched and reloaded: a call that has returned, whether given a batch
   or not, has not acquired exactly when it found its job disabled, drain mode on, or its job or
   group taken.
   */
  lemma {:induction false} ReturnsUnrunIff(c: Config, disabled: set<string>, now: int, es: seq<Event>, i: nat)
    requires Legal(Init(c, disabled, now), es)
    requires var s := Exec(Init(c, disabled, now), es); i < |s.frames| && s.frames[i].RunCall? && s.frames[i].pc.Returned?
    ensures Exec(Init(c, disabled, now), es).frames[i].times.acquired.None? <==> WasTurnedAway(Init(c, disabled, now), es, i)
  {
    UndecidedRun(Init(c, disabled, now), es, i);
  }

  // Calls that acquired.

  /** The outcome and the acquire agree with the program counter. */
  predicate Fits(f: Frame) {
    f.RunCall? ==>
      match f.pc
      case CheckDisabled => f.outcome.Unknown? && f.times.acquired.None?
      case CheckDrain => f.outcome.Unknown? && f.times.acquired.None?
      case Acquire => f.outcome.Unknown? && f.times.acquired.None?
      case Requeue => f.outcome.Unknown? && f.times.acquired.None?
      case WriteMeta => f.outcome.Unknown? && f.times.acquired.Some?
      case SetCancel => f.outcome.Unknown? && f.times.acquired.Some?
      case Command => f.outcome.Unknown? && f.times.acquired.Some?
      case ReadTimedOut => f.outcome.Unknown? && f.times.acquired.Some?
      case ReadContext => f.outcome.Unknown? && f.times.acquired.Some?
      case ClearCancel => f.outcome.Finished? && f.times.acquired.Some?
      case Chain => f.outcome.Finished? && f.times.acquired.Some?
      case Returned => f.outcome.Unknown? <==> f.times.acquired.None?
      case _ => !f.outcome.Unknown? && f.times.acquired.Some?
  }

  ghost predicate AllFit(s: State) {
    forall i :: 0 <= i < |s.frames| ==> Fits(s.frames[i])
  }

  /** The call's outcome is o. */
  predicate Has(f: Frame, o: Outcome) {
    f.RunCall? && f.outcome == o
  }

  /** What the call finds in this step makes its outcome o. */
  predicate Finds(s: State, i: nat, f: Frame, ch: Choice, o: Outcome)
    requires f.RunCall?
  {
    match o
    case Unknown => false
    case Errored => f.pc.WriteMeta? && !ch.written
    case Finished(Timeout) => f.pc.ReadTimedOut? && ch.limitHit
    case Finished(Canceled) => f.pc.ReadContext? && (i in s.signalled || ch.limitHit)
    case Finished(Success) => f.pc.ReadContext? && i !in s.signalled && !ch.limitHit && ch.succeeds
    case Finished(Failed) => f.pc.ReadContext? && i !in s.signalled && !ch.limitHit && !ch.succeeds
  }

  lemma RunFits(s: State, i: nat, f: Frame, ch: Choice)
    requires f.RunCall? && Fits(f) && !f.pc.Returned?
    ensures Fits(StepRun(s, i, f, ch).own)
  {
    hide Lookup, DrainPick, ChainTargets, AcquireDenial;
  }

  lemma RunFinds(s: State, i: nat, f: Frame, ch: Choice, o: Outcome)
    requires f.RunCall? && Fits(f) && !f.pc.Returned? && !o.Unknown?
    ensures Has(StepRun(s, i, f, ch).own, o) <==> Has(f, o) || Finds(s, i, f, ch, o)
  {
    hide Lookup, DrainPick, ChainTargets, AcquireDenial;
  }

  lemma AddedFits(s: State, a: Action)
    ensures Added(s, a).Some? ==>
      Fits(Added(s, a).value) && (Added(s, a).value.RunCall? ==> Added(s, a).value.outcome.Unknown?)
  {
  }

  lemma OthersFit(s: State, i: nat, f: Frame, ch: Choice)
    requires !f.RunCall?
    ensures Fits(StepFrame(s, i, f, ch).own) && !StepFrame(s, i, f, ch).own.RunCall?
  {
    OthersStayOther(s, i, f, ch);
  }

  lemma StepFits(s: State, a: Action)
    requires AllFit(s) && Enabled(s, a)
    ensures AllFit(Perform(s, a))
  {
    hide Fits;
    FramesAfter(s, a);
    AddedFits(s, a);
    if a.Go? {
      var f := s.frames[a.frame];
      if f.RunCall? {
        RunFits(s, a.frame, f, a.choice);
      } else {
        OthersFit(s, a.frame, f, a.choice);
      }
    }
  }

  /** Call i now finds what makes its outcome o. */
  predicate FindsNow(s: State, a: Action, i: nat, o: Outcome) {
    a.Go? && a.frame == i && i < |s.frames| && s.frames[i].RunCall? && Finds(s, i, s.frames[i], a.choice, o)
  }

  /** Call i at some time found it. */
  ghost predicate Found(s: State, es: seq<Event>, i: nat, o: Outcome)
    decreases |es|
  {
    && es != []
    && (FindsNow(s.(now := es[0].at), es[0].action, i, o) || Found(Apply(s, es[0]), es[1..], i, o))
  }

  lemma StepFindsIff(s: State, a: Action, i: nat, o: Outcome)
    requires AllFit(s) && Enabled(s, a) && i < |Perform(s, a).frames| && !o.Unknown?
    ensures Has(Perform(s, a).frames[i], o) <==> (i < |s.frames| && Has(s.frames[i], o)) || FindsNow(s, a, i, o)
  {
    hide Finds;
    FramesAfter(s, a);
    AddedFits(s, a);
    if a.Go? && a.frame == i {
      assert Fits(s.frames[i]);
      if s.frames[i].RunCall? {
        RunFinds(s, i, s.frames[i], a.choice, o);
      } else {
        OthersFit(s, i, s.frames[i], a.choice);
      }
    }
  }

  lemma LaterFits(s: State, at: int)
    requires AllFit(s)
    ensures AllFit(s.(now := at))
  {
  }

  lemma NoFrameFinds(s: State, a: Action, i: nat, o: Outcome)
    requires i >= |s.frames|
    ensures !FindsNow(s, a, i, o)
  {
  }

  lemma {:induction false} RunFindsIff(s: State, es: seq<Event>, i: nat, o: Outcome)
    requires AllFit(s) && Legal(s, es) && i < |Exec(s, es).frames| && !o.Unknown?
    ensures AllFit(Exec(s, es))
    ensures Has(Exec(s, es).frames[i], o) <==> (i < |s.frames| && Has(s.frames[i], o)) || Found(s, es, i, o)
    decreases |es|
  {
    hide AllFit, Has, FindsNow;
    if es != [] {
      var t, u := s.(now := es[0].at), Apply(s, es[0]);
      LaterFits(s, es[0].at);
      StepFits(t, es[0].action);
      if i < |u.frames| {
        StepFindsIff(t, es[0].action, i, o);
      } else {
        FramesAfter(t, es[0].action);
        NoFrameFinds(t, es[0].action, i, o);
      }
      RunFindsIff(u, es[1..], i, o);
    }
  }

  /**
   In every run a call's outcome is what it found: an error if it could not write its record;
   timed out if its first read saw the timeout's flag; canceled if its second read saw a Cancel or
   the timeout; and otherwise what its command did. A timeout is seen only when it has passed.
   */
  lemma {:induction false} OutcomeIs(c: Config, disabled: set<string>, now: int, es: seq<Event>, i: nat, o: Outcome)
    requires Legal(Init(c, disabled, now), es) && !o.Unknown?
    requires i < |Exec(Init(c, disabled, now), es).frames|
    ensures Has(Exec(Init(c, disabled, now), es).frames[i], o) <==> Found(Init(c, disabled, now), es, i, o)
  {
    RunFindsIff(Init(c, disabled, now), es, i, o);
  }

  /** The limit a call's read may see: the job's own, counted from the instant of its record. */
  lemma SeenLimitHasPassed(s: State, a: Action, i: nat)
    requires Enabled(s, a) && (FindsNow(s, a, i, Finished(Timeout)) || (FindsNow(s, a, i, Finished(Canceled)) && i !in s.signalled))
    ensures var f := s.frames[i];
      f.job.timeout.Parsed? && f.job.timeout.nanos > 0 && f.times.start.Some?
      && f.times.start.value + f.job.timeout.nanos <= s.now
  {
  }

  /**
   A call that acquired and has returned has either finished, with a status, or come back with an
   error.
   */
  lemma {:induction false} ReturnsWithOutcome(c: Config, disabled: set<string>, now: int, es: seq<Event>, i: nat)
    requires Legal(Init(c, disabled, now), es)
    requires var s := Exec(Init(c, disabled, now), es);
      i < |s.frames| && s.frames[i].RunCall? && s.frames[i].pc.Returned? && s.frames[i].times.acquired.Some?
    ensures var o := Exec(Init(c, disabled, now), es).frames[i].outcome;
      (o.Errored? || o.Finished?) && Found(Init(c, disabled, now), es, i, o)
  {
    var o := Exec(Init(c, disabled, now), es).frames[i].outcome;
    RunFindsIff(Init(c, disabled, now), es, i, Errored);
    assert Fits(Exec(Init(c, disabled, now), es).frames[i]);
    RunFindsIff(Init(c, disabled, now), es, i, o);
  }

  // The instants in a call's record.

  /** The instant the call notes when it leaves this place. */
  function NotedAt(f: Frame, pc: Pc): Option<int>
    requires f.RunCall?
  {
    match pc
    case Acquire => if f.times.acquired.Some? then Some(f.times.acquired.value.at) else None
    case WriteMeta => f.times.start
    case Command => f.times.end
    case Release => if f.times.released.Some? then Some(f.times.released.value.at) else None
    case _ => None
  }

  /** Call i leaves the place at this instant; an acquire counts when it is not denied. */
  predicate LeavesNow(s: State, a: Action, i: nat, pc: Pc, at: int) {
    && a.Go? && a.frame == i && i < |s.frames| && s.frames[i].RunCall? && s.frames[i].pc == pc && s.now == at
    && (pc.Acquire? ==> AcquireDenial(s.sh, s.frames[i].job).None?)
  }

  ghost predicate Left(s: State, es: seq<Event>, i: nat, pc: Pc, at: int)
    decreases |es|
  {
    && es != []
    && (LeavesNow(s.(now := es[0].at), es[0].action, i, pc, at) || Left(Apply(s, es[0]), es[1..], i, pc, at))
  }

  predicate Notes(f: Frame, pc: Pc, at: int) {
    f.RunCall? && NotedAt(f, pc) == Some(at)
  }

  lemma RunNotesIff(s: State, i: nat, f: Frame, ch: Choice, pc: Pc, at: int)
    requires f.RunCall? && Noted(f) && !f.pc.Returned? && (pc.Acquire? || pc.WriteMeta? || pc.Command? || pc.Release?)
    ensures Notes(StepRun(s, i, f, ch).own, pc, at) <==>
      Notes(f, pc, at) || (f.pc == pc && s.now == at && (pc.Acquire? ==> AcquireDenial(s.sh, f.job).None?))
  {
    hide Lookup, DrainPick, ChainTargets, AcquireDenial;
  }

  lemma StepNotesIff(s: State, a: Action, i: nat, pc: Pc, at: int)
    requires AllTimed(s) && Enabled(s, a) && i < |Perform(s, a).frames|
    requires pc.Acquire? || pc.WriteMeta? || pc.Command? || pc.Release?
    ensures Notes(Perform(s, a).frames[i], pc, at) <==>
      (i < |s.frames| && Notes(s.frames[i], pc, at)) || LeavesNow(s, a, i, pc, at)
  {
    FramesAfter(s, a);
    AddedIsUntimed(s, a);
    if a.Go? && a.frame == i {
      assert Timed(s.frames[i], s.now, s.step);
      if s.frames[i].RunCall? {
        RunNotesIff(s, i, s.frames[i], a.choice, pc, at);
      } else {
        OthersStayOther(s, i, s.frames[i], a.choice);
      }
    }
  }

  lemma NoFrameLeaves(s: State, a: Action, i: nat, pc: Pc, at: int)
    requires i >= |s.frames|
    ensures !LeavesNow(s, a, i, pc, at)
  {
  }

  lemma {:induction false} RunNotes(s: State, es: seq<Event>, i: nat, pc: Pc, at: int)
    requires AllTimed(s) && Legal(s, es) && i < |Exec(s, es).frames|
    requires pc.Acquire? || pc.WriteMeta? || pc.Command? || pc.Release?
    ensures Notes(Exec(s, es).frames[i], pc, at) <==> (i < |s.frames| && Notes(s.frames[i], pc, at)) || Left(s, es, i, pc, at)
    decreases |es|
  {
    hide Notes, LeavesNow;
    if es != [] {
      var t, u := s.(now := es[0].at), Apply(s, es[0]);
      assert AllTimed(t);
      hide AllTimed;
      StepKeepsTimed(t, es[0].action);
      if i < |u.frames| {
        StepNotesIff(t, es[0].action, i, pc, at);
      } else {
        FramesAfter(t, es[0].action);
        NoFrameLeaves(t, es[0].action, i, pc, at);
      }
      RunNotes(u, es[1..], i, pc, at);
    }
  }

  /**
   In every run: a call's acquire, start, end and release are noted as the instants at which it
   got its job and group, wrote its record, saw its command end, and gave them up.
   */
  lemma {:induction false} InstantsAre(c: Config, disabled: set<string>, now: int, es: seq<Event>, i: nat, pc: Pc, at: int)
    requires Legal(Init(c, disabled, now), es) && i < |Exec(Init(c, disabled, now), es).frames|
    requires pc.Acquire? || pc.WriteMeta? || pc.Command? || pc.Release?
    ensures Notes(Exec(Init(c, disabled, now), es).frames[i], pc, at) <==> Left(Init(c, disabled, now), es, i, pc, at)
  {
    RunNotes(Init(c, disabled, now), es, i, pc, at);
  }
}
