/** What Trigger says it did is what it did. */
module Answers {
  import opened JobConfig
  import opened RunnerState
  import opened Protocol

  /** The call of Trigger has come back with this result. */
  predicate Said(f: Frame, r: TriggerResult) {
    f.TriggerCall? && f.triggerPc == TriggerDone(r)
  }

  /** What the call does in this step is what the result says. */
  predicate Does(s: State, f: Frame, s': State, r: TriggerResult)
    requires f.TriggerCall?
  {
    match r
    case JobDisabled => f.triggerPc.TriggerDisabled? && f.job.name in s.sh.disabled
    case Paused => f.triggerPc.TriggerDrain? && s.draining
    case RunStarted => f.triggerPc.TriggerDrain? && !s.draining && !(f.job.debounce.Parsed? && f.job.debounce.nanos > 0)
    case Coalesced => f.triggerPc.TriggerLock? && f.job.name in s.sh.running
    case Debounced(at) =>
      && f.triggerPc.TriggerLock? && f.job.name !in s.sh.running
      && f.job.name in s'.sh.firesAt && s'.sh.firesAt[f.job.name] == at
  }

  /** A run for the job itself, from outside, that begins at its beginning. */
  predicate IsPlainRun(f: Frame, job: Job) {
    && f.RunCall? && f.job == job && f.depth == 0 && f.coalesced == 0 && f.origin.External?
    && f.pc.CheckDisabled? && f.outcome.Unknown?
  }

  lemma StepSaysIff(s: State, i: nat, ch: Choice, r: TriggerResult)
    requires i < |s.frames| && s.frames[i].TriggerCall? && Runnable(s, i, ch)
    ensures var s' := Perform(s, Go(i, ch)); Said(s'.frames[i], r) <==> Does(s, s.frames[i], s', r)
  {
  }

  /** A call of Trigger starts a run of its job exactly when it says so, and nothing else. */
  lemma StartsIffItSaysSo(s: State, i: nat, ch: Choice)
    requires i < |s.frames| && s.frames[i].TriggerCall? && Runnable(s, i, ch)
    ensures var s', n := Perform(s, Go(i, ch)), |s.frames|;
      if Said(s'.frames[i], RunStarted) then |s'.frames| == n + 1 && IsPlainRun(s'.frames[n], s.frames[i].job)
      else |s'.frames| == n
  {
  }

  /** It counts one trigger exactly when it says that it was coalesced or debounced. */
  lemma CountsIffItSaysSo(s: State, i: nat, ch: Choice, name: string)
    requires i < |s.frames| && s.frames[i].TriggerCall? && Runnable(s, i, ch)
    ensures var s', f := Perform(s, Go(i, ch)), s.frames[i];
      Pending(s'.sh, name) == Pending(s.sh, name)
        + if name == f.job.name && s'.frames[i].triggerPc.TriggerDone?
             && (s'.frames[i].triggerPc.result.Coalesced? || s'.frames[i].triggerPc.result.Debounced?) then 1 else 0
  {
  }

  // Over whole runs.

  predicate DoesNow(s: State, a: Action, i: nat, r: TriggerResult) {
    && a.Go? && a.frame == i && i < |s.frames| && s.frames[i].TriggerCall?
    && Does(s, s.frames[i], Perform(s, a), r)
  }

  ghost predicate Did(s: State, es: seq<Event>, i: nat, r: TriggerResult)
    decreases |es|
  {
    && es != []
    && (DoesNow(s.(now := es[0].at), es[0].action, i, r) || Did(Apply(s, es[0]), es[1..], i, r))
  }

  lemma TriggersStayTriggers(s: State, i: nat, f: Frame, ch: Choice)
    ensures StepFrame(s, i, f, ch).own.TriggerCall? <==> f.TriggerCall?
  {
  }

  lemma AddedHasNotSaid(s: State, a: Action, r: TriggerResult)
    ensures Added(s, a).Some? ==> !Said(Added(s, a).value, r)
  {
  }

  lemma StepSaysOnce(s: State, a: Action, i: nat, r: TriggerResult)
    requires Enabled(s, a) && i < |Perform(s, a).frames|
    ensures Said(Perform(s, a).frames[i], r) <==> (i < |s.frames| && Said(s.frames[i], r)) || DoesNow(s, a, i, r)
  {
    hide Does;
    FramesAfter(s, a);
    AddedHasNotSaid(s, a, r);
    if a.Go? && a.frame == i {
      TriggersStayTriggers(s, i, s.frames[i], a.choice);
      if s.frames[i].TriggerCall? {
        StepSaysIff(s, i, a.choice, r);
      }
    }
  }

  lemma NoFrameDoes(s: State, a: Action, i: nat, r: TriggerResult)
    requires i >= |s.frames|
    ensures !DoesNow(s, a, i, r)
  {
  }

  lemma {:induction false} RunSaysIff(s: State, es: seq<Event>, i: nat, r: TriggerResult)
    requires Legal(s, es) && i < |Exec(s, es).frames|
    ensures Said(Exec(s, es).frames[i], r) <==> (i < |s.frames| && Said(s.frames[i], r)) || Did(s, es, i, r)
    decreases |es|
  {
    hide Said, DoesNow;
    if es != [] {
      var t, u := s.(now := es[0].at), Apply(s, es[0]);
      if i < |u.frames| {
        StepSaysOnce(t, es[0].action, i, r);
      } else {
        FramesAfter(t, es[0].action);
        NoFrameDoes(t, es[0].action, i, r);
      }
      RunSaysIff(u, es[1..], i, r);
    }
  }

  /**
   In every run a Trigger has come back with a result exactly when it did what the result says: it
   found its job disabled or drain mode on, started a run of a job without debounce, counted a
   trigger of a running job, or armed the timer for the instant it returns.
   */
  lemma {:induction false} SaysWhatItDid(c: Config, disabled: set<string>, now: int, es: seq<Event>, i: nat, r: TriggerResult)
    requires Legal(Init(c, disabled, now), es) && i < |Exec(Init(c, disabled, now), es).frames|
    ensures Said(Exec(Init(c, disabled, now), es).frames[i], r) <==> Did(Init(c, disabled, now), es, i, r)
  {
    RunSaysIff(Init(c, disabled, now), es, i, r);
  }
}
