/** A job's debounce timer: a replaced one is stopped, and when it is that two of them can be armed. */
module OneTimer {
  import opened JobConfig
  import opened RunnerState
  import opened Protocol
  import opened Debounce

  /** The job's entry in `timers` is timer t. */
  predicate Maps(sh: Shared, name: string, t: nat) {
    name in sh.timers && sh.timers[name] == t && t < |sh.wheel|
  }

  /** A debounced trigger of the job is about to arm its timer. */
  predicate ArmsNow(s: State, a: Action, name: string) {
    && a.Go? && a.frame < |s.frames| && s.frames[a.frame].TriggerCall? && s.frames[a.frame].triggerPc.TriggerLock?
    && s.frames[a.frame].job.name == name && name !in s.sh.running
  }

  predicate Forces(s: State, a: Action, name: string) {
    && a.Go? && a.frame < |s.frames| && s.frames[a.frame].ForceCall? && s.frames[a.frame].forcePc.ForceLock?
    && s.frames[a.frame].job.name == name
  }

  /** A trigger and a forced run leave the timer they replace or remove stopped, unless it had expired, and no other. */
  lemma ReplacedIsStopped(s: State, a: Action, name: string, t: nat)
    requires Enabled(s, a) && Maps(s.sh, name, t) && (ArmsNow(s, a, name) || Forces(s, a, name))
    ensures var sh := Perform(s, a).sh;
      && |s.sh.wheel| <= |sh.wheel| && !Maps(sh, name, t)
      && sh.wheel[t].status != Armed
      && (s.sh.wheel[t].status != Armed ==> sh.wheel[t] == s.sh.wheel[t])
      && (forall k :: 0 <= k < |s.sh.wheel| && k != t ==> sh.wheel[k] == s.sh.wheel[k])
  {
  }

  /** Every armed timer is the one its job's entry names. */
  ghost predicate AllMapped(sh: Shared) {
    forall t :: 0 <= t < |sh.wheel| && sh.wheel[t].status == Armed ==> Maps(sh, sh.wheel[t].name, t)
  }

  /** The callback of a timer that is no longer the job's drops the entry of the one that is, and that one is armed. */
  predicate DropsArmed(s: State, a: Action) {
    && a.Fire? && a.timer < |s.sh.wheel|
    && var name := s.sh.wheel[a.timer].name;
      && name in s.sh.timers && s.sh.timers[name] != a.timer
      && s.sh.timers[name] < |s.sh.wheel| && s.sh.wheel[s.sh.timers[name]].status == Armed
  }

  lemma FireKeepsMappedIff(s: State, t: nat)
    requires Booked(s.sh) && AllMapped(s.sh) && Enabled(s, Fire(t))
    ensures AllMapped(FireShared(s, t).0) <==> !DropsArmed(s, Fire(t))
  {
    var name, sh := s.sh.wheel[t].name, FireShared(s, t).0;
    if DropsArmed(s, Fire(t)) {
      assert IsReal(s.sh, name);
      assert sh.wheel[s.sh.timers[name]].status == Armed && !Maps(sh, name, s.sh.timers[name]);
    }
  }

  lemma ArmingKeepsMapped(s: State, i: nat, f: Frame, ch: Choice)
    requires Booked(s.sh) && AllMapped(s.sh)
    requires (f.TriggerCall? && f.triggerPc.TriggerLock?) || (f.ForceCall? && f.forcePc.ForceLock?)
    ensures AllMapped(StepFrame(s, i, f, ch).sh)
  {
    var sh := StepFrame(s, i, f, ch).sh;
    forall t | 0 <= t < |sh.wheel| && sh.wheel[t].status == Armed
      ensures Maps(sh, sh.wheel[t].name, t)
    {
      assert t < |s.sh.wheel| ==> Maps(s.sh, s.sh.wheel[t].name, t);
    }
  }

  /** One step leaves an armed timer without its entry exactly when it is such a callback. */
  lemma StepKeepsMappedIff(s: State, a: Action)
    requires Booked(s.sh) && AllMapped(s.sh) && Enabled(s, a)
    ensures AllMapped(Perform(s, a).sh) <==> !DropsArmed(s, a)
  {
    match a
    case Go(i, ch) =>
      var f := s.frames[i];
      if (f.TriggerCall? && f.triggerPc.TriggerLock?) || (f.ForceCall? && f.forcePc.ForceLock?) {
        ArmingKeepsMapped(s, i, f, ch);
      } else {
        OthersKeepTimers(s, i, f, ch);
      }
    case Fire(t) => FireKeepsMappedIff(s, t);
    case Expire(t) =>
    case _ => CallKeepsTimers(s, a);
  }

  ghost predicate NeverDropsArmed(s: State, es: seq<Event>)
    decreases |es|
  {
    es == [] || (!DropsArmed(s.(now := es[0].at), es[0].action) && NeverDropsArmed(Apply(s, es[0]), es[1..]))
  }

  lemma {:induction false} RunKeepsMapped(s: State, es: seq<Event>)
    requires Booked(s.sh) && AllMapped(s.sh) && Legal(s, es) && NeverDropsArmed(s, es)
    ensures Booked(Exec(s, es).sh) && AllMapped(Exec(s, es).sh)
    decreases |es|
  {
    if es != [] {
      StepKeepsMappedIff(s.(now := es[0].at), es[0].action);
      StepKeepsBooked(s.(now := es[0].at), es[0].action);
      RunKeepsMapped(Apply(s, es[0]), es[1..]);
    }
  }

  /** While no callback of a replaced or removed timer has dropped an armed one's entry, a job has at most one armed timer. */
  lemma {:induction false} OneArmedTimer(c: Config, disabled: set<string>, now: int, es: seq<Event>)
    requires Legal(Init(c, disabled, now), es) && NeverDropsArmed(Init(c, disabled, now), es)
    ensures var sh := Exec(Init(c, disabled, now), es).sh;
      && AllMapped(sh)
      && forall t, u :: 0 <= t < u < |sh.wheel| && sh.wheel[t].status == Armed && sh.wheel[u].status == Armed ==>
           sh.wheel[t].name != sh.wheel[u].name
  {
    RunKeepsMapped(Init(c, disabled, now), es);
  }

  // When a timer whose callback is still to come had expired.

  /** Timers stay, for the same job and instant. */
  predicate SameTimersGrow(sh: Shared, sh': Shared) {
    && |sh.wheel| <= |sh'.wheel|
    && forall t :: 0 <= t < |sh.wheel| ==>
         sh'.wheel[t].name == sh.wheel[t].name && sh'.wheel[t].due == sh.wheel[t].due
  }

  predicate HasFired(sh: Shared, t: nat) {
    t < |sh.wheel| && sh.wheel[t].status == Fired
  }

  lemma ArmingFiresNothing(s: State, i: nat, f: Frame, ch: Choice)
    requires (f.TriggerCall? && f.triggerPc.TriggerLock?) || (f.ForceCall? && f.forcePc.ForceLock?)
    ensures var sh := StepFrame(s, i, f, ch).sh;
      SameTimersGrow(s.sh, sh) && forall t :: HasFired(sh, t) ==> HasFired(s.sh, t)
  {
  }

  lemma StepFiresOnlyExpired(s: State, a: Action, t: nat)
    requires Enabled(s, a)
    ensures SameTimersGrow(s.sh, Perform(s, a).sh)
    ensures HasFired(Perform(s, a).sh, t) && !HasFired(s.sh, t) ==>
      a == Expire(t) && t < |s.sh.wheel| && s.sh.wheel[t].status == Armed
  {
    match a
    case Go(i, ch) =>
      hide StepFrame;
      var f := s.frames[i];
      if (f.TriggerCall? && f.triggerPc.TriggerLock?) || (f.ForceCall? && f.forcePc.ForceLock?) {
        ArmingFiresNothing(s, i, f, ch);
      } else {
        OthersKeepTimers(s, i, f, ch);
      }
    case Fire(_) =>
    case Expire(_) =>
    case _ => CallKeepsTimers(s, a);
  }

  lemma {:induction false} RunGrowsTimers(s: State, es: seq<Event>)
    requires Legal(s, es)
    ensures SameTimersGrow(s.sh, Exec(s, es).sh)
    decreases |es|
  {
    if es != [] {
      StepFiresOnlyExpired(s.(now := es[0].at), es[0].action, 0);
      RunGrowsTimers(Apply(s, es[0]), es[1..]);
    }
  }

  /** Event k is the expiry of timer t, which was the job's own then. */
  ghost predicate ExpiresMapped(s: State, es: seq<Event>, k: nat, name: string, t: nat) {
    k < |es| && es[k].action == Expire(t) && Maps(Exec(s, es[..k]).sh, name, t)
  }

  lemma {:induction false} FiredWhileMapped(s: State, es: seq<Event>, t: nat)
    requires Booked(s.sh) && AllMapped(s.sh) && Legal(s, es) && NeverDropsArmed(s, es)
    requires HasFired(Exec(s, es).sh, t) && !HasFired(s.sh, t)
    ensures exists k: nat :: ExpiresMapped(s, es, k, Exec(s, es).sh.wheel[t].name, t)
    decreases |es|
  {
    var name := Exec(s, es).sh.wheel[t].name;
    var now, u := s.(now := es[0].at), Apply(s, es[0]);
    StepFiresOnlyExpired(now, es[0].action, t);
    if HasFired(u.sh, t) {
      RunGrowsTimers(s, es);
      assert es[..0] == [] && Maps(s.sh, name, t);
      assert ExpiresMapped(s, es, 0, name, t);
    } else {
      StepKeepsMappedIff(now, es[0].action);
      StepKeepsBooked(now, es[0].action);
      FiredWhileMapped(u, es[1..], t);
      var k: nat :| ExpiresMapped(u, es[1..], k, name, t);
      assert es[..k + 1][0] == es[0] && es[..k + 1][1..] == es[1..][..k];
      assert ExpiresMapped(s, es, k + 1, name, t);
    }
  }
}
