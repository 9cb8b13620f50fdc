/** Runs during which the configuration stays the same: every job met is the configuration's own. */
module FixedConfig {
  import opened Prelude
  import opened JobConfig
  import opened Protocol

  predicate Known(c: Config, job: Job) {
    Lookup(c, job.name) == Some(job)
  }

  /** Callers look the job up in the configuration, and nobody reloads it. */
  predicate Respects(c: Config, a: Action) {
    match a
    case Reload(_) => false
    case CallRun(job) => Known(c, job)
    case CallTrigger(job) => Known(c, job)
    case CallForce(job) => Known(c, job)
    case _ => true
  }

  ghost predicate RespectsRun(c: Config, es: seq<Event>) {
    forall k :: 0 <= k < |es| ==> Respects(c, es[k].action)
  }

  predicate KnownFrame(c: Config, f: Frame) {
    match f
    case RunCall(job, _, _, _, _, _, _) => Known(c, job)
    case ChainLoop(_, _, _, config, _, _) => config == c
    case TriggerCall(job, _) => Known(c, job)
    case ForceCall(job, _) => Known(c, job)
    case _ => true
  }

  ghost predicate Fixed(c: Config, s: State) {
    s.config == c && forall i :: 0 <= i < |s.frames| ==> KnownFrame(c, s.frames[i])
  }

  lemma EffectIsKnown(c: Config, s: State, i: nat, f: Frame, ch: Choice)
    requires s.config == c && KnownFrame(c, f)
    ensures KnownFrame(c, StepFrame(s, i, f, ch).own)
    ensures StepFrame(s, i, f, ch).spawned.Some? ==> KnownFrame(c, StepFrame(s, i, f, ch).spawned.value)
  {
  }

  lemma StepKeepsConfig(c: Config, s: State, a: Action)
    requires Respects(c, a)
    ensures Perform(s, a).config == s.config
  {
  }

  lemma StepKeepsFixed(c: Config, s: State, a: Action)
    requires Fixed(c, s) && Enabled(s, a) && Respects(c, a)
    ensures Fixed(c, Perform(s, a))
  {
    FramesAfter(s, a);
    StepKeepsConfig(c, s, a);
    if a.Go? {
      EffectIsKnown(c, s, a.frame, s.frames[a.frame], a.choice);
    }
  }
}
