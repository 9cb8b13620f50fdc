/** The diagram shows what the runner can do: its nodes are the jobs a chain from the focus can start. */
module DiagramAgreement {
  import opened JobConfig
  import opened Protocol
  import opened FixedConfig
  import opened Conservation
  import opened ChainTree
  import opened Schedules
  import opened ChainSchedules
  import opened Diagram

  // What the runner does is in the diagram.

  lemma TargetsAreLinks(c: Config, job: Job, outcome: Outcome, name: string)
    requires Known(c, job) && name in ChainTargets(job, outcome)
    ensures Linked(c, job.name, name)
  {
  }

  /** A call d links below the focus run is for a job d links from the focus. */
  lemma {:induction false} LevelsWalk(c: Config, s: State, r: nat, d: nat, i: nat)
    requires Fixed(c, s) && Grown(s) && r < |s.frames| && s.frames[r].RunCall? && i in Level(s, r, d)
    ensures i < |s.frames| && s.frames[i].RunCall? && Walk(c, s.frames[r].job.name, s.frames[i].job.name, d)
  {
    LevelIsDepth(s, r, d, i);
    if d > 0 {
      var o := Parent(s, i).value;
      LevelsWalk(c, s, r, d - 1, o);
      assert CallOk(s, i) && LoopOk(s, s.frames[i].origin.loop) && KnownFrame(c, s.frames[o]);
      TargetsAreLinks(c, s.frames[o].job, s.frames[o].outcome, s.frames[i].job.name);
    }
  }

  lemma {:induction false} RunKeepsShape(c: Config, s: State, es: seq<Event>)
    requires Fixed(c, s) && Grown(s) && Legal(s, es) && RespectsRun(c, es)
    ensures Fixed(c, Exec(s, es)) && Grown(Exec(s, es))
    decreases |es|
  {
    if es != [] {
      assert Respects(c, es[0].action);
      GrownIgnoresTheClock(s, es[0].at);
      StepKeepsFixed(c, s.(now := es[0].at), es[0].action);
      StepKeepsGrown(s.(now := es[0].at), es[0].action);
      RunKeepsShape(c, Apply(s, es[0]), es[1..]);
    }
  }

  // What is in the diagram the runner can do.

  /** Calls and loops keep their place in the tree, whatever happens. */
  ghost predicate SameFamily(s: State, t: State) {
    && |s.frames| <= |t.frames|
    && (forall k :: 0 <= k < |s.frames| && s.frames[k].RunCall? ==>
          t.frames[k].RunCall? && t.frames[k].origin == s.frames[k].origin)
    && (forall k :: 0 <= k < |s.frames| && s.frames[k].ChainLoop? ==>
          t.frames[k].ChainLoop? && t.frames[k].owner == s.frames[k].owner)
  }

  lemma LoopsKeepOwner(s: State, i: nat, f: Frame, ch: Choice)
    ensures f.ChainLoop? ==> StepFrame(s, i, f, ch).own.ChainLoop? && StepFrame(s, i, f, ch).own.owner == f.owner
  {
  }

  lemma StepKeepsFamily(s: State, a: Action)
    requires Enabled(s, a)
    ensures SameFamily(s, Perform(s, a))
  {
    FramesAfter(s, a);
    if a.Go? {
      CallsKeepIdentity(s, a.frame, s.frames[a.frame], a.choice);
      LoopsKeepOwner(s, a.frame, s.frames[a.frame], a.choice);
    }
  }

  lemma {:induction false} RunKeepsFamily(s: State, es: seq<Event>)
    requires Legal(s, es)
    ensures SameFamily(s, Exec(s, es))
    decreases |es|
  {
    if es != [] {
      StepKeepsFamily(s.(now := es[0].at), es[0].action);
      RunKeepsFamily(Apply(s, es[0]), es[1..]);
    }
  }

  lemma {:induction false} LevelStays(s: State, t: State, r: nat, d: nat, i: nat)
    requires SameFamily(s, t) && i in Level(s, r, d)
    ensures i in Level(t, r, d)
  {
    if d > 0 {
      LevelStays(s, t, r, d - 1, Parent(s, i).value);
    }
  }

  lemma LinkBelow(c: Config, s: State, k: nat, parent: Job, d: nat, name: string)
    returns (es: seq<Event>, t: State, i: nat, job: Job)
    requires Valid(c) && Known(c, parent) && Linked(c, parent.name, name) && d < MAX_CHAIN_DEPTH
    requires AtEase(c, s) && k < |s.frames| && About(s.frames[k], parent, d) && k in Level(s, 0, d)
    ensures Leads(s, es, t) && AtEase(c, t) && i < |t.frames|
    ensures job.name == name && Known(c, job) && About(t.frames[i], job, d + 1) && i in Level(t, 0, d + 1)
  {
    es, t, job := OneLink(c, s, k, parent, d, name);
    RunKeepsFamily(s, es);
    LevelStays(s, t, 0, d, k);
    i := |t.frames| - 1;
  }

  lemma LastLink(c: Config, focus: string, name: string, d: nat) returns (p: string)
    requires d > 0 && Walk(c, focus, name, d)
    ensures Walk(c, focus, p, d - 1) && Linked(c, p, name)
  {
    p :| Walk(c, focus, p, d - 1) && Linked(c, p, name);
  }

  lemma {:induction false} NoWalk(c: Config, s: State, focus: string, name: string)
    requires Walk(c, focus, name, 0)
    ensures name == focus && 0 in Level(s, 0, 0)
  {
  }

  /** Along every walk of at most 16 links there is a run of the runner. */
  lemma {:induction false} FollowWalk(c: Config, s: State, focus: Job, name: string, d: nat)
    returns (es: seq<Event>, t: State, i: nat, job: Job)
    requires Valid(c) && Known(c, focus) && AtEase(c, s) && |s.frames| == 1 && About(s.frames[0], focus, 0)
    requires Walk(c, focus.name, name, d) && d <= MAX_CHAIN_DEPTH
    ensures Leads(s, es, t) && AtEase(c, t) && i < |t.frames|
    ensures job.name == name && Known(c, job) && About(t.frames[i], job, d) && i in Level(t, 0, d)
    decreases d
  {
    hide Leads, AtEase, Linked, Level, About, Known, Walk;
    if d == 0 {
      Nowhere(s);
      NoWalk(c, s, focus.name, name);
      es, t, i, job := [], s, 0, focus;
    } else {
      var p := LastLink(c, focus.name, name, d);
      var t1, k, parent, fs;
      es, t1, k, parent := FollowWalk(c, s, focus, p, d - 1);
      fs, t, i, job := LinkBelow(c, t1, k, parent, d - 1, name);
      Then(s, es, t1, fs, t);
      es := es + fs;
    }
  }

  /** The outside calls the focus job once; everything after is the runner's own doing. */
  function AfterCall(c: Config, focus: Job, now: int): State {
    Apply(Init(c, {}, now), Event(CallRun(focus), now))
  }

  ghost predicate StartsAt(s: State, i: nat, name: string, d: nat) {
    && i < |s.frames| && i in Level(s, 0, d)
    && s.frames[i].RunCall? && s.frames[i].job.name == name && s.frames[i].pc.Command?
  }

  /** Some outcomes and some schedule make a chain of d links from the focus run start a run of the job. */
  ghost predicate ChainStarts(c: Config, focus: Job, now: int, name: string, d: nat) {
    exists es, i :: Legal(AfterCall(c, focus, now), es) && AllInternal(es) && StartsAt(Exec(AfterCall(c, focus, now), es), i, name, d)
  }

  lemma {:induction false} WalksStart(c: Config, focus: Job, now: int, name: string, d: nat)
    requires Valid(c) && Known(c, focus) && Walk(c, focus.name, name, d) && d <= MAX_CHAIN_DEPTH
    ensures ChainStarts(c, focus, now, name, d)
  {
    var s := AfterCall(c, focus, now);
    var es, t, i, job := FollowWalk(c, s, focus, name, d);
    var fs, u := ToCommand(t, i);
    Then(s, es, t, fs, u);
    RunKeepsFamily(t, fs);
    LevelStays(t, u, 0, d, i);
    assert StartsAt(u, i, name, d);
    assert Exec(s, es + fs) == u;
  }

  lemma {:induction false} RunKeepsFirstCall(s: State, es: seq<Event>)
    requires |s.frames| > 0 && s.frames[0].RunCall? && Legal(s, es)
    ensures var t := Exec(s, es);
      |t.frames| > 0 && t.frames[0].RunCall? && t.frames[0].job == s.frames[0].job && t.frames[0].depth == s.frames[0].depth
    decreases |es|
  {
    if es != [] {
      var now := s.(now := es[0].at);
      FramesAfter(now, es[0].action);
      if es[0].action.Go? && es[0].action.frame == 0 {
        RunIsRunLike(now, 0, s.frames[0], es[0].action.choice);
      }
      RunKeepsFirstCall(Apply(s, es[0]), es[1..]);
    }
  }

  lemma {:induction false} StartsAreWalks(c: Config, focus: Job, now: int, name: string, d: nat)
    requires Known(c, focus) && ChainStarts(c, focus, now, name, d)
    ensures Walk(c, focus.name, name, d) && d <= MAX_CHAIN_DEPTH
  {
    var s := AfterCall(c, focus, now);
    var es: seq<Event>, i: nat :| Legal(s, es) && AllInternal(es) && StartsAt(Exec(s, es), i, name, d);
    var t := Exec(s, es);
    assert forall k :: 0 <= k < |es| ==> Internal(es[k].action) ==> Respects(c, es[k].action);
    RunKeepsShape(c, s, es);
    RunKeepsFirstCall(s, es);
    LevelsWalk(c, t, 0, d, i);
    LevelIsDepth(t, 0, d, i);
    assert CallOk(t, i);
  }

  /**
   For every valid configuration, drain mode off and nothing disabled: the nodes drawn from level
   0 on are exactly the jobs that chain() can start from one run of the focus, cycles included; and
   a node's level is the least number of links that does it.
   */
  lemma DiagramAgreesWithRunner(c: Config, focus: Job, nodes: map<string, Node>, now: int, name: string)
    requires Valid(c) && Known(c, focus) && LevelsExact(c, focus.name, nodes)
    ensures (name in nodes && nodes[name].level >= 0) <==> exists d: nat :: ChainStarts(c, focus, now, name, d)
    ensures name in nodes && nodes[name].level >= 0 ==>
      ChainStarts(c, focus, now, name, nodes[name].level)
      && forall d: nat :: ChainStarts(c, focus, now, name, d) ==> nodes[name].level <= d
  {
    forall d: nat | ChainStarts(c, focus, now, name, d)
      ensures Walk(c, focus.name, name, d) && d <= MAX_CHAIN_DEPTH
    {
      StartsAreWalks(c, focus, now, name, d);
    }
    forall d: nat | Walk(c, focus.name, name, d) && d <= MAX_CHAIN_DEPTH
      ensures ChainStarts(c, focus, now, name, d)
    {
      WalksStart(c, focus, now, name, d);
    }
  }
}
