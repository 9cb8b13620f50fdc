/** chain(): which list a finished run fires, whom its loop calls, and when there is no loop. */
module ChainLists {
  import opened Prelude
  import opened JobConfig
  import opened Protocol
  import opened ChainTree
  import opened Outcomes

  /** The list the source names for the outcome. */
  predicate IsListOf(f: Frame, names: seq<string>)
    requires f.RunCall?
  {
    match f.outcome
    case Finished(Success) => names == f.job.onSuccess
    case Finished(Failed) => names == f.job.onFailure
    case Finished(Timeout) => names == f.job.onFailure
    case _ => names == []
  }

  predicate HasList(f: Frame)
    requires f.RunCall?
  {
    match f.outcome
    case Finished(Success) => f.job.onSuccess != []
    case Finished(Failed) => f.job.onFailure != []
    case Finished(Timeout) => f.job.onFailure != []
    case _ => false
  }

  ghost predicate OwnsLoop(s: State, i: nat) {
    exists l :: 0 <= l < |s.frames| && s.frames[l].ChainLoop? && s.frames[l].owner == i
  }

  /** A loop has its owner's list; a returned call owns one exactly when there is something to fire and room to. */
  ghost predicate OwnsRightly(s: State, i: nat)
    requires i < |s.frames|
  {
    var f := s.frames[i];
    && (f.RunCall? && f.pc.Returned? ==> (OwnsLoop(s, i) <==> HasList(f) && f.depth < 16))
    && (f.ChainLoop? ==> f.owner < |s.frames| && s.frames[f.owner].RunCall? && IsListOf(s.frames[f.owner], f.names))
  }

  ghost predicate AllOwnRightly(s: State) {
    forall i :: 0 <= i < |s.frames| ==> OwnsRightly(s, i)
  }

  lemma RunOwns(s: State, i: nat, f: Frame, ch: Choice)
    requires f.RunCall? && Fits(f) && !f.pc.Returned?
    ensures var e := StepRun(s, i, f, ch);
      && (e.own.pc.Returned? && HasList(e.own) && f.depth < 16 ==>
            e.spawned.Some? && e.spawned.value.ChainLoop? && e.spawned.value.owner == i)
      && (e.spawned.Some? && e.spawned.value.ChainLoop? ==>
            e.own.pc.Returned? && e.spawned.value.owner == i && HasList(e.own) && f.depth < 16
            && IsListOf(e.own, e.spawned.value.names))
  {
  }

  /** A loop never changes what it works through. */
  predicate SameLoop(f: Frame, g: Frame) {
    f.ChainLoop? && g.ChainLoop? && g.owner == f.owner && g.names == f.names && g.config == f.config
  }

  lemma OthersOwnNothing(s: State, i: nat, f: Frame, ch: Choice)
    requires !f.RunCall?
    ensures var e := StepFrame(s, i, f, ch);
      && !e.own.RunCall? && (f.ChainLoop? ==> SameLoop(f, e.own)) && (!f.ChainLoop? ==> !e.own.ChainLoop?)
      && (e.spawned.Some? ==> !e.spawned.value.ChainLoop?)
  {
  }

  lemma AddedCallsAreNew(s: State, a: Action)
    ensures var f := Added(s, a);
      && (f.Some? && f.value.RunCall? ==> f.value.pc.CheckDisabled?)
      && (f.Some? && f.value.ChainLoop? ==> a.Go? && a.frame < |s.frames| && s.frames[a.frame].RunCall?)
  {
  }

  /** Nobody gains or loses a loop, and loops stay the same. */
  ghost predicate SameLoops(s: State, s': State) {
    && |s.frames| <= |s'.frames|
    && (forall l :: 0 <= l < |s.frames| ==>
          (s.frames[l].ChainLoop? <==> s'.frames[l].ChainLoop?)
          && (s.frames[l].ChainLoop? ==> SameLoop(s.frames[l], s'.frames[l])))
    && (forall l :: |s.frames| <= l < |s'.frames| ==> !s'.frames[l].ChainLoop?)
  }

  lemma SameLoopsSameOwners(s: State, s': State, i: nat)
    requires SameLoops(s, s')
    ensures OwnsLoop(s', i) <==> OwnsLoop(s, i)
  {
    if OwnsLoop(s, i) {
      var l :| 0 <= l < |s.frames| && s.frames[l].ChainLoop? && s.frames[l].owner == i;
      assert s'.frames[l].owner == i;
    }
    if OwnsLoop(s', i) {
      var l :| 0 <= l < |s'.frames| && s'.frames[l].ChainLoop? && s'.frames[l].owner == i;
      assert s.frames[l].owner == i;
    }
  }

  /** A call that has not returned owns no loop. */
  lemma NoLoopYet(s: State, i: nat)
    requires Grown(s)
    ensures i < |s.frames| && s.frames[i].RunCall? && !s.frames[i].pc.Returned? ==> !OwnsLoop(s, i)
    ensures i >= |s.frames| ==> !OwnsLoop(s, i)
  {
    if OwnsLoop(s, i) {
      var l :| 0 <= l < |s.frames| && s.frames[l].ChainLoop? && s.frames[l].owner == i;
      assert LoopOk(s, l);
    }
  }

  lemma QuietStepSameLoops(s: State, a: Action)
    requires AllFit(s) && Enabled(s, a)
    requires Added(s, a).Some? ==> !Added(s, a).value.ChainLoop?
    ensures SameLoops(s, Perform(s, a))
  {
    hide Fits;
    FramesAfter(s, a);
    if a.Go? && !s.frames[a.frame].RunCall? {
      OthersOwnNothing(s, a.frame, s.frames[a.frame], a.choice);
    }
    if a.Go? && s.frames[a.frame].RunCall? {
      RunIsRunLike(s, a.frame, s.frames[a.frame], a.choice);
    }
  }

  /** A step that starts no loop. */
  lemma QuietStepOwns(s: State, a: Action)
    requires Grown(s) && AllFit(s) && AllOwnRightly(s) && Enabled(s, a)
    requires Added(s, a).Some? ==> !Added(s, a).value.ChainLoop?
    ensures AllOwnRightly(Perform(s, a))
  {
    var s' := Perform(s, a);
    FramesAfter(s, a);
    AddedCallsAreNew(s, a);
    if a.Go? && !s.frames[a.frame].RunCall? {
      OthersOwnNothing(s, a.frame, s.frames[a.frame], a.choice);
    }
    if a.Go? && s.frames[a.frame].RunCall? {
      RunIsRunLike(s, a.frame, s.frames[a.frame], a.choice);
      RunOwns(s, a.frame, s.frames[a.frame], a.choice);
    }
    QuietStepSameLoops(s, a);
    hide StepFrame, StepRun, SameLoops;
    forall i | 0 <= i < |s'.frames|
      ensures OwnsRightly(s', i)
    {
      SameLoopsSameOwners(s, s', i);
      if i < |s.frames| {
        assert OwnsRightly(s, i) && LoopOk(s, i);
      }
      NoLoopYet(s, i);
    }
  }

  /** The step in which a call starts its loop. */
  lemma ChainStepOwns(s: State, a: Action)
    requires Grown(s) && AllFit(s) && AllOwnRightly(s) && Enabled(s, a)
    requires Added(s, a).Some? && Added(s, a).value.ChainLoop?
    ensures AllOwnRightly(Perform(s, a))
  {
    var s' := Perform(s, a);
    FramesAfter(s, a);
    AddedCallsAreNew(s, a);
    RunIsRunLike(s, a.frame, s.frames[a.frame], a.choice);
    RunOwns(s, a.frame, s.frames[a.frame], a.choice);
    hide StepFrame, StepRun;
    assert s'.frames[|s.frames|].ChainLoop? && s'.frames[|s.frames|].owner == a.frame;
    forall i | 0 <= i < |s'.frames|
      ensures OwnsRightly(s', i)
    {
      if i < |s.frames| {
        assert OwnsRightly(s, i) && LoopOk(s, i);
        if i != a.frame && OwnsLoop(s, i) {
          var l :| 0 <= l < |s.frames| && s.frames[l].ChainLoop? && s.frames[l].owner == i;
          assert s'.frames[l] == s.frames[l];
        }
        if i != a.frame && OwnsLoop(s', i) {
          var l :| 0 <= l < |s'.frames| && s'.frames[l].ChainLoop? && s'.frames[l].owner == i;
          assert s'.frames[l] == s.frames[l];
        }
      }
    }
  }

  lemma StepOwnsRightly(s: State, a: Action)
    requires Grown(s) && AllFit(s) && AllOwnRightly(s) && Enabled(s, a)
    ensures AllOwnRightly(Perform(s, a))
  {
    if Added(s, a).Some? && Added(s, a).value.ChainLoop? {
      ChainStepOwns(s, a);
    } else {
      QuietStepOwns(s, a);
    }
  }

  lemma OwningIgnoresTheClock(s: State, at: int)
    requires AllOwnRightly(s)
    ensures AllOwnRightly(s.(now := at))
  {
    var t := s.(now := at);
    forall i | 0 <= i < |t.frames|
      ensures OwnsRightly(t, i)
    {
      assert OwnsRightly(s, i) && (OwnsLoop(t, i) <==> OwnsLoop(s, i));
    }
  }

  lemma {:induction false} RunOwnsRightly(s: State, es: seq<Event>)
    requires Grown(s) && AllFit(s) && AllOwnRightly(s) && Legal(s, es)
    ensures AllOwnRightly(Exec(s, es))
    decreases |es|
  {
    if es != [] {
      var t := s.(now := es[0].at);
      GrownIgnoresTheClock(s, es[0].at);
      LaterFits(s, es[0].at);
      OwningIgnoresTheClock(s, es[0].at);
      hide Grown, AllFit, AllOwnRightly;
      StepOwnsRightly(t, es[0].action);
      StepKeepsGrown(t, es[0].action);
      StepFits(t, es[0].action);
      RunOwnsRightly(Apply(s, es[0]), es[1..]);
    }
  }

  /**
   In every reachable state: a chain loop works through its owner's on_success list if that run
   succeeded and its on_failure list if it failed or timed out. A call that has returned owns a
   loop exactly when that list is not empty and the call is less than 16 deep; one that was
   canceled, came back with an error or was turned away owns none.
   */
  lemma {:induction false} FiresItsList(c: Config, disabled: set<string>, now: int, es: seq<Event>, i: nat)
    requires Legal(Init(c, disabled, now), es)
    requires i < |Exec(Init(c, disabled, now), es).frames|
    ensures OwnsRightly(Exec(Init(c, disabled, now), es), i)
  {
    RunOwnsRightly(Init(c, disabled, now), es);
  }

  // Whom a loop calls.

  ghost predicate IsCalled(s: State, l: nat, k: nat) {
    exists i :: 0 <= i < |s.frames| && s.frames[i].RunCall? && s.frames[i].origin == Chained(l, k)
  }

  /** The calls of a loop are for the jobs of its own configuration, and of the names it is done with it left out the unknown ones. */
  ghost predicate CallsRightly(s: State, l: nat)
    requires l < |s.frames|
  {
    var g := s.frames[l];
    g.ChainLoop? ==>
      && (forall i :: 0 <= i < |s.frames| && s.frames[i].RunCall? && s.frames[i].origin.Chained? && s.frames[i].origin.loop == l ==>
            s.frames[i].origin.index < |g.names|
            && Lookup(g.config, g.names[s.frames[i].origin.index]) == Some(s.frames[i].job))
      && (forall k :: 0 <= k < g.next && k < |g.names| ==> (Lookup(g.config, g.names[k]).Some? <==> IsCalled(s, l, k)))
  }

  ghost predicate AllCallRightly(s: State) {
    forall l :: 0 <= l < |s.frames| ==> CallsRightly(s, l)
  }

  predicate SamePlace(f: Frame, g: Frame) {
    f.RunCall? && g.RunCall? && g.job == f.job && g.origin == f.origin
  }

  /** Calls and loops as before, and whatever is new is called by no loop and is no loop that has begun. */
  ghost predicate SameCalls(s: State, s': State) {
    && |s.frames| <= |s'.frames|
    && (forall k :: 0 <= k < |s.frames| ==>
          SamePlace(s.frames[k], s'.frames[k]) || s.frames[k] == s'.frames[k]
          || (NoTreePart(s.frames[k]) && NoTreePart(s'.frames[k])))
    && (forall k :: |s.frames| <= k < |s'.frames| ==>
          (s'.frames[k].RunCall? ==> !s'.frames[k].origin.Chained?) && (s'.frames[k].ChainLoop? ==> s'.frames[k].next == 0))
  }

  lemma SameCallsKeepCalled(s: State, s': State, l: nat, k: nat)
    requires SameCalls(s, s')
    ensures IsCalled(s', l, k) <==> IsCalled(s, l, k)
  {
    if IsCalled(s, l, k) {
      var i :| 0 <= i < |s.frames| && s.frames[i].RunCall? && s.frames[i].origin == Chained(l, k);
      assert s'.frames[i].origin == Chained(l, k);
    }
    if IsCalled(s', l, k) {
      var i :| 0 <= i < |s'.frames| && s'.frames[i].RunCall? && s'.frames[i].origin == Chained(l, k);
      assert s.frames[i].origin == Chained(l, k);
    }
  }

  lemma SameCallsKeepRight(s: State, s': State)
    requires Grown(s) && AllCallRightly(s) && SameCalls(s, s')
    ensures AllCallRightly(s')
  {
    forall l | 0 <= l < |s'.frames|
      ensures CallsRightly(s', l)
    {
      forall k: nat
        ensures IsCalled(s', l, k) <==> IsCalled(s, l, k)
      {
        SameCallsKeepCalled(s, s', l, k);
      }
      forall i | 0 <= i < |s.frames| && s.frames[i].RunCall? && s.frames[i].origin.Chained?
        ensures s.frames[i].origin.loop < |s.frames|
      {
        assert CallOk(s, i);
      }
      if l < |s.frames| {
        assert CallsRightly(s, l);
      }
    }
  }

  lemma NonLoopSteps(s: State, a: Action)
    requires Enabled(s, a) && (a.Go? ==> !s.frames[a.frame].ChainLoop?)
    ensures SameCalls(s, Perform(s, a))
  {
    FramesAfter(s, a);
    if a.Go? {
      if s.frames[a.frame].RunCall? {
        RunIsRunLike(s, a.frame, s.frames[a.frame], a.choice);
      } else {
        OthersAreQuiet(s, a.frame, s.frames[a.frame], a.choice);
      }
    }
  }

  /** What one step of a loop does: on to the next name, or a call for this one. */
  lemma LoopStep(s: State, l: nat, ch: Choice)
    requires l < |s.frames| && s.frames[l].ChainLoop? && Runnable(s, l, ch) && s.frames[l].next < |s.frames[l].names|
    ensures var g, e := s.frames[l], StepLoop(s, l, s.frames[l]);
      var found := Lookup(g.config, g.names[g.next]);
      && SameLoop(g, e.own)
      && (g.child.None? && found.Some? ==>
            e.own.next == g.next && e.spawned.Some? && e.spawned.value.RunCall?
            && e.spawned.value.origin == Chained(l, g.next) && e.spawned.value.job == found.value)
      && (!(g.child.None? && found.Some?) ==> e.own.next == g.next + 1 && e.spawned.None?)
  {
  }

  lemma LoopStepCalls(s: State, l: nat, e: Effect)
    requires l < |s.frames| && s.frames[l].ChainLoop? && e.own.ChainLoop?
    requires e.spawned.Some? ==> e.spawned.value.RunCall? && e.spawned.value.origin == Chained(l, s.frames[l].next)
    ensures forall m: nat, k: nat ::
      IsCalled(Commit(s, l, e), m, k) <==> IsCalled(s, m, k) || (e.spawned.Some? && m == l && k == s.frames[l].next)
  {
    var s' := Commit(s, l, e);
    forall m: nat, k: nat
      ensures IsCalled(s', m, k) <==> IsCalled(s, m, k) || (e.spawned.Some? && m == l && k == s.frames[l].next)
    {
      if IsCalled(s, m, k) {
        var i :| 0 <= i < |s.frames| && s.frames[i].RunCall? && s.frames[i].origin == Chained(m, k);
        assert s'.frames[i] == s.frames[i];
      }
      if e.spawned.Some? {
        assert s'.frames[|s.frames|] == e.spawned.value;
      }
    }
  }

  /** The name the loop is at has been called exactly when its call is there. */
  lemma CalledWhileWaiting(s: State, l: nat, ch: Choice)
    requires Grown(s) && AllCallRightly(s) && l < |s.frames| && s.frames[l].ChainLoop? && Runnable(s, l, ch)
    ensures s.frames[l].next < |s.frames[l].names|
    ensures IsCalled(s, l, s.frames[l].next) <==> s.frames[l].child.Some?
    ensures s.frames[l].child.Some? ==> Lookup(s.frames[l].config, s.frames[l].names[s.frames[l].next]).Some?
  {
    assert LoopOk(s, l) && CallsRightly(s, l);
    if s.frames[l].child.None? {
      NotCalledYet(s, l);
    } else {
      assert s.frames[s.frames[l].child.value].origin == Chained(l, s.frames[l].next);
    }
  }

  lemma LoopStepKeepsRight(s: State, l: nat, ch: Choice)
    requires Grown(s) && AllCallRightly(s) && l < |s.frames| && s.frames[l].ChainLoop? && Runnable(s, l, ch)
    ensures AllCallRightly(Commit(s, l, StepLoop(s, l, s.frames[l])))
  {
    CalledWhileWaiting(s, l, ch);
    LoopStep(s, l, ch);
    var e := StepLoop(s, l, s.frames[l]);
    var s' := Commit(s, l, e);
    hide StepLoop, Grown;
    LoopStepCalls(s, l, e);
    hide IsCalled;
    forall m | 0 <= m < |s'.frames|
      ensures CallsRightly(s', m)
    {
      if m < |s.frames| {
        assert CallsRightly(s, m);
      }
    }
  }

  lemma StepCallsRightly(s: State, a: Action)
    requires Grown(s) && AllCallRightly(s) && Enabled(s, a)
    ensures AllCallRightly(Perform(s, a))
  {
    if a.Go? && s.frames[a.frame].ChainLoop? {
      LoopStepKeepsRight(s, a.frame, a.choice);
    } else {
      NonLoopSteps(s, a);
      SameCallsKeepRight(s, Perform(s, a));
    }
  }

  lemma CallingIgnoresTheClock(s: State, at: int)
    requires AllCallRightly(s)
    ensures AllCallRightly(s.(now := at))
  {
    var t := s.(now := at);
    forall l | 0 <= l < |t.frames|
      ensures CallsRightly(t, l)
    {
      assert CallsRightly(s, l) && forall k: nat :: IsCalled(t, l, k) <==> IsCalled(s, l, k);
    }
  }

  lemma {:induction false} RunCallsRightly(s: State, es: seq<Event>)
    requires Grown(s) && AllCallRightly(s) && Legal(s, es)
    ensures AllCallRightly(Exec(s, es))
    decreases |es|
  {
    if es != [] {
      var t := s.(now := es[0].at);
      GrownIgnoresTheClock(s, es[0].at);
      CallingIgnoresTheClock(s, es[0].at);
      hide Grown, AllCallRightly;
      StepCallsRightly(t, es[0].action);
      StepKeepsGrown(t, es[0].action);
      RunCallsRightly(Apply(s, es[0]), es[1..]);
    }
  }

  /** In every reachable state, whatever was reloaded meanwhile. */
  lemma {:induction false} CallsItsOwn(c: Config, disabled: set<string>, now: int, es: seq<Event>, l: nat)
    requires Legal(Init(c, disabled, now), es) && l < |Exec(Init(c, disabled, now), es).frames|
    ensures CallsRightly(Exec(Init(c, disabled, now), es), l)
  {
    RunCallsRightly(Init(c, disabled, now), es);
  }

  // Which configuration that is.

  predicate ChainsNow(s: State, a: Action, i: nat, config: Config) {
    && a.Go? && a.frame == i && i < |s.frames| && s.frames[i].RunCall? && s.frames[i].pc.Chain? && s.config == config
  }

  /** Call i chained at a time when this configuration was in force. */
  ghost predicate ChainedUnder(s: State, es: seq<Event>, i: nat, config: Config)
    decreases |es|
  {
    && es != []
    && (ChainsNow(s.(now := es[0].at), es[0].action, i, config) || ChainedUnder(Apply(s, es[0]), es[1..], i, config))
  }

  lemma NewLoopsConfig(s: State, a: Action)
    requires Enabled(s, a) && Added(s, a).Some? && Added(s, a).value.ChainLoop?
    ensures ChainsNow(s, a, Added(s, a).value.owner, Added(s, a).value.config)
  {
  }

  lemma LoopsStay(s: State, a: Action, l: nat)
    requires Enabled(s, a) && l < |Perform(s, a).frames| && Perform(s, a).frames[l].ChainLoop?
    ensures if l < |s.frames| then SameLoop(s.frames[l], Perform(s, a).frames[l])
      else Added(s, a) == Some(Perform(s, a).frames[l])
  {
    FramesAfter(s, a);
    if a.Go? && a.frame == l {
      if s.frames[l].RunCall? {
        RunIsRunLike(s, l, s.frames[l], a.choice);
      } else {
        OthersOwnNothing(s, l, s.frames[l], a.choice);
      }
    }
  }

  lemma {:induction false} LoopBegan(s: State, es: seq<Event>, l: nat)
    requires Legal(s, es) && l < |Exec(s, es).frames| && Exec(s, es).frames[l].ChainLoop?
    ensures var g := Exec(s, es).frames[l];
      if l < |s.frames| then SameLoop(s.frames[l], g) else ChainedUnder(s, es, g.owner, g.config)
    decreases |es|
  {
    if es != [] {
      var t, u := s.(now := es[0].at), Apply(s, es[0]);
      LoopBegan(u, es[1..], l);
      if l < |u.frames| {
        LoopsStay(t, es[0].action, l);
        if l >= |s.frames| {
          NewLoopsConfig(t, es[0].action);
        }
      } else {
        FramesAfter(t, es[0].action);
      }
    }
  }

  /** A loop's configuration is the one that was in force when its owner chained. */
  lemma {:induction false} LoopsKeepTheirConfig(c: Config, disabled: set<string>, now: int, es: seq<Event>, l: nat)
    requires Legal(Init(c, disabled, now), es) && l < |Exec(Init(c, disabled, now), es).frames|
    requires Exec(Init(c, disabled, now), es).frames[l].ChainLoop?
    ensures var g := Exec(Init(c, disabled, now), es).frames[l]; ChainedUnder(Init(c, disabled, now), es, g.owner, g.config)
  {
    LoopBegan(Init(c, disabled, now), es, l);
  }
}
