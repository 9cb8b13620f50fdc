/** chain(): who called whom, how deep, in what order, and how many runs one run can cause. */
module ChainTree {
  import opened Prelude
  import opened JobConfig
  import opened Protocol

  ghost predicate ChildOk(s: State, i: nat)
    requires i < |s.frames| && s.frames[i].RunCall? && s.frames[i].origin.Chained?
  {
    var f := s.frames[i];
    var l, k := f.origin.loop, f.origin.index;
    && l < |s.frames| && s.frames[l].ChainLoop?
    && k < |s.frames[l].names| && f.job.name == s.frames[l].names[k]
    && f.depth == s.frames[l].ownerDepth + 1
    && (if k < s.frames[l].next then f.pc.Returned?
        else k == s.frames[l].next && s.frames[l].child == Some(i))
  }

  /** A call made by a chain loop is the call for one of its names, one level below the loop's owner, and carries no count. */
  ghost predicate CallOk(s: State, i: nat)
    requires i < |s.frames|
  {
    var f := s.frames[i];
    f.RunCall? ==>
      && f.depth <= MAX_CHAIN_DEPTH
      && (!f.origin.Chained? ==> f.depth == 0)
      && (!f.origin.Batch? ==> f.coalesced == 0)
      && (f.origin.Chained? ==> ChildOk(s, i))
  }

  /** A loop works through the targets of a call that has returned. */
  ghost predicate LoopOk(s: State, l: nat)
    requires l < |s.frames|
  {
    var g := s.frames[l];
    g.ChainLoop? ==>
      && g.owner < |s.frames| && s.frames[g.owner].RunCall? && s.frames[g.owner].pc.Returned?
      && g.ownerDepth == s.frames[g.owner].depth && g.ownerDepth + 1 <= MAX_CHAIN_DEPTH
      && g.names == ChainTargets(s.frames[g.owner].job, s.frames[g.owner].outcome)
      && g.next <= |g.names|
      && (g.child.Some? ==>
            && g.next < |g.names| && g.child.value < |s.frames| && s.frames[g.child.value].RunCall?
            && s.frames[g.child.value].origin == Chained(l, g.next))
  }

  predicate SameSlot(f: Frame, g: Frame) {
    f.RunCall? && g.RunCall? && f.origin.Chained? && f.origin == g.origin
  }

  predicate SameOwner(f: Frame, g: Frame) {
    f.ChainLoop? && g.ChainLoop? && f.owner == g.owner
  }

  /** No index of a loop is called twice, and no call starts two loops. */
  ghost predicate Distinct(s: State) {
    && (forall i, k :: 0 <= i < k < |s.frames| ==> !SameSlot(s.frames[i], s.frames[k]))
    && (forall l, m :: 0 <= l < m < |s.frames| ==> !SameOwner(s.frames[l], s.frames[m]))
  }

  ghost predicate Grown(s: State) {
    && (forall i :: 0 <= i < |s.frames| ==> CallOk(s, i))
    && (forall l :: 0 <= l < |s.frames| ==> LoopOk(s, l))
    && Distinct(s)
  }

  predicate IsRoot(g: Frame) {
    g.RunCall? && !g.origin.Chained? && g.depth == 0 && (!g.origin.Batch? ==> g.coalesced == 0)
  }

  predicate IsLoopOf(s: State, i: nat, f: Frame, g: Frame)
    requires f.RunCall?
  {
    && g.ChainLoop? && g.owner == i && g.ownerDepth == f.depth && g.ownerDepth + 1 <= MAX_CHAIN_DEPTH
    && g.names == ChainTargets(f.job, f.outcome) && g.next == 0 && g.child.None?
  }

  /** A step inside run: same call, and at most a batch's run or this call's chain loop is added. */
  ghost predicate RunLike(s: State, i: nat, f: Frame, e: Effect) {
    && f.RunCall? && e.own.RunCall?
    && e.own.job == f.job && e.own.depth == f.depth && e.own.origin == f.origin && e.own.coalesced == f.coalesced
    && (e.spawned.Some? ==> IsRoot(e.spawned.value) || (e.own.pc.Returned? && IsLoopOf(s, i, e.own, e.spawned.value)))
  }

  lemma RunIsRunLike(s: State, i: nat, f: Frame, c: Choice)
    requires f.RunCall? && f.pc != Returned
    ensures RunLike(s, i, f, StepRun(s, i, f, c))
  {
  }

  lemma RunLikeKeepsGrown(s: State, i: nat, e: Effect)
    requires Grown(s) && i < |s.frames| && RunLike(s, i, s.frames[i], e)
    requires !s.frames[i].pc.Returned?
    ensures Grown(Commit(s, i, e))
  {
    var s' := Commit(s, i, e);
    forall m | 0 <= m < |s.frames| && s.frames[m].ChainLoop?
      ensures s.frames[m].owner != i
    {
      assert LoopOk(s, m);
    }
    forall k | 0 <= k < |s'.frames|
      ensures CallOk(s', k) && LoopOk(s', k)
    {
      if k < |s.frames| {
        assert CallOk(s, k) && LoopOk(s, k);
      }
    }
  }

  /** The loop moves to its next name: its call has returned, or the name is gone. */
  lemma AdvanceKeepsGrown(s: State, i: nat, c: Choice, g: Frame)
    requires Grown(s) && i < |s.frames| && s.frames[i].ChainLoop? && s.frames[i].next < |s.frames[i].names|
    requires Runnable(s, i, c)
    requires g == s.frames[i].(child := None, next := s.frames[i].next + 1)
    ensures Grown(Commit(s, i, Local(s, g)))
  {
    var s' := Commit(s, i, Local(s, g));
    forall k | 0 <= k < |s'.frames|
      ensures CallOk(s', k) && LoopOk(s', k)
    {
      assert CallOk(s, k) && LoopOk(s, k);
    }
  }

  lemma NotCalledYet(s: State, i: nat)
    requires Grown(s) && i < |s.frames| && s.frames[i].ChainLoop? && s.frames[i].child.None?
    ensures forall m :: 0 <= m < |s.frames| && s.frames[m].RunCall? ==> s.frames[m].origin != Chained(i, s.frames[i].next)
  {
    forall m | 0 <= m < |s.frames| && s.frames[m].RunCall?
      ensures s.frames[m].origin != Chained(i, s.frames[i].next)
    {
      assert CallOk(s, m);
    }
  }

  lemma CallingKeepsGrown(s: State, i: nat, e: Effect, job: Job)
    requires Grown(s) && i < |s.frames| && s.frames[i].ChainLoop? && s.frames[i].child.None?
    requires var f := s.frames[i];
      && f.next < |f.names| && job.name == f.names[f.next]
      && e.own == f.(child := Some(|s.frames|))
      && e.spawned == Some(NewCall(job, f.ownerDepth + 1, 0, Chained(i, f.next)))
    ensures Grown(Commit(s, i, e))
  {
    var s' := Commit(s, i, e);
    NotCalledYet(s, i);
    assert LoopOk(s, i);
    forall k | 0 <= k < |s'.frames|
      ensures CallOk(s', k) && LoopOk(s', k)
    {
      if k < |s.frames| {
        assert CallOk(s, k) && LoopOk(s, k);
      }
    }
  }

  lemma LoopKeepsGrown(s: State, i: nat, c: Choice)
    requires Grown(s) && i < |s.frames| && s.frames[i].ChainLoop? && Runnable(s, i, c)
    ensures Grown(Commit(s, i, StepLoop(s, i, s.frames[i])))
  {
    var f := s.frames[i];
    assert LoopOk(s, i);
    if f.child.None? && Lookup(f.config, f.names[f.next]).Some? {
      CallingKeepsGrown(s, i, StepLoop(s, i, f), Lookup(f.config, f.names[f.next]).value);
    } else {
      AdvanceKeepsGrown(s, i, c, StepLoop(s, i, f).own);
    }
  }

  lemma OthersAreQuiet(s: State, i: nat, f: Frame, c: Choice)
    requires !f.RunCall? && !f.ChainLoop?
    ensures var e := StepFrame(s, i, f, c);
      && !e.own.RunCall? && !e.own.ChainLoop?
      && (e.spawned.Some? ==> IsRoot(e.spawned.value))
  {
  }

  predicate NoTreePart(f: Frame) {
    !f.RunCall? && !f.ChainLoop?
  }

  /** Calls and loops stay, and only root calls and other goroutines appear. */
  ghost predicate SameTrees(s: State, s': State) {
    && |s.frames| <= |s'.frames|
    && (forall k :: 0 <= k < |s.frames| ==>
          s'.frames[k] == s.frames[k] || (NoTreePart(s.frames[k]) && NoTreePart(s'.frames[k])))
    && (forall k :: |s.frames| <= k < |s'.frames| ==> IsRoot(s'.frames[k]) || NoTreePart(s'.frames[k]))
  }

  lemma QuietSteps(s: State, a: Action)
    requires Enabled(s, a) && (a.Go? ==> NoTreePart(s.frames[a.frame]))
    ensures SameTrees(s, Perform(s, a))
  {
    FramesAfter(s, a);
    if a.Go? {
      OthersAreQuiet(s, a.frame, s.frames[a.frame], a.choice);
    }
  }

  lemma SameTreesKeepGrown(s: State, s': State)
    requires Grown(s) && SameTrees(s, s')
    ensures Grown(s')
  {
    forall k | 0 <= k < |s'.frames|
      ensures CallOk(s', k) && LoopOk(s', k)
    {
      if k < |s.frames| {
        assert CallOk(s, k) && LoopOk(s, k);
      }
    }
  }

  lemma StepKeepsGrown(s: State, a: Action)
    requires Grown(s) && Enabled(s, a)
    ensures Grown(Perform(s, a))
  {
    if a.Go? && s.frames[a.frame].RunCall? {
      RunIsRunLike(s, a.frame, s.frames[a.frame], a.choice);
      RunLikeKeepsGrown(s, a.frame, StepRun(s, a.frame, s.frames[a.frame], a.choice));
    } else if a.Go? && s.frames[a.frame].ChainLoop? {
      LoopKeepsGrown(s, a.frame, a.choice);
    } else {
      QuietSteps(s, a);
      SameTreesKeepGrown(s, Perform(s, a));
    }
  }

  lemma GrownIgnoresTheClock(s: State, at: int)
    requires Grown(s)
    ensures Grown(s.(now := at))
  {
    var s' := s.(now := at);
    assert forall k :: 0 <= k < |s.frames| ==> CallOk(s, k) ==> CallOk(s', k);
    assert forall k :: 0 <= k < |s.frames| ==> LoopOk(s, k) ==> LoopOk(s', k);
  }

  lemma {:induction false} RunKeepsGrown(s: State, es: seq<Event>)
    requires Grown(s) && Legal(s, es)
    ensures Grown(Exec(s, es))
    decreases |es|
  {
    if es != [] {
      GrownIgnoresTheClock(s, es[0].at);
      StepKeepsGrown(s.(now := es[0].at), es[0].action);
      RunKeepsGrown(Apply(s, es[0]), es[1..]);
    }
  }

  predicate EarlierSibling(f: Frame, g: Frame) {
    && f.RunCall? && g.RunCall? && f.origin.Chained? && g.origin.Chained?
    && f.origin.loop == g.origin.loop && f.origin.index < g.origin.index
  }

  /**
   Siblings go one at a time in listed order: while a call for a later name exists, every call
   for an earlier name of the same list has returned.
   */
  lemma {:induction false} SiblingsInOrder(c: Config, disabled: set<string>, now: int, es: seq<Event>)
    requires Legal(Init(c, disabled, now), es)
    ensures var s := Exec(Init(c, disabled, now), es);
      forall i, k :: 0 <= i < |s.frames| && 0 <= k < |s.frames| && EarlierSibling(s.frames[i], s.frames[k]) ==>
        s.frames[i].pc.Returned?
  {
    RunKeepsGrown(Init(c, disabled, now), es);
    var s := Exec(Init(c, disabled, now), es);
    forall i, k | 0 <= i < |s.frames| && 0 <= k < |s.frames| && EarlierSibling(s.frames[i], s.frames[k])
      ensures s.frames[i].pc.Returned?
    {
      assert CallOk(s, i) && CallOk(s, k);
    }
  }

  // The tree below one run.

  function Parent(s: State, i: nat): Option<nat> {
    if i < |s.frames| && s.frames[i].RunCall? && s.frames[i].origin.Chained?
       && s.frames[i].origin.loop < |s.frames| && s.frames[s.frames[i].origin.loop].ChainLoop?
    then Some(s.frames[s.frames[i].origin.loop].owner)
    else None
  }

  function Kids(s: State, owners: set<nat>): set<nat> {
    set i: nat | i < |s.frames| && Parent(s, i).Some? && Parent(s, i).value in owners
  }

  /** The calls d chain links below call r. */
  function Level(s: State, r: nat, d: nat): set<nat> {
    if d == 0 then {r} else Kids(s, Level(s, r, d - 1))
  }

  function Tree(s: State, r: nat, d: nat): set<nat> {
    if d == 0 then {r} else Tree(s, r, d - 1) + Level(s, r, d)
  }

  function Power(b: nat, d: nat): nat {
    if d == 0 then 1 else b * Power(b, d - 1)
  }

  function PowerSum(b: nat, d: nat): nat {
    if d == 0 then 1 else PowerSum(b, d - 1) + Power(b, d)
  }

  /** Both chain lists of every job that runs have at most b names. */
  ghost predicate FanOut(s: State, b: nat) {
    forall i :: 0 <= i < |s.frames| && s.frames[i].RunCall? ==>
      |s.frames[i].job.onSuccess| <= b && |s.frames[i].job.onFailure| <= b
  }

  /** Calls of one loop at different indices below n: at most n of them. */
  lemma {:induction false} CountByIndex(s: State, kids: set<nat>, n: nat)
    requires forall i :: i in kids ==> i < |s.frames| && s.frames[i].RunCall? && s.frames[i].origin.Chained? && s.frames[i].origin.index < n
    requires forall i, k :: i in kids && k in kids && i != k ==> s.frames[i].origin.index != s.frames[k].origin.index
    ensures |kids| <= n
  {
    if exists i :: i in kids && s.frames[i].origin.index == n - 1 {
      var i :| i in kids && s.frames[i].origin.index == n - 1;
      CountByIndex(s, kids - {i}, n - 1);
    } else if n > 0 {
      CountByIndex(s, kids, n - 1);
    } else {
      assert kids == {};
    }
  }

  lemma KidsOfOne(s: State, o: nat, b: nat)
    requires Grown(s) && FanOut(s, b)
    ensures |Kids(s, {o})| <= b
  {
    var kids := Kids(s, {o});
    forall i, k | i in kids && k in kids && i != k
      ensures s.frames[i].origin.index != s.frames[k].origin.index
    {
      assert s.frames[i].origin.loop == s.frames[k].origin.loop by {
        assert SameOwner(s.frames[s.frames[i].origin.loop], s.frames[s.frames[k].origin.loop]);
        assert SameOwner(s.frames[s.frames[k].origin.loop], s.frames[s.frames[i].origin.loop]);
      }
      assert !SameSlot(s.frames[i], s.frames[k]) && !SameSlot(s.frames[k], s.frames[i]);
    }
    forall i | i in kids
      ensures s.frames[i].origin.index < b
    {
      assert CallOk(s, i) && LoopOk(s, s.frames[i].origin.loop);
    }
    CountByIndex(s, kids, b);
  }

  lemma KidsSplit(s: State, owners: set<nat>, o: nat)
    requires o in owners
    ensures |Kids(s, owners)| <= |Kids(s, {o})| + |Kids(s, owners - {o})|
  {
    assert Kids(s, owners) == Kids(s, {o}) + Kids(s, owners - {o});
  }

  lemma Times(x: nat, y: nat, b: nat)
    requires x <= y
    ensures x * b <= y * b && (y == x + 1 ==> x * b + b == y * b)
  {
  }

  lemma {:induction false} KidsOfMany(s: State, owners: set<nat>, b: nat)
    requires Grown(s) && FanOut(s, b)
    ensures |Kids(s, owners)| <= |owners| * b
    decreases |owners|
  {
    if owners == {} {
      assert Kids(s, owners) == {};
    } else {
      var o :| o in owners;
      KidsOfOne(s, o, b);
      KidsOfMany(s, owners - {o}, b);
      KidsSplit(s, owners, o);
      Times(|owners| - 1, |owners|, b);
    }
  }

  lemma {:induction false} LevelSize(s: State, r: nat, d: nat, b: nat)
    requires Grown(s) && FanOut(s, b)
    ensures |Level(s, r, d)| <= Power(b, d)
  {
    hide Grown, FanOut, Kids;
    if d > 0 {
      LevelSize(s, r, d - 1, b);
      KidsOfMany(s, Level(s, r, d - 1), b);
      Times(|Level(s, r, d - 1)|, Power(b, d - 1), b);
    }
  }

  lemma UnionSize(a: set<nat>, b: set<nat>)
    ensures |a + b| <= |a| + |b|
  {
  }

  lemma {:induction false} TreeSize(s: State, r: nat, d: nat, b: nat)
    requires Grown(s) && FanOut(s, b)
    ensures |Tree(s, r, d)| <= PowerSum(b, d)
  {
    hide Grown, FanOut, Level, Power;
    if d > 0 {
      TreeSize(s, r, d - 1, b);
      LevelSize(s, r, d, b);
      UnionSize(Tree(s, r, d - 1), Level(s, r, d));
    }
  }

  /** The depth a call carries is its distance from the run the chain began with. */
  lemma {:induction false} LevelIsDepth(s: State, r: nat, d: nat, i: nat)
    requires Grown(s) && r < |s.frames| && s.frames[r].RunCall? && i in Level(s, r, d)
    ensures i < |s.frames| && s.frames[i].RunCall? && s.frames[i].depth == s.frames[r].depth + d
  {
    if d > 0 {
      var o := Parent(s, i).value;
      LevelIsDepth(s, r, d - 1, o);
      assert CallOk(s, i) && LoopOk(s, s.frames[i].origin.loop);
    }
  }

  /**
   On any chain graph, cycles included: no call is deeper than 16, nothing hangs more than 16 links
   below a run, and with at most b names per list a run of depth 0 has at most 1 + b + ... + b^16
   runs in its tree.
   */
  lemma {:induction false} ChainBound(c: Config, disabled: set<string>, now: int, es: seq<Event>, r: nat, d: nat, b: nat)
    requires Legal(Init(c, disabled, now), es)
    requires var s := Exec(Init(c, disabled, now), es);
      r < |s.frames| && s.frames[r].RunCall? && FanOut(s, b)
    ensures var s := Exec(Init(c, disabled, now), es);
      && (forall i :: 0 <= i < |s.frames| && s.frames[i].RunCall? ==> s.frames[i].depth <= MAX_CHAIN_DEPTH)
      && (d > MAX_CHAIN_DEPTH ==> Level(s, r, d) == {})
      && |Tree(s, r, MAX_CHAIN_DEPTH)| <= PowerSum(b, MAX_CHAIN_DEPTH)
  {
    RunKeepsGrown(Init(c, disabled, now), es);
    var s := Exec(Init(c, disabled, now), es);
    forall i | 0 <= i < |s.frames|
      ensures s.frames[i].RunCall? ==> s.frames[i].depth <= MAX_CHAIN_DEPTH
    {
      assert CallOk(s, i);
    }
    forall i | i in Level(s, r, d)
      ensures d <= MAX_CHAIN_DEPTH
    {
      LevelIsDepth(s, r, d, i);
    }
    TreeSize(s, r, MAX_CHAIN_DEPTH, b);
  }
}
