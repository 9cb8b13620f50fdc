/** Runs of the protocol along a chain: a call runs to its end, its loop gets to a name, the next call starts. */
module ChainSchedules {
  import opened Prelude
  import opened JobConfig
  import opened RunnerState
  import opened Protocol
  import opened FixedConfig
  import opened ChainTree
  import opened Schedules
  import Diagram

  /** Nothing held, nothing pending, nothing switched off. */
  ghost predicate AtEase(c: Config, s: State) {
    && s.config == c && !s.draining && s.sh.disabled == {} && s.signalled == {}
    && s.sh.running == {} && s.sh.groupBusy == {}
    && forall n :: Pending(s.sh, n) == 0
  }

  predicate About(f: Frame, job: Job, depth: nat) {
    f.RunCall? && f.job == job && f.depth == depth && f.pc.CheckDisabled?
  }

  ghost predicate Closes(c: Config, names: seq<string>) {
    forall n :: n in names ==> Lookup(c, n).Some?
  }

  /** The call is done but for its chain. */
  ghost predicate AtChain(c: Config, f: Frame, job: Job, depth: nat, status: Status) {
    && f.RunCall? && f.job == job && f.depth == depth && f.pc.Chain? && f.outcome == Finished(status)
    && Closes(c, ChainTargets(job, Finished(status)))
  }

  lemma NothingWaits(sh: Shared, c: Config, job: Job)
    requires forall n :: Pending(sh, n) == 0
    ensures DrainPick(sh, c, job).None?
  {
    FirstWaitingIs(sh, Candidates(c, job));
  }

  lemma ReferencesClose(c: Config, job: Job, status: Status)
    requires Valid(c) && Known(c, job)
    ensures Closes(c, ChainTargets(job, Finished(status)))
  {
    forall n | n in ChainTargets(job, Finished(status))
      ensures Lookup(c, n).Some?
    {
      ReferencesResolve(c, job, n);
    }
  }

  /** A call left alone gets as far as its chain, with the chosen status. */
  lemma RunToChain(c: Config, s: State, i: nat, job: Job, depth: nat, status: Status) returns (es: seq<Event>, t: State)
    requires Valid(c) && Known(c, job) && (status.Success? || status.Failed?)
    requires AtEase(c, s) && i < |s.frames| && About(s.frames[i], job, depth)
    ensures Leads(s, es, t) && AtEase(c, t) && Elsewhere(s, t, i) && |t.frames| == |s.frames|
    ensures AtChain(c, t.frames[i], job, depth, status)
  {
    hide Leads;
    var t1, t2, fs;
    es, t1 := ToCommand(s, i);
    fs, t2 := ToDrain(t1, i, status);
    Then(s, es, t1, fs, t2);
    assert forall n :: Pending(t2.sh, n) == Pending(s.sh, n);
    NothingWaits(t2.sh, c, job);
    ReferencesClose(c, job, status);
    es, t := Go1(s, es + fs, t2, i, FINE);
  }

  ghost predicate LoopAt(c: Config, f: Frame, owner: nat, depth: nat, names: seq<string>, next: nat) {
    f == ChainLoop(owner, depth, names, c, next, None) && Closes(c, names)
  }

  /** The chain starts its loop. */
  lemma StartLoop(c: Config, s: State, i: nat, job: Job, depth: nat, status: Status) returns (es: seq<Event>, t: State)
    requires AtEase(c, s) && i < |s.frames| && AtChain(c, s.frames[i], job, depth, status)
    ensures Leads(s, es, t) && |es| == 1 && AtEase(c, t) && Elsewhere(s, t, i)
    ensures t.frames[i] == s.frames[i].(pc := Returned)
    ensures var names := ChainTargets(job, Finished(status));
      names != [] && depth < MAX_CHAIN_DEPTH ==>
        |t.frames| == |s.frames| + 1 && LoopAt(c, t.frames[|s.frames|], i, depth, names, 0)
  {
    hide Leads;
    Nowhere(s);
    es, t := Go1(s, [], s, i, FINE);
  }

  /** The loop calls its next name. */
  lemma CallNext(c: Config, s: State, l: nat, owner: nat, depth: nat, names: seq<string>, next: nat)
    returns (es: seq<Event>, t: State, job: Job)
    requires AtEase(c, s) && l < |s.frames| && next < |names| && LoopAt(c, s.frames[l], owner, depth, names, next)
    ensures Leads(s, es, t) && AtEase(c, t) && Elsewhere(s, t, l) && |t.frames| == |s.frames| + 1
    ensures job.name == names[next] && Known(c, job)
    ensures t.frames[|s.frames|] == NewCall(job, depth + 1, 0, Chained(l, next))
    ensures t.frames[l] == s.frames[l].(child := Some(|s.frames|))
  {
    hide Leads;
    job := Lookup(c, names[next]).value;
    Nowhere(s);
    es, t := Go1(s, [], s, l, FINE);
  }

  lemma LoopOn(c: Config, s: State, es: seq<Event>, t: State, l: nat) returns (fs: seq<Event>, u: State)
    requires Leads(s, es, t) && AtEase(c, t) && l < |t.frames| && t.frames[l].ChainLoop? && t.frames[l].child.Some?
    requires Runnable(t, l, FINE)
    ensures Leads(s, fs, u) && AtEase(c, u) && Elsewhere(t, u, l)
    ensures u.frames[l] == t.frames[l].(child := None, next := t.frames[l].next + 1)
  {
    fs, u := Go1(s, es, t, l, FINE);
  }

  /** A sibling is called and runs to its end, and the loop moves on. */
  lemma SkipSibling(c: Config, s: State, l: nat, owner: nat, depth: nat, names: seq<string>, next: nat)
    returns (es: seq<Event>, t: State)
    requires Valid(c)
    requires AtEase(c, s) && l < |s.frames| && next < |names| && LoopAt(c, s.frames[l], owner, depth, names, next)
    ensures Leads(s, es, t) && AtEase(c, t) && Elsewhere(s, t, l) && LoopAt(c, t.frames[l], owner, depth, names, next + 1)
  {
    hide Leads, AtEase, AtChain;
    var t1, t2, t3, fs, gs, job;
    es, t1, job := CallNext(c, s, l, owner, depth, names, next);
    fs, t2 := RunToChain(c, t1, |s.frames|, job, depth + 1, Success);
    Then(s, es, t1, fs, t2);
    gs, t3 := StartLoop(c, t2, |s.frames|, job, depth + 1, Success);
    Then(s, es + fs, t2, gs, t3);
    assert t3.frames[|s.frames|].RunCall? && t3.frames[|s.frames|].pc.Returned?;
    es, t := LoopOn(c, s, es + fs + gs, t3, l);
  }

  lemma {:induction false} SkipTo(c: Config, s: State, l: nat, owner: nat, depth: nat, names: seq<string>, next: nat, k: nat)
    returns (es: seq<Event>, t: State)
    requires Valid(c)
    requires AtEase(c, s) && l < |s.frames| && next <= k < |names| && LoopAt(c, s.frames[l], owner, depth, names, next)
    ensures Leads(s, es, t) && AtEase(c, t) && Elsewhere(s, t, l) && LoopAt(c, t.frames[l], owner, depth, names, k)
    decreases k - next
  {
    hide Leads, AtEase;
    if next == k {
      Nowhere(s);
      es, t := [], s;
    } else {
      var t1, fs;
      es, t1 := SkipSibling(c, s, l, owner, depth, names, next);
      fs, t := SkipTo(c, t1, l, owner, depth, names, next + 1, k);
      Then(s, es, t1, fs, t);
      es := es + fs;
    }
  }

  /** The status that makes a job chain to one of its links. */
  function StatusFor(job: Job, name: string): Status {
    if name in job.onSuccess then Success else Failed
  }

  lemma StatusChains(c: Config, job: Job, name: string) returns (k: nat)
    requires Known(c, job) && Diagram.Linked(c, job.name, name)
    ensures var names := ChainTargets(job, Finished(StatusFor(job, name))); k < |names| && names[k] == name
  {
    var names := ChainTargets(job, Finished(StatusFor(job, name)));
    k :| 0 <= k < |names| && names[k] == name;
  }

  /** From a call's chain to the call of one of its names, the names before it having run to their end. */
  lemma ToNext(c: Config, s: State, i: nat, job: Job, depth: nat, name: string)
    returns (es: seq<Event>, t: State, child: Job)
    requires Valid(c) && Known(c, job) && Diagram.Linked(c, job.name, name) && depth < MAX_CHAIN_DEPTH
    requires AtEase(c, s) && i < |s.frames| && AtChain(c, s.frames[i], job, depth, StatusFor(job, name))
    ensures Leads(s, es, t) && es != [] && AtEase(c, t) && Elsewhere(s, t, i) && |t.frames| > |s.frames|
    ensures child.name == name && Known(c, child) && About(t.frames[|t.frames| - 1], child, depth + 1)
    ensures Parent(t, |t.frames| - 1) == Some(i)
  {
    hide Leads, AtEase, AtChain;
    var k := StatusChains(c, job, name);
    var names := ChainTargets(job, Finished(StatusFor(job, name)));
    var l := |s.frames|;
    var t1, t2, fs, gs;
    es, t1 := StartLoop(c, s, i, job, depth, StatusFor(job, name));
    fs, t2 := SkipTo(c, t1, l, i, depth, names, 0, k);
    Then(s, es, t1, fs, t2);
    gs, t, child := CallNext(c, t2, l, i, depth, names, k);
    Then(s, es + fs, t2, gs, t);
    es := es + fs + gs;
  }

  /** One link further down: the call runs to its end, and its loop gets to the wanted name. */
  lemma OneLink(c: Config, s: State, i: nat, job: Job, depth: nat, name: string)
    returns (es: seq<Event>, t: State, child: Job)
    requires Valid(c) && Known(c, job) && Diagram.Linked(c, job.name, name)
    requires AtEase(c, s) && i < |s.frames| && About(s.frames[i], job, depth) && depth < MAX_CHAIN_DEPTH
    ensures Leads(s, es, t) && AtEase(c, t) && |t.frames| > 0
    ensures child.name == name && Known(c, child) && About(t.frames[|t.frames| - 1], child, depth + 1)
    ensures Parent(t, |t.frames| - 1) == Some(i)
  {
    hide Leads, AtEase;
    var _ := StatusChains(c, job, name);
    var t1, fs;
    es, t1 := RunToChain(c, s, i, job, depth, StatusFor(job, name));
    fs, t, child := ToNext(c, t1, i, job, depth, name);
    Then(s, es, t1, fs, t);
    es := es + fs;
  }
}
