/** Building runs of the protocol step by step, for the theorems that need one to exist. */
module Schedules {
  import opened JobConfig
  import opened RunnerState
  import opened Protocol

  const FINE := Choice(true, true, false)

  /** A step the runner takes by itself, as opposed to a call from outside or a switch being turned. */
  predicate Internal(a: Action) {
    a.Go? || a.Fire? || a.Expire?
  }

  predicate AllInternal(es: seq<Event>) {
    forall k :: 0 <= k < |es| ==> Internal(es[k].action)
  }

  /** A legal run of internal steps from s to t, at one instant. */
  ghost predicate Leads(s: State, es: seq<Event>, t: State) {
    Legal(s, es) && AllInternal(es) && Exec(s, es) == t && t.now == s.now
  }

  lemma Nowhere(s: State)
    ensures Leads(s, [], s)
  {
  }

  lemma Then(s: State, es: seq<Event>, t: State, fs: seq<Event>, u: State)
    requires Leads(s, es, t) && Leads(t, fs, u)
    ensures Leads(s, es + fs, u)
  {
    ExecConcat(s, es, fs);
  }

  /** Frame i takes one more step. */
  lemma Go1(s: State, es: seq<Event>, t: State, i: nat, c: Choice) returns (fs: seq<Event>, u: State)
    requires Leads(s, es, t) && i < |t.frames| && Runnable(t, i, c)
    ensures Leads(s, fs, u) && |fs| == |es| + 1 && es <= fs
    ensures u == Commit(t, i, StepFrame(t, i, t.frames[i], c))
  {
    var e := Event(Go(i, c), t.now);
    assert t.(now := t.now) == t;
    u := Apply(t, e);
    fs := es + [e];
    assert [e][1..] == [];
    assert Exec(t, [e]) == Exec(u, []) == u;
    ExecConcat(s, es, [e]);
  }

  /** The same states but for frame i, the maps, what was added, and the step count. */
  ghost predicate Elsewhere(s: State, t: State, i: nat) {
    && i < |s.frames| <= |t.frames|
    && t.draining == s.draining && t.config == s.config && t.signalled == s.signalled && t.now == s.now
    && (forall k :: 0 <= k < |s.frames| && k != i ==> t.frames[k] == s.frames[k])
  }

  predicate At(f: Frame, g: Frame, pc: Pc) {
    f.RunCall? && g.RunCall? && g.job == f.job && g.depth == f.depth && g.origin == f.origin && g.pc == pc
  }

  /** A call nobody stands in the way of gets its command started. */
  lemma ToCommand(s: State, i: nat) returns (es: seq<Event>, t: State)
    requires i < |s.frames| && s.frames[i].RunCall? && s.frames[i].pc.CheckDisabled?
    requires s.frames[i].job.name !in s.sh.disabled && !s.draining && AcquireDenial(s.sh, s.frames[i].job).None?
    ensures Leads(s, es, t) && |es| == 5
    ensures Elsewhere(s, t, i) && |t.frames| == |s.frames| && At(s.frames[i], t.frames[i], Command)
    ensures t.sh == AcquireLocked(s.sh, s.frames[i].job).(cancels := s.sh.cancels[s.frames[i].job.name := i])
  {
    hide Leads;
    Nowhere(s);
    es, t := Go1(s, [], s, i, FINE);
    es, t := Go1(s, es, t, i, FINE);
    es, t := Go1(s, es, t, i, FINE);
    es, t := Go1(s, es, t, i, FINE);
    es, t := Go1(s, es, t, i, FINE);
  }

  /** Its command ends, and nothing stops it. */
  lemma ToClear(s: State, i: nat, status: Status) returns (es: seq<Event>, t: State)
    requires i < |s.frames| && s.frames[i].RunCall? && s.frames[i].pc.Command? && !s.draining
    requires (status.Success? || status.Failed?) && i !in s.signalled
    ensures Leads(s, es, t) && |es| == 3
    ensures Elsewhere(s, t, i) && |t.frames| == |s.frames| && At(s.frames[i], t.frames[i], ClearCancel)
    ensures t.frames[i].outcome == Finished(status) && t.sh == s.sh
  {
    hide Leads;
    Nowhere(s);
    es, t := Go1(s, [], s, i, FINE);
    es, t := Go1(s, es, t, i, FINE);
    es, t := Go1(s, es, t, i, Choice(true, status.Success?, false));
  }

  /** Its call gets as far as the drain. */
  lemma ClearToDrain(s: State, i: nat) returns (es: seq<Event>, t: State)
    requires i < |s.frames| && s.frames[i].RunCall? && s.frames[i].pc.ClearCancel? && !s.draining
    ensures Leads(s, es, t) && |es| == 3
    ensures Elsewhere(s, t, i) && |t.frames| == |s.frames| && At(s.frames[i], t.frames[i], DrainLock)
    ensures t.frames[i].outcome == s.frames[i].outcome
    ensures t.sh == ReleaseLocked(s.sh, s.frames[i].job).(cancels := s.sh.cancels - {s.frames[i].job.name})
  {
    hide Leads;
    Nowhere(s);
    es, t := Go1(s, [], s, i, FINE);
    es, t := Go1(s, es, t, i, FINE);
    es, t := Go1(s, es, t, i, FINE);
  }

  /** A started command ends, and its call gets as far as the drain. */
  lemma ToDrain(s: State, i: nat, status: Status) returns (es: seq<Event>, t: State)
    requires i < |s.frames| && s.frames[i].RunCall? && s.frames[i].pc.Command? && !s.draining
    requires (status.Success? || status.Failed?) && i !in s.signalled
    ensures Leads(s, es, t) && |es| == 6
    ensures Elsewhere(s, t, i) && |t.frames| == |s.frames| && At(s.frames[i], t.frames[i], DrainLock)
    ensures t.frames[i].outcome == Finished(status)
    ensures t.sh == ReleaseLocked(s.sh, s.frames[i].job).(cancels := s.sh.cancels - {s.frames[i].job.name})
  {
    hide Leads, ReleaseLocked;
    var ends, t1 := ToClear(s, i, status);
    var leaves;
    leaves, t := ClearToDrain(t1, i);
    Then(s, ends, t1, leaves, t);
    es := ends + leaves;
  }

  /** A call that finds its job or group taken: denied, and for a debounced job on its way to requeue. */
  lemma ToRequeue(s: State, i: nat) returns (es: seq<Event>, t: State)
    requires i < |s.frames| && s.frames[i].RunCall? && s.frames[i].pc.CheckDisabled?
    requires s.frames[i].job.name !in s.sh.disabled && !s.draining && AcquireDenial(s.sh, s.frames[i].job).Some?
    requires DebounceDur(s.frames[i].job) > 0
    ensures Leads(s, es, t) && |es| == 3
    ensures Elsewhere(s, t, i) && |t.frames| == |s.frames| && At(s.frames[i], t.frames[i], Requeue)
    ensures t.sh == s.sh
  {
    hide Leads;
    Nowhere(s);
    es, t := Go1(s, [], s, i, FINE);
    es, t := Go1(s, es, t, i, FINE);
    es, t := Go1(s, es, t, i, FINE);
  }
}
