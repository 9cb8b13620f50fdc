/** Single instance and groups: at most one run of a job, and of a group, at any time. */
module Exclusion {
  import opened Prelude
  import opened JobConfig
  import opened RunnerState
  import opened Protocol

  predicate Conflict(a: Job, b: Job) {
    a.name == b.name || (a.group != "" && a.group == b.group)
  }

  ghost predicate NameHeld(s: State, name: string) {
    exists i :: 0 <= i < |s.frames| && Holds(s.frames[i]) && s.frames[i].job.name == name
  }

  ghost predicate GroupHeld(s: State, group: string) {
    exists i :: 0 <= i < |s.frames| && Holds(s.frames[i]) && s.frames[i].job.group == group && group != ""
  }

  /** `running` and `groupBusy` are the names and groups captured by the holders, who never conflict. */
  ghost predicate Exclusive(s: State) {
    && (forall i, k :: 0 <= i < k < |s.frames| && Holds(s.frames[i]) && Holds(s.frames[k]) ==>
          !Conflict(s.frames[i].job, s.frames[k].job))
    && (forall n :: n in s.sh.running <==> NameHeld(s, n))
    && (forall g :: g in s.sh.groupBusy <==> GroupHeld(s, g))
  }

  /** Busy when the job runs, group busy when it does not but its group does, and otherwise no denial. */
  lemma DenialIs(s: State, job: Job)
    requires Exclusive(s)
    ensures AcquireDenial(s.sh, job) == Some(Busy) <==> NameHeld(s, job.name)
    ensures AcquireDenial(s.sh, job) == Some(GroupBusy) <==> !NameHeld(s, job.name) && GroupHeld(s, job.group)
  {
    assert GroupHeld(s, job.group) ==> job.group != "";
  }

  /** Nobody acquired or released between the two states. */
  ghost predicate SameHolders(s: State, s': State) {
    && |s.frames| <= |s'.frames|
    && s'.sh.running == s.sh.running && s'.sh.groupBusy == s.sh.groupBusy
    && (forall i :: 0 <= i < |s.frames| ==> Holds(s.frames[i]) == Holds(s'.frames[i]))
    && (forall i :: 0 <= i < |s.frames| && Holds(s.frames[i]) ==> s.frames[i].job == s'.frames[i].job)
    && (forall i :: |s.frames| <= i < |s'.frames| ==> !Holds(s'.frames[i]))
  }

  ghost predicate Acquires(s: State, a: Action) {
    && a.Go? && a.frame < |s.frames| && s.frames[a.frame].RunCall? && s.frames[a.frame].pc.Acquire?
    && AcquireDenial(s.sh, s.frames[a.frame].job).None?
  }

  ghost predicate Releases(s: State, a: Action) {
    a.Go? && a.frame < |s.frames| && s.frames[a.frame].RunCall? && s.frames[a.frame].pc.Release?
  }

  /** The same, as seen by one goroutine's effect. */
  ghost predicate HoldsAsBefore(s: State, f: Frame, e: Effect) {
    && Holds(e.own) == Holds(f) && (Holds(f) ==> e.own.job == f.job)
    && (e.spawned.Some? ==> !Holds(e.spawned.value))
    && e.sh.running == s.sh.running && e.sh.groupBusy == s.sh.groupBusy
  }

  lemma ExecuteHoldsAsBefore(s: State, i: nat, f: Frame, c: Choice)
    requires f.RunCall?
    ensures HoldsAsBefore(s, f, StepExecute(s, i, f, c))
  {
  }

  lemma DrainHoldsAsBefore(s: State, i: nat, f: Frame)
    requires f.RunCall? && f.pc.DrainLock?
    ensures HoldsAsBefore(s, f, StepDrain(s, i, f))
  {
    hide DrainPick;
  }

  lemma RunHoldsAsBefore(s: State, i: nat, f: Frame, c: Choice)
    requires f.RunCall? && !f.pc.Release? && !(f.pc.Acquire? && AcquireDenial(s.sh, f.job).None?)
    ensures HoldsAsBefore(s, f, StepRun(s, i, f, c))
  {
    hide StepExecute, StepDrain, Lookup, ChainTargets, Settle;
    if f.pc.DrainLock? {
      DrainHoldsAsBefore(s, i, f);
    } else {
      ExecuteHoldsAsBefore(s, i, f, c);
    }
  }

  lemma OtherHoldsAsBefore(s: State, i: nat, f: Frame, c: Choice)
    requires !f.RunCall?
    ensures HoldsAsBefore(s, f, StepFrame(s, i, f, c))
  {
  }

  lemma CommitKeepsHolders(s: State, i: nat, e: Effect)
    requires i < |s.frames| && HoldsAsBefore(s, s.frames[i], e)
    ensures SameHolders(s, Commit(s, i, e))
  {
  }

  lemma EnvironmentKeepsHolders(s: State, a: Action)
    requires !a.Go?
    ensures SameHolders(s, Perform(s, a))
  {
  }

  lemma SameHoldersKeepExclusive(s: State, s': State)
    requires Exclusive(s) && SameHolders(s, s')
    ensures Exclusive(s')
  {
    forall n
      ensures NameHeld(s', n) <==> NameHeld(s, n)
    {
      if NameHeld(s, n) {
        var i :| 0 <= i < |s.frames| && Holds(s.frames[i]) && s.frames[i].job.name == n;
        assert Holds(s'.frames[i]);
      }
      if NameHeld(s', n) {
        var i :| 0 <= i < |s'.frames| && Holds(s'.frames[i]) && s'.frames[i].job.name == n;
        assert Holds(s.frames[i]);
      }
    }
    forall g
      ensures GroupHeld(s', g) <==> GroupHeld(s, g)
    {
      if GroupHeld(s, g) {
        var i :| 0 <= i < |s.frames| && Holds(s.frames[i]) && s.frames[i].job.group == g && g != "";
        assert Holds(s'.frames[i]);
      }
      if GroupHeld(s', g) {
        var i :| 0 <= i < |s'.frames| && Holds(s'.frames[i]) && s'.frames[i].job.group == g && g != "";
        assert Holds(s.frames[i]);
      }
    }
  }

  lemma AcquireKeepsExclusive(s: State, i: nat)
    requires Exclusive(s) && i < |s.frames| && s.frames[i].RunCall? && s.frames[i].pc.Acquire?
    requires AcquireDenial(s.sh, s.frames[i].job).None?
    ensures Exclusive(Commit(s, i, StepAcquire(s, s.frames[i])))
  {
    var s' := Commit(s, i, StepAcquire(s, s.frames[i]));
    var job := s.frames[i].job;
    assert Holds(s'.frames[i]) && s'.frames[i].job == job;
    assert forall k :: 0 <= k < |s.frames| && k != i ==> s'.frames[k] == s.frames[k];
    forall k | 0 <= k < |s.frames| && k != i && Holds(s.frames[k])
      ensures !Conflict(s.frames[k].job, job)
    {
      assert NameHeld(s, s.frames[k].job.name);
      assert s.frames[k].job.group != "" ==> GroupHeld(s, s.frames[k].job.group);
    }
    forall n
      ensures n in s'.sh.running <==> NameHeld(s', n)
    {
      if NameHeld(s, n) {
        var k :| 0 <= k < |s.frames| && Holds(s.frames[k]) && s.frames[k].job.name == n;
        assert Holds(s'.frames[k]);
      }
    }
    forall g
      ensures g in s'.sh.groupBusy <==> GroupHeld(s', g)
    {
      if GroupHeld(s, g) {
        var k :| 0 <= k < |s.frames| && Holds(s.frames[k]) && s.frames[k].job.group == g && g != "";
        assert Holds(s'.frames[k]);
      }
    }
  }

  lemma ReleaseKeepsExclusive(s: State, i: nat)
    requires Exclusive(s) && i < |s.frames| && s.frames[i].RunCall? && s.frames[i].pc.Release?
    ensures Exclusive(Commit(s, i, StepRelease(s, s.frames[i])))
  {
    var s' := Commit(s, i, StepRelease(s, s.frames[i]));
    var job := s.frames[i].job;
    assert !Holds(s'.frames[i]);
    assert forall k :: 0 <= k < |s.frames| && k != i ==> s'.frames[k] == s.frames[k];
    forall n
      ensures n in s'.sh.running <==> NameHeld(s', n)
    {
      if NameHeld(s, n) && n != job.name {
        var k :| 0 <= k < |s.frames| && Holds(s.frames[k]) && s.frames[k].job.name == n;
        assert Holds(s'.frames[k]);
      }
      if NameHeld(s', n) {
        var k :| 0 <= k < |s'.frames| && Holds(s'.frames[k]) && s'.frames[k].job.name == n;
        assert Holds(s.frames[k]) && !Conflict(s.frames[k].job, job) && NameHeld(s, n);
      }
    }
    forall g
      ensures g in s'.sh.groupBusy <==> GroupHeld(s', g)
    {
      if GroupHeld(s, g) && g != job.group {
        var k :| 0 <= k < |s.frames| && Holds(s.frames[k]) && s.frames[k].job.group == g && g != "";
        assert Holds(s'.frames[k]);
      }
      if GroupHeld(s', g) {
        var k :| 0 <= k < |s'.frames| && Holds(s'.frames[k]) && s'.frames[k].job.group == g && g != "";
        assert Holds(s.frames[k]) && !Conflict(s.frames[k].job, job) && GroupHeld(s, g);
      }
    }
  }

  /** Every step of every interleaving keeps the guard, whatever it does to the configuration. */
  lemma StepKeepsExclusive(s: State, a: Action)
    requires Exclusive(s) && Enabled(s, a)
    ensures Exclusive(Perform(s, a))
  {
    if a.Go? {
      var f := s.frames[a.frame];
      if Acquires(s, a) {
        AcquireKeepsExclusive(s, a.frame);
      } else if Releases(s, a) {
        ReleaseKeepsExclusive(s, a.frame);
      } else {
        if f.RunCall? {
          RunHoldsAsBefore(s, a.frame, f, a.choice);
        } else {
          OtherHoldsAsBefore(s, a.frame, f, a.choice);
        }
        CommitKeepsHolders(s, a.frame, StepFrame(s, a.frame, f, a.choice));
        SameHoldersKeepExclusive(s, Perform(s, a));
      }
    } else {
      EnvironmentKeepsHolders(s, a);
      SameHoldersKeepExclusive(s, Perform(s, a));
    }
  }
}
