/**
 Where a debounced job can chain back to itself, the runner can be kept busy for ever: the call
 that closes the loop finds the job busy and becomes a pending trigger, and the run that takes
 it starts again at depth 0. Together with Quiescence: exactly when every schedule ends.
 */
module Livelock {
  import opened Prelude
  import opened JobConfig
  import opened RunnerState
  import opened Protocol
  import opened FixedConfig
  import opened Schedules
  import opened ChainSchedules
  import opened Restarts
  import opened Quiescence
  import opened Delivery

  predicate Spare(c: Config, s: State, k: nat, name: string) {
    Lookup(c, name).Some? && k < |s.frames| && About(s.frames[k], Lookup(c, name).value, 0)
  }

  /** Of every debounced job there is a call at depth 0 that has not begun. */
  ghost predicate Spares(c: Config, s: State) {
    forall name :: IsDebounced(c, name) ==> exists k :: Spare(c, s, k, name)
  }

  /** One call of the job is about to chain, with a status for which the next name is listed. */
  ghost predicate Turning(c: Config, s: State, i: nat, name: string, d: nat, next: string) {
    && AtEase(c, s) && Spares(c, s) && i < |s.frames| && Diagram.Linked(c, name, next)
    && Lookup(c, name).Some?
    && var job := Lookup(c, name).value;
      AtChain(c, s.frames[i], job, d, StatusFor(job, next))
  }

  lemma SparesStay(c: Config, s: State, t: State, i: nat)
    requires Spares(c, s) && Elsewhere(s, t, i) && !(s.frames[i].RunCall? && s.frames[i].pc.CheckDisabled?)
    ensures Spares(c, t)
  {
    forall name | IsDebounced(c, name)
      ensures exists k :: Spare(c, t, k, name)
    {
      var k :| Spare(c, s, k, name);
      assert Spare(c, t, k, name);
    }
  }

  lemma OwnTriggerFirst(sh: Shared, c: Config, job: Job)
    requires Waits(sh, job.name) && sh.groupBusy == {}
    ensures DrainPick(sh, c, job) == Some(job.name)
  {
    assert Candidates(c, job)[0] == job.name;
  }

  lemma CountIs(sh: Shared, sh': Shared, name: string, k: nat)
    requires forall n :: n != name ==> Pending(sh, n) == 0
    requires sh'.pending == sh.pending || sh'.pending == sh.pending[name := k]
    requires Pending(sh', name) == k
    ensures forall n :: Pending(sh', n) == if n == name then k else 0
  {
    forall n
      ensures Pending(sh', n) == if n == name then k else 0
    {
      assert n != name ==> Pending(sh, n) == 0;
    }
  }

  /** A call is denied because another one of its job has just got going, and leaves a trigger pending. */
  lemma Deny(c: Config, s: State, m: nat, k: nat, job: Job, d: nat) returns (es: seq<Event>, t: State)
    requires AtEase(c, s) && DebounceDur(job) > 0 && m != k && m < |s.frames| && k < |s.frames|
    requires About(s.frames[m], job, d) && About(s.frames[k], job, 0)
    ensures Leads(s, es, t) && |t.frames| == |s.frames| && t.config == c && !t.draining && t.signalled == {}
    ensures forall n :: 0 <= n < |s.frames| && n != m && n != k ==> t.frames[n] == s.frames[n]
    ensures At(s.frames[k], t.frames[k], Command)
    ensures t.sh.running == {job.name} && t.sh.groupBusy == GroupSet(job) && t.sh.disabled == {}
    ensures forall n :: Pending(t.sh, n) == if n == job.name then 1 else 0
  {
    hide Leads;
    var t1, t2, fs;
    es, t1 := ToCommand(s, k);
    fs, t2 := ToRequeue(t1, m);
    Then(s, es, t1, fs, t2);
    assert Pending(t2.sh, job.name) == Pending(s.sh, job.name) == 0;
    es, t := Go1(s, es + fs, t2, m, FINE);
    CountIs(s.sh, t.sh, job.name, 1);
  }

  /** The running call ends; its drain takes the trigger and starts a call for it. */
  lemma Retake(c: Config, s: State, k: nat, job: Job, status: Status) returns (es: seq<Event>, t: State)
    requires Valid(c) && Known(c, job) && (status.Success? || status.Failed?) && k < |s.frames| && s.frames[k].RunCall?
    requires s.config == c && !s.draining && s.signalled == {} && s.sh.disabled == {}
    requires s.frames[k].job == job && s.frames[k].depth == 0 && s.frames[k].pc.Command?
    requires s.sh.running == {job.name} && s.sh.groupBusy == GroupSet(job)
    requires forall n :: Pending(s.sh, n) == if n == job.name then 1 else 0
    ensures Leads(s, es, t) && AtEase(c, t) && Elsewhere(s, t, k) && |t.frames| == |s.frames| + 1
    ensures AtChain(c, t.frames[k], job, 0, status) && About(t.frames[|s.frames|], job, 0)
  {
    hide Leads, StepExecute, StepLoop, StepTrigger, StepForce, StepCancel, StepChain;
    var t1;
    es, t1 := ToDrain(s, k, status);
    assert Pending(t1.sh, job.name) == Pending(s.sh, job.name) == 1;
    CountIs(s.sh, t1.sh, job.name, 1);
    OwnTriggerFirst(t1.sh, c, job);
    ReferencesClose(c, job, status);
    es, t := Go1(s, es, t1, k, FINE);
    assert t.frames[k].pc.DrainLookup? && t.frames[k].pc.name == job.name;
    CountIs(s.sh, t.sh, job.name, 0);
    es, t := Go1(s, es, t, k, FINE);
  }

  /** The call of a debounced job comes back as a call at depth 0, and the spare call takes its place. */
  lemma Restart(c: Config, s: State, m: nat, job: Job, d: nat, next: string)
    returns (es: seq<Event>, t: State, k: nat)
    requires Valid(c) && Known(c, job) && DebounceDur(job) > 0 && Diagram.Linked(c, job.name, next)
    requires AtEase(c, s) && m < |s.frames| && About(s.frames[m], job, d)
    requires forall name :: IsDebounced(c, name) ==> exists k :: k != m && Spare(c, s, k, name)
    ensures Leads(s, es, t) && Turning(c, t, k, job.name, 0, next)
  {
    assert IsDebounced(c, job.name);
    k :| k != m && Spare(c, s, k, job.name);
    var t1, fs;
    es, t1 := Deny(c, s, m, k, job, d);
    var _ := StatusChains(c, job, next);
    fs, t := Retake(c, t1, k, job, StatusFor(job, next));
    Then(s, es, t1, fs, t);
    es := es + fs;
    forall name | IsDebounced(c, name)
      ensures exists n :: Spare(c, t, n, name)
    {
      if name == job.name {
        assert Spare(c, t, |t.frames| - 1, name);
      } else {
        var n :| n != m && Spare(c, s, n, name);
        assert Spare(c, t, n, name);
      }
    }
  }

  /** One link further along the route. */
  lemma Advance(c: Config, s: State, i: nat, name: string, d: nat, next: string, after: string)
    returns (es: seq<Event>, t: State, j: nat)
    requires Valid(c) && Turning(c, s, i, name, d, next) && d < MAX_CHAIN_DEPTH && Diagram.Linked(c, next, after)
    ensures Leads(s, es, t) && es != [] && Turning(c, t, j, next, DepthAt(c, next, d + 1), after)
  {
    hide Leads;
    var t1, fs, child;
    es, t1, child := ToNext(c, s, i, Lookup(c, name).value, d, next);
    SparesStay(c, s, t1, i);
    j := |t1.frames| - 1;
    if IsDebounced(c, next) {
      forall n | IsDebounced(c, n)
        ensures exists k :: k != j && Spare(c, t1, k, n)
      {
        var k :| Spare(c, s, k, n);
        assert k != j && Spare(c, t1, k, n);
      }
      var m := j;
      fs, t, j := Restart(c, t1, m, child, d + 1, after);
    } else {
      var _ := StatusChains(c, child, after);
      fs, t := RunToChain(c, t1, j, child, d + 1, StatusFor(child, after));
      forall n | IsDebounced(c, n)
        ensures exists k :: Spare(c, t, k, n)
      {
        var k :| Spare(c, s, k, n);
        assert Spare(c, t1, k, n) && Spare(c, t, k, n);
      }
    }
    Then(s, es, t1, fs, t);
    es := es + fs;
  }

  /** The name after the first one. */
  function Second(path: seq<string>, after: string): string {
    if |path| > 1 then path[1] else after
  }

  lemma {:induction false} Travel(c: Config, s: State, i: nat, d: nat, path: seq<string>, after: string)
    returns (es: seq<Event>, t: State, j: nat, e: nat)
    requires Valid(c) && Route(c, d, path) && Diagram.Linked(c, path[|path| - 1], after)
    requires Turning(c, s, i, path[0], d, Second(path, after))
    ensures Leads(s, es, t) && |es| >= |path| - 1 && Turning(c, t, j, path[|path| - 1], e, after)
    ensures if |path| == 1 then e == d else IsDebounced(c, path[|path| - 1]) ==> e == 0
    decreases |path|
  {
    hide Leads, Turning;
    if |path| == 1 {
      Nowhere(s);
      es, t, j, e := [], s, i, d;
    } else {
      var rest := path[1..];
      var t1, fs;
      assert Diagram.Linked(c, rest[0], Second(rest, after));
      es, t1, j := Advance(c, s, i, path[0], d, path[1], Second(rest, after));
      fs, t, j, e := Travel(c, t1, j, DepthAt(c, path[1], d + 1), rest, after);
      Then(s, es, t1, fs, t);
      es := es + fs;
    }
  }

  /** Once around a loop ends where it began. */
  lemma {:induction false} Laps(c: Config, s: State, i: nat, path: seq<string>, n: nat)
    returns (es: seq<Event>, t: State)
    requires Valid(c) && |path| > 1 && Route(c, 0, path) && path[0] == path[|path| - 1] && IsDebounced(c, path[0])
    requires Turning(c, s, i, path[0], 0, path[1])
    ensures Leads(s, es, t) && |es| >= n
    decreases n
  {
    hide Leads, Turning;
    if n == 0 {
      Nowhere(s);
      es, t := [], s;
    } else {
      var u, j, e, rest;
      assert Diagram.Linked(c, path[0], path[1]);
      es, u, j, e := Travel(c, s, i, 0, path, path[1]);
      rest, t := Laps(c, u, j, path, n - 1);
      Then(s, es, u, rest, t);
      es := es + rest;
    }
  }

  // Getting into the loop: the outside calls every job once, and the looping job once more.

  /** k calls from outside, of the first k jobs of the list. */
  function Calls(jobs: seq<Job>, now: int): seq<Event> {
    if jobs == [] then [] else Calls(jobs[..|jobs| - 1], now) + [Event(CallRun(jobs[|jobs| - 1]), now)]
  }

  lemma {:induction false} CallsStart(c: Config, jobs: seq<Job>, now: int)
    requires forall job :: job in jobs ==> Known(c, job)
    ensures var es, s := Calls(jobs, now), Init(c, {}, now);
      && Legal(s, es) && RespectsRun(c, es)
      && AtEase(c, Exec(s, es)) && Exec(s, es).now == now && |Exec(s, es).frames| == |jobs|
      && forall k :: 0 <= k < |jobs| ==> Exec(s, es).frames[k] == NewCall(jobs[k], 0, 0, External)
  {
    if jobs != [] {
      var init, last := jobs[..|jobs| - 1], jobs[|jobs| - 1];
      var s := Init(c, {}, now);
      CallsStart(c, init, now);
      var e := Event(CallRun(last), now);
      var t := Exec(s, Calls(init, now));
      assert [e][1..] == [];
      assert Exec(t, [e]) == Exec(Apply(t, e), []);
      assert Legal(t, [e]);
      ExecConcat(s, Calls(init, now), [e]);
      assert t.(now := now) == t;
    }
  }

  function AllCalls(c: Config, name: string): seq<Job>
    requires Lookup(c, name).Some?
  {
    c.jobs + [Lookup(c, name).value]
  }

  lemma EnterLoop(c: Config, s: State, name: string, next: string) returns (es: seq<Event>, t: State)
    requires Valid(c) && IsDebounced(c, name) && Diagram.Linked(c, name, next)
    requires AtEase(c, s) && |s.frames| == |c.jobs| + 1
    requires forall k :: 0 <= k < |c.jobs| ==> About(s.frames[k], c.jobs[k], 0)
    requires About(s.frames[|c.jobs|], Lookup(c, name).value, 0)
    ensures Leads(s, es, t) && Turning(c, t, |c.jobs|, name, 0, next)
  {
    hide Leads;
    var job := Lookup(c, name).value;
    var _ := StatusChains(c, job, next);
    es, t := RunToChain(c, s, |c.jobs|, job, 0, StatusFor(job, next));
    forall n | IsDebounced(c, n)
      ensures exists k :: Spare(c, t, k, n)
    {
      var k :| 0 <= k < |c.jobs| && c.jobs[k] == Lookup(c, n).value;
      assert Spare(c, t, k, n);
    }
  }

  /** The runner takes at most `bound` steps by itself from here, whatever the schedule. */
  ghost predicate StopsWithin(s: State, bound: nat) {
    forall es :: Legal(s, es) && AllInternal(es) ==> |es| <= bound
  }

  /** Whatever the outside has called for, or switched on or off, the runner then comes to rest. */
  ghost predicate AlwaysRests(c: Config, now: int) {
    forall disabled, es :: Legal(Init(c, disabled, now), es) && RespectsRun(c, es) ==>
      exists bound: nat :: StopsWithin(Exec(Init(c, disabled, now), es), bound)
  }

  lemma LoopNeverRests(c: Config, now: int, name: string)
    requires Valid(c) && Reaches(c, name, 0, name)
    ensures !AlwaysRests(c, now)
  {
    var path :| RouteTo(c, 0, path, name, name);
    var jobs := AllCalls(c, name);
    forall job | job in jobs
      ensures Known(c, job)
    {
      LookupIsMembership(c, job);
    }
    CallsStart(c, jobs, now);
    var s := Exec(Init(c, {}, now), Calls(jobs, now));
    forall bound: nat
      ensures !StopsWithin(s, bound)
    {
      var es, t := EnterLoop(c, s, name, path[1]);
      var fs, u := Laps(c, t, |c.jobs|, path, bound + 1);
      Then(s, es, t, fs, u);
      assert Legal(s, es + fs) && |es + fs| > bound;
    }
  }

  /**
   When the runner comes to rest: exactly when no debounced job can chain back to itself, where
   each link but those out of a debounced job counts towards the depth limit.
   */
  lemma RestsIff(c: Config, now: int)
    requires Valid(c)
    ensures AlwaysRests(c, now) <==> NoLoops(c)
  {
    if NoLoops(c) {
      forall disabled, es | Legal(Init(c, disabled, now), es) && RespectsRun(c, es)
        ensures exists bound: nat :: StopsWithin(Exec(Init(c, disabled, now), es), bound)
      {
        var s := Exec(Init(c, disabled, now), es);
        forall rest | Legal(s, rest) && AllInternal(rest)
          ensures |rest| <= Weight(c, s)
        {
          EveryScheduleEnds(c, disabled, now, es, rest);
        }
        assert StopsWithin(s, Weight(c, s));
      }
    } else {
      var name :| Reaches(c, name, 0, name);
      LoopNeverRests(c, now, name);
    }
  }
}
