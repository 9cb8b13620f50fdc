/**
 runner.go reads the timeout's flag and then the context, and the timer may expire in between: a
 run whose command ended by itself is then recorded as canceled although nobody canceled it.
 */
module TimeoutRace {
  import opened Prelude
  import opened JobConfig
  import opened Protocol
  import opened FixedConfig
  import opened Cancellation
  import opened Stranding
  import opened Schedules
  import opened ChainSchedules
  import opened LateRequeue

  /** Call i of the job has returned canceled, nobody has called Cancel, and no chain was started. */
  ghost predicate CanceledUnasked(s: State, i: nat, job: Job) {
    && i < |s.frames| && EndedCanceled(s.frames[i]) && s.frames[i].job == job && s.frames[i].pc.Returned?
    && forall k :: 0 <= k < |s.frames| ==> !s.frames[k].CancelCall? && !s.frames[k].ChainLoop?
  }

  /** A calm run at whose end a run of the job has been canceled unasked. */
  ghost predicate CancelsUnasked(c: Config, job: Job, now: int, es: seq<Event>) {
    && Legal(Init(c, {}, now), es) && CalmRun(c, es)
    && exists i :: CanceledUnasked(Exec(Init(c, {}, now), es), i, job)
  }

  /** The one call there is runs the job and is at the given place. */
  predicate OneRunning(t: State, c: Config, job: Job, now: int, pc: Pc) {
    && t.now == now && t.config == c && !t.draining && t.signalled == {} && t.sh.pending == map[]
    && |t.frames| == 1 && t.frames[0].RunCall? && t.frames[0].job == job && t.frames[0].pc == pc
    && t.frames[0].times.start == Some(now)
  }

  lemma UpToTheCommand(c: Config, job: Job, now: int) returns (es: seq<Event>, t: State)
    requires Known(c, job)
    ensures Comes(c, Init(c, {}, now), es, t) && OneRunning(t, c, job, now, Command)
  {
    hide Comes, Leads;
    var s := Init(c, {}, now);
    ComesNowhere(c, s);
    var t0, fs;
    es, t0 := ThenOutside(c, s, [], s, Event(CallRun(job), now));
    Nowhere(t0);
    fs, t := Go1(t0, [], t0, 0, FINE);
    fs, t := Go1(t0, fs, t, 0, FINE);
    fs, t := Go1(t0, fs, t, 0, FINE);
    fs, t := Go1(t0, fs, t, 0, FINE);
    fs, t := Go1(t0, fs, t, 0, FINE);
    ThenInside(c, s, es, t0, fs, t);
    es := es + fs;
  }

  /** The command ends at once, and the flag is still down. */
  lemma UpToTheContext(c: Config, job: Job, now: int) returns (es: seq<Event>, t: State)
    requires Known(c, job)
    ensures Comes(c, Init(c, {}, now), es, t) && OneRunning(t, c, job, now, ReadContext)
  {
    hide Comes, Leads;
    var t0, fs;
    es, t0 := UpToTheCommand(c, job, now);
    Nowhere(t0);
    fs, t := Go1(t0, [], t0, 0, FINE);
    fs, t := Go1(t0, fs, t, 0, FINE);
    ThenInside(c, Init(c, {}, now), es, t0, fs, t);
    es := es + fs;
  }

  predicate OneCanceled(u: State, job: Job, pc: Pc) {
    |u.frames| == 1 && EndedCanceled(u.frames[0]) && u.frames[0].job == job && u.frames[0].pc == pc && !u.draining
  }

  /** The call gets to its drain. */
  lemma CanceledReleases(t: State, job: Job) returns (es: seq<Event>, u: State)
    requires OneCanceled(t, job, ClearCancel) && t.sh.pending == map[]
    ensures Leads(t, es, u) && OneCanceled(u, job, DrainLock) && u.sh.pending == map[]
  {
    hide Leads;
    Nowhere(t);
    es, u := Go1(t, [], t, 0, FINE);
    es, u := Go1(t, es, u, 0, FINE);
    es, u := Go1(t, es, u, 0, FINE);
  }

  /** And returns, starting no chain. */
  lemma CanceledReturns(t: State, job: Job) returns (es: seq<Event>, u: State)
    requires OneCanceled(t, job, ClearCancel) && t.sh.pending == map[]
    ensures Leads(t, es, u) && CanceledUnasked(u, 0, job)
  {
    hide Leads;
    var t1;
    es, t1 := CanceledReleases(t, job);
    NothingWaits(t1.sh, t1.config, job);
    es, u := Go1(t, es, t1, 0, FINE);
    es, u := Go1(t, es, u, 0, FINE);
  }

  lemma TimeoutCanCancel(c: Config, job: Job, now: int)
    requires Known(c, job) && DurationOrZero(job.timeout) > 0
    ensures exists es :: CancelsUnasked(c, job, now, es)
  {
    var es, t := UpToTheContext(c, job, now);
    var e := Event(Go(0, Choice(true, true, true)), now + DurationOrZero(job.timeout));
    var fs, u := ThenOutside(c, Init(c, {}, now), es, t, e);
    var gs, v := CanceledReturns(u, job);
    ThenInside(c, Init(c, {}, now), fs, u, gs, v);
    assert CanceledUnasked(v, 0, job);
    assert CancelsUnasked(c, job, now, fs + gs);
  }

  /** It can happen to a job exactly when the job has a timeout. */
  lemma CancelsUnaskedIff(c: Config, job: Job, now: int)
    requires Known(c, job)
    ensures (exists es :: CancelsUnasked(c, job, now, es)) <==> job.timeout.Parsed? && job.timeout.nanos > 0
  {
    if DurationOrZero(job.timeout) > 0 {
      TimeoutCanCancel(c, job, now);
    }
    forall es | CancelsUnasked(c, job, now, es)
      ensures DurationOrZero(job.timeout) > 0
    {
      CancelTargetsOneRun(c, {}, now, es);
      var s := Exec(Init(c, {}, now), es);
      var i :| CanceledUnasked(s, i, job);
      assert !SignalledBy(s, i);
    }
  }
}
