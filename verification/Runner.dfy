/**
 runner.go: the Runner object. Each method is one block that holds Runner.mu, with the tests
 before it, or one atomic access.
 */
module RunnerObject {
  import opened Prelude
  import opened JobConfig
  import opened RunnerState

  class Runner {
    var config: Config
    var draining: bool
    var running: set<string>
    var groupBusy: set<string>
    var cancels: map<string, nat>
    var disabled: set<string>
    var pending: map<string, nat>
    var timers: map<string, nat>
    var firstAt: map<string, int>
    var firesAt: map<string, int>
    var wheel: seq<Timer> // the runtime's timers, in order of creation

    ghost function Locked(): Shared
      reads this
    {
      Shared(running, groupBusy, cancels, disabled, pending, timers, firstAt, firesAt, wheel)
    }

    constructor (config: Config, disabled: set<string>)
      ensures this.config == config && !draining
      ensures Locked() == Shared({}, {}, map[], disabled, map[], map[], map[], map[], [])
    {
      this.config, draining := config, false;
      running, groupBusy, cancels, this.disabled := {}, {}, map[], disabled;
      pending, timers, firstAt, firesAt, wheel := map[], map[], map[], map[], [];
    }

    /** t.Stop() on the job's timer, if it has one, and time.AfterFunc for the new one. */
    method ArmTimer(name: string, due: int)
      modifies this`firesAt, this`timers, this`wheel
      ensures Locked() == Arm(old(Locked()), name, due)
    {
      if name in timers {
        wheel := Stop(wheel, timers[name]);
      }
      firesAt := firesAt[name := due];
      timers := timers[name := |wheel|];
      wheel := wheel + [Timer(name, due, Armed)];
    }

    /** RunStarted: the caller goes on to run the job at once. */
    method Trigger(job: Job, now: int) returns (r: TriggerResult)
      modifies this`pending, this`firstAt, this`firesAt, this`timers, this`wheel
      ensures (Locked(), r) ==
        if job.name in disabled then (old(Locked()), JobDisabled)
        else if draining then (old(Locked()), Paused)
        else if DebounceDur(job) <= 0 then (old(Locked()), RunStarted)
        else TriggerLocked(old(Locked()), job, now)
    {
      var name := job.name;
      if name in disabled {
        return JobDisabled;
      }
      if draining {
        return Paused;
      }
      if DebounceDur(job) <= 0 {
        return RunStarted;
      }
      pending := pending[name := (if name in pending then pending[name] else 0) + 1];
      if name in running {
        return Coalesced;
      }
      if name !in firstAt {
        firstAt := firstAt[name := now];
      }
      var delay := DebounceDur(job);
      var max := DebounceMaxDur(job);
      if max > 0 {
        var rem := firstAt[name] + max - now;
        if rem < delay {
          delay := rem;
        }
      }
      if delay < 0 {
        delay := 0;
      }
      ghost var first := FirstOf(old(Locked()), name, now);
      assert firstAt == old(firstAt)[name := first];
      assert delay == Delay(job, first, now);
      hide FirstOf, Delay, Arm;
      ArmTimer(name, now + delay);
      r := Debounced(now + delay);
    }

    method FireBatch(name: string) returns (n: nat)
      modifies this`timers, this`firstAt, this`firesAt, this`pending
      ensures (Locked(), n) == FireLocked(old(Locked()), name, draining)
    {
      timers, firstAt, firesAt := timers - {name}, firstAt - {name}, firesAt - {name};
      if name in running || draining {
        return 0;
      }
      n := if name in pending then pending[name] else 0;
      pending := pending[name := 0];
    }

    /** The count the run it starts absorbs, or none and no run. */
    method ForceRun(job: Job) returns (absorbed: Option<nat>)
      modifies this`timers, this`firstAt, this`firesAt, this`pending, this`wheel
      ensures draining ==> absorbed.None? && Locked() == old(Locked())
      ensures !draining ==> absorbed.Some? && (Locked(), absorbed.value) == ForceLocked(old(Locked()), job.name)
    {
      if draining {
        return None;
      }
      absorbed := Some(if job.name in pending then pending[job.name] else 0);
      pending := pending - {job.name};
      if job.name in timers {
        wheel := Stop(wheel, timers[job.name]);
        timers := timers - {job.name};
      }
      firstAt, firesAt := firstAt - {job.name}, firesAt - {job.name};
      assert timers == old(timers) - {job.name};
    }

    /** The loop over the configuration that collects the candidates, then the scan over them. */
    method DrainAfter(finished: Job) returns (batch: Option<(string, nat)>)
      modifies this`pending
      ensures (Locked(), batch) ==
        if draining then (old(Locked()), None) else DrainLocked(old(Locked()), config, finished)
    {
      if draining {
        return None;
      }
      var candidates := [finished.name];
      if finished.group != "" {
        for i := 0 to |config.jobs|
          invariant candidates == [finished.name] + GroupMates(config.jobs[..i], finished)
        {
          var j := config.jobs[i];
          assert config.jobs[..i + 1][..i] == config.jobs[..i];
          if j.group == finished.group && j.name != finished.name {
            candidates := candidates + [j.name];
          }
        }
        assert config.jobs[..|config.jobs|] == config.jobs;
      }
      assert candidates == Candidates(config, finished);
      ghost var was := Locked();
      for i := 0 to |candidates|
        invariant Locked() == was
        invariant FirstWaiting(was, candidates) == FirstWaiting(was, candidates[i..])
      {
        var name := candidates[i];
        assert candidates[i..][0] == name && candidates[i..][1..] == candidates[i + 1..];
        var n := if name in pending then pending[name] else 0;
        if n == 0 || name in running {
          continue;
        }
        if finished.group != "" && finished.group in groupBusy {
          return None;
        }
        pending := pending[name := 0];
        return Some((name, n));
      }
      batch := None;
    }

    method Acquire(job: Job) returns (denied: Option<Denial>)
      modifies this`running, this`groupBusy
      ensures denied == AcquireDenial(old(Locked()), job)
      ensures Locked() == if denied.None? then AcquireLocked(old(Locked()), job) else old(Locked())
    {
      if job.name in running {
        return Some(Busy);
      }
      if job.group != "" && job.group in groupBusy {
        return Some(GroupBusy);
      }
      running := running + {job.name};
      if job.group != "" {
        groupBusy := groupBusy + {job.group};
      }
      denied := None;
    }

    method Release(job: Job)
      modifies this`running, this`groupBusy
      ensures Locked() == ReleaseLocked(old(Locked()), job)
    {
      running := running - {job.name};
      if job.group != "" {
        groupBusy := groupBusy - {job.group};
      }
    }

    method Requeue(job: Job)
      modifies this`pending
      ensures Locked() == RequeueLocked(old(Locked()), job.name)
    {
      pending := pending[job.name := (if job.name in pending then pending[job.name] else 0) + 1];
    }

    method SetCancel(name: string, call: nat)
      modifies this`cancels
      ensures Locked() == old(Locked()).(cancels := old(cancels)[name := call])
    {
      cancels := cancels[name := call];
    }

    method ClearCancel(name: string)
      modifies this`cancels
      ensures Locked() == old(Locked()).(cancels := old(cancels) - {name})
    {
      cancels := cancels - {name};
    }

    /** What Cancel reads; it signals that call after dropping the lock. */
    method Cancel(name: string) returns (call: Option<nat>)
      ensures call.Some? <==> name in cancels
      ensures call.Some? ==> call.value == cancels[name]
    {
      call := if name in cancels then Some(cancels[name]) else None;
    }

    method SetDraining(on: bool)
      modifies this`draining
      ensures draining == on
    {
      draining := on;
    }

    method SetDisabled(name: string, off: bool)
      modifies this`disabled
      ensures Locked() == old(Locked()).(disabled := if off then old(disabled) + {name} else old(disabled) - {name})
    {
      if off {
        disabled := disabled + {name};
      } else {
        disabled := disabled - {name};
      }
    }
  }
}
