/**
 runner.go: the maps behind Runner.mu, together with the timers handed to the Go
 runtime, and the effect of every block that runs with the lock held.
 */
module RunnerState {
  import opened Prelude
  import opened JobConfig

  /** A time.AfterFunc timer: armed, expired with its callback yet to take the lock, or over. */
  datatype TimerStatus = Armed | Fired | Over

  datatype Timer = Timer(name: string, due: int, status: TimerStatus)

  /**
   A Go map whose only stored value is `true` is a set here. `cancels` and `timers`
   hold identities: the call a context belongs to and the position in `wheel`.
   */
  datatype Shared = Shared(
    running: set<string>,
    groupBusy: set<string>,
    cancels: map<string, nat>,
    disabled: set<string>,
    pending: map<string, nat>,
    timers: map<string, nat>,
    firstAt: map<string, int>,
    firesAt: map<string, int>,
    wheel: seq<Timer>)

  /** What Trigger says it did. */
  datatype TriggerResult = JobDisabled | Paused | RunStarted | Coalesced | Debounced(firesAt: int)

  datatype Denial = Busy | GroupBusy

  function Pending(sh: Shared, name: string): nat {
    if name in sh.pending then sh.pending[name] else 0
  }

  /** Timer.Stop: wins only against a timer that has not expired. */
  function Stop(wheel: seq<Timer>, t: nat): (r: seq<Timer>)
    ensures |r| == |wheel|
    ensures forall k :: 0 <= k < |r| && r[k] != wheel[k] ==>
      k == t && wheel[k].status == Armed && r[k] == wheel[k].(status := Over)
    ensures t < |r| ==> r[t].status != Armed
  {
    if t < |wheel| && wheel[t].status == Armed then wheel[t := wheel[t].(status := Over)] else wheel
  }

  function StopMapped(sh: Shared, name: string): (r: seq<Timer>)
    ensures |r| == |sh.wheel|
  {
    if name in sh.timers then Stop(sh.wheel, sh.timers[name]) else sh.wheel
  }

  function FirstOf(sh: Shared, name: string, now: int): int {
    if name in sh.firstAt then sh.firstAt[name] else now
  }

  /** How long the debounce timer waits when a trigger of a batch begun at `first` arrives at `now`. */
  function Delay(job: Job, first: int, now: int): int {
    var left := first + DebounceMaxDur(job) - now;
    var d := if DebounceMaxDur(job) > 0 && left < DebounceDur(job) then left else DebounceDur(job);
    Max(d, 0)
  }

  /** Whatever timer the job has is stopped, and one for `due` takes its place. */
  function Arm(sh: Shared, name: string, due: int): Shared {
    sh.(firesAt := sh.firesAt[name := due],
        timers := sh.timers[name := |sh.wheel|],
        wheel := StopMapped(sh, name) + [Timer(name, due, Armed)])
  }

  /** Trigger, from taking the lock to its return. */
  function TriggerLocked(sh: Shared, job: Job, now: int): (Shared, TriggerResult) {
    var counted := sh.(pending := sh.pending[job.name := Pending(sh, job.name) + 1]);
    if job.name in sh.running then (counted, Coalesced)
    else
      var first := FirstOf(sh, job.name, now);
      var due := now + Delay(job, first, now);
      (Arm(counted.(firstAt := sh.firstAt[job.name := first]), job.name, due), Debounced(due))
  }

  function Forget(sh: Shared, name: string): Shared {
    sh.(timers := sh.timers - {name}, firstAt := sh.firstAt - {name}, firesAt := sh.firesAt - {name})
  }

  /** fireBatch under the lock: what is left and how many triggers were taken. */
  function FireLocked(sh: Shared, name: string, draining: bool): (Shared, nat) {
    var cleared := Forget(sh, name);
    if name in sh.running || draining then (cleared, 0)
    else (cleared.(pending := sh.pending[name := 0]), Pending(sh, name))
  }

  /** ForceRun under the lock. */
  function ForceLocked(sh: Shared, name: string): (Shared, nat) {
    (Forget(sh, name).(pending := sh.pending - {name}, wheel := StopMapped(sh, name)), Pending(sh, name))
  }

  function GroupMates(jobs: seq<Job>, finished: Job): seq<string> {
    if jobs == [] then []
    else
      var rest := GroupMates(jobs[..|jobs| - 1], finished);
      var j := jobs[|jobs| - 1];
      if j.group == finished.group && j.name != finished.name then rest + [j.name] else rest
  }

  /** The jobs drainAfter looks at, in its order. */
  function Candidates(c: Config, finished: Job): seq<string> {
    [finished.name] + if finished.group != "" then GroupMates(c.jobs, finished) else []
  }

  predicate Waits(sh: Shared, name: string) {
    Pending(sh, name) > 0 && name !in sh.running
  }

  function FirstWaiting(sh: Shared, names: seq<string>): Option<string> {
    if names == [] then None
    else if Waits(sh, names[0]) then Some(names[0])
    else FirstWaiting(sh, names[1..])
  }

  function DrainPick(sh: Shared, c: Config, finished: Job): Option<string> {
    if finished.group != "" && finished.group in sh.groupBusy then None
    else FirstWaiting(sh, Candidates(c, finished))
  }

  /** drainAfter under the lock: the batch it takes, if any. */
  function DrainLocked(sh: Shared, c: Config, finished: Job): (Shared, Option<(string, nat)>) {
    match DrainPick(sh, c, finished)
    case None => (sh, None)
    case Some(name) => (sh.(pending := sh.pending[name := 0]), Some((name, Pending(sh, name))))
  }

  function AcquireDenial(sh: Shared, job: Job): Option<Denial> {
    if job.name in sh.running then Some(Busy)
    else if job.group != "" && job.group in sh.groupBusy then Some(GroupBusy)
    else None
  }

  function GroupSet(job: Job): set<string> {
    if job.group != "" then {job.group} else {}
  }

  function AcquireLocked(sh: Shared, job: Job): Shared {
    sh.(running := sh.running + {job.name}, groupBusy := sh.groupBusy + GroupSet(job))
  }

  function ReleaseLocked(sh: Shared, job: Job): Shared {
    sh.(running := sh.running - {job.name}, groupBusy := sh.groupBusy - GroupSet(job))
  }

  /** run, after a denial of a debounced job. */
  function RequeueLocked(sh: Shared, name: string): Shared {
    sh.(pending := sh.pending[name := Pending(sh, name) + 1])
  }

  /** GroupMates is exactly the other members of the group. */
  lemma {:induction false} GroupMatesAre(jobs: seq<Job>, finished: Job, name: string)
    ensures name in GroupMates(jobs, finished)
      <==> exists j :: j in jobs && j.name == name && j.group == finished.group && name != finished.name
  {
    if jobs != [] {
      var init, last := jobs[..|jobs| - 1], jobs[|jobs| - 1];
      assert jobs == init + [last];
      GroupMatesAre(init, finished, name);
    }
  }

  /**
   The scan's answer without its order: it is none exactly when nothing in the list waits,
   and otherwise a waiting name with none waiting before it.
   */
  lemma {:induction false} FirstWaitingIs(sh: Shared, names: seq<string>)
    ensures FirstWaiting(sh, names).None? <==> forall n :: n in names ==> !Waits(sh, n)
    ensures FirstWaiting(sh, names).Some? ==>
      exists k :: 0 <= k < |names| && names[k] == FirstWaiting(sh, names).value
                  && Waits(sh, names[k]) && forall m :: 0 <= m < k ==> !Waits(sh, names[m])
  {
    if names != [] {
      FirstWaitingIs(sh, names[1..]);
      assert names == [names[0]] + names[1..];
      if !Waits(sh, names[0]) && FirstWaiting(sh, names).Some? {
        var k :| 0 <= k < |names[1..]| && names[1..][k] == FirstWaiting(sh, names).value
          && Waits(sh, names[1..][k]) && forall m :: 0 <= m < k ==> !Waits(sh, names[1..][m]);
        assert names[k + 1] == names[1..][k];
        forall m | 0 <= m < k + 1
          ensures !Waits(sh, names[m])
        {
          if m > 0 {
            assert names[m] == names[1..][m - 1];
          }
        }
      }
    }
  }
}
