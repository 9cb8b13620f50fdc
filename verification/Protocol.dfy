/**
 runner.go as a step machine: every goroutine is a frame with a program counter, and each
 locked block, each access to an atomic and each decision of `execute` is one step. Frames
 stay in the list after they return, so the list is also the history of all calls. The timer of
 a job's timeout has no frame: how far its callback has got is chosen anew at each read of it.
 */
module Protocol {
  import opened Prelude
  import opened JobConfig
  import opened RunnerState

  const MAX_CHAIN_DEPTH: nat := 16

  datatype Status = Success | Failed | Timeout | Canceled

  /** What `execute` came back with. */
  datatype Outcome = Unknown | Errored | Finished(status: Status)

  /** Who called run: the outside, the taker of a pending batch, or a chain loop for its index-th name. */
  datatype Origin = External | Batch(batch: nat) | Chained(loop: nat, index: nat)

  datatype Pc =
    | CheckDisabled | CheckDrain | Acquire | Requeue
    | WriteMeta | SetCancel | Command | ReadTimedOut | ReadContext | ClearCancel | Release
    | DrainLoad | DrainLock | DrainLookup(name: string, n: nat, batch: nat)
    | Chain | Returned

  /** An instant, and the number of steps taken before it. */
  datatype Moment = Moment(at: int, step: nat)

  /** When the call acquired, when its record says it started and ended, when it released. */
  datatype Times = Times(acquired: Option<Moment>, start: Option<int>, end: Option<int>, released: Option<Moment>)

  const NO_TIMES := Times(None, None, None, None)

  datatype TriggerPc = TriggerDisabled | TriggerDrain | TriggerLock | TriggerDone(result: TriggerResult)

  datatype ForcePc = ForceDrain | ForceLock | ForceDone

  datatype CancelPc = CancelRead | CancelSignal(target: nat, read: nat) | CancelDone(signalled: Option<(nat, nat)>)

  /**
   The goroutines: inside run, running chain's loop, inside Trigger, ForceRun or Cancel, and the
   callback of a timer between dropping the lock and calling run.
   */
  datatype Frame =
    | RunCall(job: Job, depth: nat, coalesced: nat, origin: Origin, pc: Pc, outcome: Outcome, times: Times)
    | ChainLoop(owner: nat, ownerDepth: nat, names: seq<string>, config: Config, next: nat, child: Option<nat>)
    | TriggerCall(job: Job, triggerPc: TriggerPc)
    | ForceCall(job: Job, forcePc: ForcePc)
    | CancelCall(name: string, cancelPc: CancelPc)
    | FireCall(name: string, n: nat, batch: nat, done: bool)

  /** A pending count somebody took; only a forced run takes one of 0. */
  datatype Taken = Taken(name: string, n: nat)

  /** What became of it: still in a goroutine's hands, given to a run call, or lost with its job. */
  datatype Fate = InLookup(frame: nat) | Given(call: nat) | Dropped

  /** What happened so far; no step reads it. `armedAt` is the instant of a job's last arming trigger. */
  datatype History = History(
    accepted: map<string, nat>,
    acceptedAt: map<string, nat>,
    armedAt: map<string, int>,
    requeued: map<string, nat>,
    batches: seq<Taken>,
    fates: seq<Fate>)

  datatype State = State(
    sh: Shared,
    draining: bool,
    config: Config,
    frames: seq<Frame>,
    signalled: set<nat>,
    history: History,
    now: int,
    step: nat)

  /**
   The choices left to the world: does writing the record succeed, does the command, and has the
   callback of the timeout's timer already done what is being read: set the flag, or then canceled.
   */
  datatype Choice = Choice(written: bool, succeeds: bool, limitHit: bool)

  datatype Action =
    | CallRun(job: Job) | CallTrigger(job: Job) | CallForce(job: Job) | CallCancel(name: string)
    | SetDraining(on: bool) | SetDisabled(name: string, off: bool) | Reload(config: Config)
    | Expire(timer: nat) | Fire(timer: nat)
    | Go(frame: nat, choice: Choice)

  datatype Event = Event(action: Action, at: int)

  const NO_HISTORY := History(map[], map[], map[], map[], [], [])

  const IDLE := Shared({}, {}, map[], {}, map[], map[], map[], map[], [])

  function Init(c: Config, disabled: set<string>, now: int): State {
    State(IDLE.(disabled := disabled), false, c, [], {}, NO_HISTORY, now, 0)
  }

  function Count(m: map<string, nat>, name: string): nat {
    if name in m then m[name] else 0
  }

  function NewCall(job: Job, depth: nat, coalesced: nat, origin: Origin): Frame {
    RunCall(job, depth, coalesced, origin, CheckDisabled, Unknown, NO_TIMES)
  }

  /** The names chain() fires for a status. */
  function ChainTargets(job: Job, outcome: Outcome): seq<string> {
    match outcome
    case Finished(Success) => job.onSuccess
    case Finished(Failed) => job.onFailure
    case Finished(Timeout) => job.onFailure
    case _ => []
  }

  /** Inside execute. */
  predicate InExecute(pc: Pc) {
    pc.WriteMeta? || pc.SetCancel? || pc.Command? || pc.ReadTimedOut? || pc.ReadContext? || pc.ClearCancel?
  }

  /** Past the successful acquire and before the release. */
  predicate Holds(f: Frame) {
    f.RunCall? && (InExecute(f.pc) || f.pc.Release?)
  }

  /** What one step of a goroutine does: the shared maps, its own frame, a goroutine or call it starts. */
  datatype Effect = Effect(sh: Shared, own: Frame, spawned: Option<Frame>, signalled: set<nat>, history: History)

  /** Nothing but the frame changes. */
  function Local(s: State, own: Frame): Effect {
    Effect(s.sh, own, None, s.signalled, s.history)
  }

  /** After drainAfter, run returns the error or goes on to chain. */
  function AfterDrain(f: Frame): Frame
    requires f.RunCall?
  {
    f.(pc := if f.outcome.Finished? then Chain else Returned)
  }

  function Settle(h: History, b: nat, fate: Fate): History {
    if b < |h.fates| then h.(fates := h.fates[b := fate]) else h
  }

  /** The lookup after the unlock: start the batch's run, or lose it because the job is gone. */
  function GiveOrDrop(s: State, own: Frame, name: string, n: nat, b: nat): Effect {
    match Lookup(s.config, name)
    case Some(job) =>
      Local(s, own).(spawned := Some(NewCall(job, 0, n, Batch(b))),
                     history := Settle(s.history, b, Given(|s.frames|)))
    case None => Local(s, own).(history := Settle(s.history, b, Dropped))
  }

  function Take(h: History, name: string, n: nat, fate: Fate): History {
    h.(batches := h.batches + [Taken(name, n)], fates := h.fates + [fate])
  }

  function StepAcquire(s: State, f: Frame): Effect
    requires f.RunCall?
  {
    if AcquireDenial(s.sh, f.job).Some? then
      Local(s, f.(pc := if DebounceDur(f.job) > 0 then Requeue else Returned))
    else
      Local(s, f.(pc := WriteMeta, times := f.times.(acquired := Some(Moment(s.now, s.step)))))
      .(sh := AcquireLocked(s.sh, f.job))
  }

  function StepRequeue(s: State, f: Frame): Effect
    requires f.RunCall?
  {
    Local(s, f.(pc := Returned))
    .(sh := RequeueLocked(s.sh, f.job.name),
      history := s.history.(requeued := s.history.requeued[f.job.name := Count(s.history.requeued, f.job.name) + 1]))
  }

  /** The status of a run whose timeout was not seen. */
  function StatusRead(canceled: bool, succeeds: bool): Status {
    if canceled then Canceled else if succeeds then Success else Failed
  }

  /** The steps of execute, from reading the clock to the deferred clearCancel. */
  function StepExecute(s: State, i: nat, f: Frame, c: Choice): Effect
    requires f.RunCall?
  {
    match f.pc
    case WriteMeta =>
      var g := f.(times := f.times.(start := Some(s.now)));
      Local(s, if c.written then g.(pc := SetCancel) else g.(pc := Release, outcome := Errored))
    case SetCancel =>
      Local(s, f.(pc := Command)).(sh := s.sh.(cancels := s.sh.cancels[f.job.name := i]))
    case Command =>
      Local(s, f.(pc := ReadTimedOut, times := f.times.(end := Some(s.now))))
    case ReadTimedOut =>
      Local(s, if c.limitHit then f.(pc := ClearCancel, outcome := Finished(Timeout)) else f.(pc := ReadContext))
    case ReadContext =>
      Local(s, f.(pc := ClearCancel, outcome := Finished(StatusRead(i in s.signalled || c.limitHit, c.succeeds))))
    case ClearCancel =>
      Local(s, f.(pc := Release)).(sh := s.sh.(cancels := s.sh.cancels - {f.job.name}))
    case _ => Local(s, f)
  }

  function StepRelease(s: State, f: Frame): Effect
    requires f.RunCall?
  {
    Local(s, f.(pc := DrainLoad, times := f.times.(released := Some(Moment(s.now, s.step)))))
    .(sh := ReleaseLocked(s.sh, f.job))
  }

  function StepDrain(s: State, i: nat, f: Frame): Effect
    requires f.RunCall?
  {
    match DrainLocked(s.sh, s.config, f.job)
    case (_, None) => Local(s, AfterDrain(f))
    case (sh, Some((name, n))) =>
      Local(s, f.(pc := DrainLookup(name, n, |s.history.batches|)))
      .(sh := sh, history := Take(s.history, name, n, InLookup(i)))
  }

  function StepChain(s: State, i: nat, f: Frame): Effect
    requires f.RunCall?
  {
    var names := ChainTargets(f.job, f.outcome);
    var done := Local(s, f.(pc := Returned));
    if names == [] || f.depth + 1 > MAX_CHAIN_DEPTH then done
    else done.(spawned := Some(ChainLoop(i, f.depth, names, s.config, 0, None)))
  }

  /** One step of a goroutine inside run. */
  function StepRun(s: State, i: nat, f: Frame, c: Choice): Effect
    requires f.RunCall?
  {
    match f.pc
    case CheckDisabled => Local(s, f.(pc := if f.job.name in s.sh.disabled then Returned else CheckDrain))
    case CheckDrain => Local(s, f.(pc := if s.draining then Returned else Acquire))
    case Acquire => StepAcquire(s, f)
    case Requeue => StepRequeue(s, f)
    case Release => StepRelease(s, f)
    case DrainLoad => Local(s, if s.draining then AfterDrain(f) else f.(pc := DrainLock))
    case DrainLock => StepDrain(s, i, f)
    case DrainLookup(name, n, b) => GiveOrDrop(s, AfterDrain(f), name, n, b)
    case Chain => StepChain(s, i, f)
    case _ => StepExecute(s, i, f, c)
  }

  /** One step of the goroutine chain() starts: call the next child, or see its call return. */
  function StepLoop(s: State, i: nat, f: Frame): Effect
    requires f.ChainLoop?
  {
    if f.child.Some? then Local(s, f.(child := None, next := f.next + 1))
    else if f.next < |f.names| then
      match Lookup(f.config, f.names[f.next])
      case None => Local(s, f.(next := f.next + 1))
      case Some(job) =>
        Local(s, f.(child := Some(|s.frames|)))
        .(spawned := Some(NewCall(job, f.ownerDepth + 1, 0, Chained(i, f.next))))
    else Local(s, f)
  }

  function StepTrigger(s: State, f: Frame): Effect
    requires f.TriggerCall?
  {
    match f.triggerPc
    case TriggerDisabled =>
      Local(s, f.(triggerPc := if f.job.name in s.sh.disabled then TriggerDone(JobDisabled) else TriggerDrain))
    case TriggerDrain =>
      if s.draining then Local(s, f.(triggerPc := TriggerDone(Paused)))
      else if DebounceDur(f.job) <= 0 then
        Local(s, f.(triggerPc := TriggerDone(RunStarted))).(spawned := Some(NewCall(f.job, 0, 0, External)))
      else Local(s, f.(triggerPc := TriggerLock))
    case TriggerLock =>
      var (sh, result) := TriggerLocked(s.sh, f.job, s.now);
      Local(s, f.(triggerPc := TriggerDone(result)))
      .(sh := sh,
        history := s.history.(
          accepted := s.history.accepted[f.job.name := Count(s.history.accepted, f.job.name) + 1],
          acceptedAt := s.history.acceptedAt[f.job.name := s.step],
          armedAt :=
            if f.job.name in s.sh.running then s.history.armedAt else s.history.armedAt[f.job.name := s.now]))
    case TriggerDone(_) => Local(s, f)
  }

  function StepForce(s: State, f: Frame): Effect
    requires f.ForceCall?
  {
    match f.forcePc
    case ForceDrain => Local(s, f.(forcePc := if s.draining then ForceDone else ForceLock))
    case ForceLock =>
      var (sh, n) := ForceLocked(s.sh, f.job.name);
      Effect(sh, f.(forcePc := ForceDone), Some(NewCall(f.job, 0, n, Batch(|s.history.batches|))),
             s.signalled, Take(s.history, f.job.name, n, Given(|s.frames|)))
    case ForceDone => Local(s, f)
  }

  function StepCancel(s: State, f: Frame): Effect
    requires f.CancelCall?
  {
    match f.cancelPc
    case CancelRead =>
      Local(s, f.(cancelPc :=
        if f.name in s.sh.cancels then CancelSignal(s.sh.cancels[f.name], s.step) else CancelDone(None)))
    case CancelSignal(t, read) =>
      Local(s, f.(cancelPc := CancelDone(Some((t, read))))).(signalled := s.signalled + {t})
    case CancelDone(_) => Local(s, f)
  }

  /** The job has a timeout, and its timer may have expired by now. */
  predicate LimitPassed(f: Frame, now: int)
    requires f.RunCall?
  {
    var limit := DurationOrZero(f.job.timeout);
    limit > 0 && f.times.start.Some? && f.times.start.value + limit <= now
  }

  /** Can frame i take a step, with this choice? */
  predicate Runnable(s: State, i: nat, c: Choice)
    requires i < |s.frames|
  {
    match s.frames[i]
    case RunCall(_, _, _, _, pc, _, _) => pc != Returned && (c.limitHit ==> LimitPassed(s.frames[i], s.now))
    case ChainLoop(_, _, names, _, next, child) =>
      (match child
       case Some(k) => k < |s.frames| && s.frames[k].RunCall? && s.frames[k].pc.Returned?
       case None => next < |names|)
    case TriggerCall(_, pc) => !pc.TriggerDone?
    case ForceCall(_, pc) => pc != ForceDone
    case CancelCall(_, pc) => !pc.CancelDone?
    case FireCall(_, _, _, done) => !done
  }

  function StepFrame(s: State, i: nat, f: Frame, c: Choice): Effect {
    match f
    case RunCall(_, _, _, _, _, _, _) => StepRun(s, i, f, c)
    case ChainLoop(_, _, _, _, _, _) => StepLoop(s, i, f)
    case TriggerCall(_, _) => StepTrigger(s, f)
    case ForceCall(_, _) => StepForce(s, f)
    case CancelCall(_, _) => StepCancel(s, f)
    case FireCall(name, n, b, _) => GiveOrDrop(s, f.(done := true), name, n, b)
  }

  function AsSeq(f: Option<Frame>): seq<Frame> {
    if f.Some? then [f.value] else []
  }

  function Commit(s: State, i: nat, e: Effect): State
    requires i < |s.frames|
  {
    s.(sh := e.sh, frames := s.frames[i := e.own] + AsSeq(e.spawned), signalled := e.signalled, history := e.history,
       step := s.step + 1)
  }

  /** A fired timer's callback takes the lock. */
  function FireShared(s: State, t: nat): (Shared, nat)
    requires t < |s.sh.wheel|
  {
    var (sh, n) := FireLocked(s.sh, s.sh.wheel[t].name, s.draining);
    (sh.(wheel := sh.wheel[t := sh.wheel[t].(status := Over)]), n)
  }

  function StepFire(s: State, t: nat): State
    requires t < |s.sh.wheel|
  {
    var name := s.sh.wheel[t].name;
    var (sh, n) := FireShared(s, t);
    if n == 0 then s.(sh := sh, step := s.step + 1)
    else
      s.(sh := sh, step := s.step + 1,
         frames := s.frames + [FireCall(name, n, |s.history.batches|, false)],
         history := Take(s.history, name, n, InLookup(|s.frames|)))
  }

  ghost predicate Enabled(s: State, a: Action) {
    match a
    case Reload(c) => Valid(c)
    case Expire(t) => t < |s.sh.wheel| && s.sh.wheel[t].status == Armed && s.sh.wheel[t].due <= s.now
    case Fire(t) => t < |s.sh.wheel| && s.sh.wheel[t].status == Fired
    case Go(i, c) => i < |s.frames| && Runnable(s, i, c)
    case _ => true
  }

  /** The frame an outside call starts. */
  function Called(a: Action): Option<Frame> {
    match a
    case CallRun(job) => Some(NewCall(job, 0, 0, External))
    case CallTrigger(job) => Some(TriggerCall(job, TriggerDisabled))
    case CallForce(job) => Some(ForceCall(job, ForceDrain))
    case CallCancel(name) => Some(CancelCall(name, CancelRead))
    case _ => None
  }

  function Perform(s: State, a: Action): State {
    match a
    case Go(i, c) => if i < |s.frames| then Commit(s, i, StepFrame(s, i, s.frames[i], c)) else s
    case Fire(t) => if t < |s.sh.wheel| then StepFire(s, t) else s
    case Expire(t) =>
      if t < |s.sh.wheel|
      then s.(sh := s.sh.(wheel := s.sh.wheel[t := s.sh.wheel[t].(status := Fired)]), step := s.step + 1)
      else s
    case SetDraining(on) => s.(draining := on, step := s.step + 1)
    case SetDisabled(name, off) =>
      s.(sh := s.sh.(disabled := if off then s.sh.disabled + {name} else s.sh.disabled - {name}), step := s.step + 1)
    case Reload(c) => s.(config := c, step := s.step + 1)
    case _ => s.(frames := s.frames + AsSeq(Called(a)), step := s.step + 1)
  }

  /** The frame an action adds, if any. */
  function Added(s: State, a: Action): Option<Frame> {
    match a
    case Go(i, c) => if i < |s.frames| then StepFrame(s, i, s.frames[i], c).spawned else None
    case Fire(t) =>
      if t < |s.sh.wheel| && FireShared(s, t).1 > 0
      then Some(FireCall(s.sh.wheel[t].name, FireShared(s, t).1, |s.history.batches|, false))
      else None
    case _ => Called(a)
  }

  /** An action adds at most one frame and changes at most the frame that steps. */
  lemma FramesAfter(s: State, a: Action)
    requires Enabled(s, a)
    ensures var s' := Perform(s, a);
      && s'.step == s.step + 1 && s'.now == s.now
      && |s'.frames| == |s.frames| + |AsSeq(Added(s, a))|
      && (forall k :: 0 <= k < |s.frames| && !(a.Go? && a.frame == k) ==> s'.frames[k] == s.frames[k])
      && (a.Go? ==> s'.frames[a.frame] == StepFrame(s, a.frame, s.frames[a.frame], a.choice).own)
      && (Added(s, a).Some? ==> s'.frames[|s.frames|] == Added(s, a).value)
  {
  }

  /** An event happens at an instant no earlier than the last one. */
  ghost predicate Can(s: State, e: Event) {
    s.now <= e.at && Enabled(s.(now := e.at), e.action)
  }

  function Apply(s: State, e: Event): State {
    Perform(s.(now := e.at), e.action)
  }

  ghost predicate Legal(s: State, es: seq<Event>)
    decreases |es|
  {
    es == [] || (Can(s, es[0]) && Legal(Apply(s, es[0]), es[1..]))
  }

  function Exec(s: State, es: seq<Event>): State
    decreases |es|
  {
    if es == [] then s else Exec(Apply(s, es[0]), es[1..])
  }

  /** Runs compose. */
  lemma {:induction false} ExecConcat(s: State, es: seq<Event>, fs: seq<Event>)
    requires Legal(s, es) && Legal(Exec(s, es), fs)
    ensures Legal(s, es + fs) && Exec(s, es + fs) == Exec(Exec(s, es), fs)
    decreases |es|
  {
    if es == [] {
      assert es + fs == fs;
    } else {
      assert (es + fs)[0] == es[0] && (es + fs)[1..] == es[1..] + fs;
      ExecConcat(Apply(s, es[0]), es[1..], fs);
    }
  }
}
