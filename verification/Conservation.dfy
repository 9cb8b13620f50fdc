/** No coalesced trigger is lost or counted twice. */
module Conservation {
  import opened Prelude
  import opened JobConfig
  import opened RunnerState
  import opened Protocol

  function SumTaken(bs: seq<Taken>, name: string): nat {
    if bs == [] then 0
    else SumTaken(bs[..|bs| - 1], name) + (if bs[|bs| - 1].name == name then bs[|bs| - 1].n else 0)
  }

  lemma {:induction false} SumTakenAppend(bs: seq<Taken>, t: Taken, name: string)
    ensures SumTaken(bs + [t], name) == SumTaken(bs, name) + if t.name == name then t.n else 0
  {
    assert (bs + [t])[..|bs|] == bs;
  }

  /** Accepted triggers and requeues, against what is pending and what was taken. */
  ghost predicate Balanced(sh: Shared, h: History) {
    forall name ::
      Count(h.accepted, name) + Count(h.requeued, name) == Pending(sh, name) + SumTaken(h.batches, name)
  }

  lemma TakeKeepsBalance(sh: Shared, h: History, sh': Shared, name: string, fate: Fate)
    requires Balanced(sh, h)
    requires Pending(sh', name) == 0 && forall m :: m != name ==> Pending(sh', m) == Pending(sh, m)
    ensures Balanced(sh', Take(h, name, Pending(sh, name), fate))
  {
    forall m
      ensures var h' := Take(h, name, Pending(sh, name), fate);
        Count(h'.accepted, m) + Count(h'.requeued, m) == Pending(sh', m) + SumTaken(h'.batches, m)
    {
      SumTakenAppend(h.batches, Taken(name, Pending(sh, name)), m);
    }
  }

  /** The other steps leave counts, pending and batches alone. */
  ghost predicate SameBooks(s: State, e: Effect) {
    && e.sh.pending == s.sh.pending
    && e.history.accepted == s.history.accepted && e.history.requeued == s.history.requeued
    && e.history.batches == s.history.batches
  }

  predicate TakesOrAdds(f: Frame) {
    || (f.RunCall? && (f.pc.Requeue? || f.pc.DrainLock?))
    || (f.TriggerCall? && f.triggerPc.TriggerLock?)
    || (f.ForceCall? && f.forcePc.ForceLock?)
  }

  lemma ExecuteKeepsBooks(s: State, i: nat, f: Frame, c: Choice)
    requires f.RunCall?
    ensures SameBooks(s, StepExecute(s, i, f, c))
  {
  }

  lemma OtherStepsKeepBooks(s: State, i: nat, f: Frame, c: Choice)
    requires !TakesOrAdds(f)
    ensures SameBooks(s, StepFrame(s, i, f, c))
  {
    hide StepExecute, StepDrain, AcquireDenial, Lookup, ChainTargets;
    if f.RunCall? {
      ExecuteKeepsBooks(s, i, f, c);
    }
  }

  lemma DrainBalance(s: State, i: nat, f: Frame)
    requires f.RunCall? && Balanced(s.sh, s.history)
    ensures Balanced(StepDrain(s, i, f).sh, StepDrain(s, i, f).history)
  {
    match DrainPick(s.sh, s.config, f.job)
    case None =>
    case Some(name) => TakeKeepsBalance(s.sh, s.history, DrainLocked(s.sh, s.config, f.job).0, name, InLookup(i));
  }

  lemma CountingBalance(s: State, i: nat, f: Frame, c: Choice)
    requires Balanced(s.sh, s.history)
    requires (f.RunCall? && f.pc.Requeue?) || (f.TriggerCall? && f.triggerPc.TriggerLock?)
    ensures Balanced(StepFrame(s, i, f, c).sh, StepFrame(s, i, f, c).history)
  {
  }

  lemma GoBalance(s: State, i: nat, f: Frame, c: Choice)
    requires Balanced(s.sh, s.history)
    ensures Balanced(StepFrame(s, i, f, c).sh, StepFrame(s, i, f, c).history)
  {
    if !TakesOrAdds(f) {
      OtherStepsKeepBooks(s, i, f, c);
    } else if f.RunCall? && f.pc.DrainLock? {
      DrainBalance(s, i, f);
    } else if f.ForceCall? {
      TakeKeepsBalance(s.sh, s.history, ForceLocked(s.sh, f.job.name).0, f.job.name, Given(|s.frames|));
    } else {
      CountingBalance(s, i, f, c);
    }
  }

  lemma FireBalance(s: State, t: nat)
    requires t < |s.sh.wheel| && Balanced(s.sh, s.history)
    ensures Balanced(StepFire(s, t).sh, StepFire(s, t).history)
  {
    var name := s.sh.wheel[t].name;
    if FireShared(s, t).1 > 0 {
      TakeKeepsBalance(s.sh, s.history, FireShared(s, t).0, name, InLookup(|s.frames|));
    } else {
      assert forall m :: Pending(FireShared(s, t).0, m) == Pending(s.sh, m);
    }
  }

  lemma StepKeepsBalance(s: State, a: Action)
    requires Balanced(s.sh, s.history) && Enabled(s, a)
    ensures Balanced(Perform(s, a).sh, Perform(s, a).history)
  {
    match a
    case Go(i, c) => GoBalance(s, i, s.frames[i], c);
    case Fire(t) => FireBalance(s, t);
    case _ =>
      assert forall m :: Pending(Perform(s, a).sh, m) == Pending(s.sh, m);
  }

  // Where every batch went.

  /** The batch a goroutine has taken but not yet handed on. */
  function InHand(f: Frame): Option<(string, nat, nat)> {
    match f
    case RunCall(_, _, _, _, DrainLookup(name, n, b), _, _) => Some((name, n, b))
    case FireCall(name, n, b, false) => Some((name, n, b))
    case _ => None
  }

  predicate RunsBatch(f: Frame, b: nat, t: Taken) {
    f.RunCall? && f.origin == Batch(b) && f.coalesced == t.n && f.job.name == t.name
  }

  /** Batch b is in exactly one place, and that place agrees on its name and count. */
  ghost predicate Placed(s: State, b: nat)
    requires b < |s.history.batches| == |s.history.fates|
  {
    var t := s.history.batches[b];
    match s.history.fates[b]
    case InLookup(i) => i < |s.frames| && InHand(s.frames[i]) == Some((t.name, t.n, b))
    case Given(i) => i < |s.frames| && RunsBatch(s.frames[i], b, t)
    case Dropped => true
  }

  /** Every frame's claim on a batch is the batch's own record. */
  ghost predicate Claims(s: State, i: nat)
    requires i < |s.frames|
  {
    var f, h := s.frames[i], s.history;
    && (InHand(f).Some? ==> InHand(f).value.2 < |h.fates| && h.fates[InHand(f).value.2] == InLookup(i))
    && (f.RunCall? && f.origin.Batch? ==> f.origin.batch < |h.fates| && h.fates[f.origin.batch] == Given(i))
  }

  ghost predicate Ledger(s: State) {
    && |s.history.batches| == |s.history.fates|
    && (forall b :: 0 <= b < |s.history.batches| ==> Placed(s, b))
    && (forall i :: 0 <= i < |s.frames| ==> Claims(s, i))
  }

  /** The identity a frame never changes. */
  predicate SameCall(f: Frame, g: Frame) {
    && f.RunCall? == g.RunCall?
    && (f.RunCall? ==> g.job == f.job && g.origin == f.origin && g.coalesced == f.coalesced)
  }

  predicate ClaimsNothing(f: Frame) {
    InHand(f).None? && (f.RunCall? ==> !f.origin.Batch?)
  }

  /** A step that neither takes nor hands on a batch. */
  ghost predicate Passive(s: State, f: Frame, e: Effect) {
    && e.history.batches == s.history.batches && e.history.fates == s.history.fates
    && InHand(e.own) == InHand(f)
    && (e.spawned.Some? ==> ClaimsNothing(e.spawned.value))
  }

  predicate HandsOver(f: Frame) {
    || InHand(f).Some?
    || (f.RunCall? && f.pc.DrainLock?)
    || (f.ForceCall? && f.forcePc.ForceLock?)
  }

  lemma CallsKeepIdentity(s: State, i: nat, f: Frame, c: Choice)
    ensures SameCall(f, StepFrame(s, i, f, c).own)
  {
  }

  lemma OtherStepsArePassive(s: State, i: nat, f: Frame, c: Choice)
    requires !HandsOver(f) && !(f.FireCall? && f.done)
    ensures Passive(s, f, StepFrame(s, i, f, c))
  {
  }

  lemma PassiveKeepsLedger(s: State, i: nat, e: Effect)
    requires Ledger(s) && i < |s.frames| && SameCall(s.frames[i], e.own) && Passive(s, s.frames[i], e)
    ensures Ledger(Commit(s, i, e))
  {
    var s' := Commit(s, i, e);
    forall b | 0 <= b < |s'.history.batches|
      ensures Placed(s', b)
    {
      assert Placed(s, b);
    }
    forall k | 0 <= k < |s'.frames|
      ensures Claims(s', k)
    {
      assert k < |s.frames| ==> Claims(s, k);
    }
  }

  /** A frame that had nothing in hand takes a batch. */
  lemma TakingKeepsLedger(s: State, i: nat, e: Effect, name: string, n: nat)
    requires Ledger(s) && i < |s.frames| && SameCall(s.frames[i], e.own) && InHand(s.frames[i]).None?
    requires e.history == Take(s.history, name, n, InLookup(i)) && e.spawned.None?
    requires InHand(e.own) == Some((name, n, |s.history.batches|))
    ensures Ledger(Commit(s, i, e))
  {
    var s' := Commit(s, i, e);
    forall b | 0 <= b < |s'.history.batches|
      ensures Placed(s', b)
    {
      assert b < |s.history.batches| ==> Placed(s, b);
    }
    forall k | 0 <= k < |s'.frames|
      ensures Claims(s', k)
    {
      assert Claims(s, k);
    }
  }

  /** A batch leaves the hand: for the run call it starts, or for good when the job is gone. */
  lemma SettlingKeepsLedger(s: State, i: nat, own: Frame)
    requires Ledger(s) && i < |s.frames| && SameCall(s.frames[i], own)
    requires InHand(s.frames[i]).Some? && InHand(own).None?
    ensures var (name, n, b) := InHand(s.frames[i]).value;
      Ledger(Commit(s, i, GiveOrDrop(s, own, name, n, b)))
  {
    var (name, n, b) := InHand(s.frames[i]).value;
    var s' := Commit(s, i, GiveOrDrop(s, own, name, n, b));
    assert Claims(s, i) && Placed(s, b);
    forall m | 0 <= m < |s'.history.batches|
      ensures Placed(s', m)
    {
      assert Placed(s, m);
    }
    forall k | 0 <= k < |s'.frames|
      ensures Claims(s', k)
    {
      assert k < |s.frames| ==> Claims(s, k);
    }
  }

  lemma ForcingKeepsLedger(s: State, i: nat, f: Frame)
    requires Ledger(s) && i < |s.frames| && s.frames[i] == f && f.ForceCall? && f.forcePc.ForceLock?
    ensures Ledger(Commit(s, i, StepForce(s, f)))
  {
    var s' := Commit(s, i, StepForce(s, f));
    forall m | 0 <= m < |s'.history.batches|
      ensures Placed(s', m)
    {
      assert m < |s.history.batches| ==> Placed(s, m);
    }
    forall k | 0 <= k < |s'.frames|
      ensures Claims(s', k)
    {
      assert k < |s.frames| ==> Claims(s, k);
    }
  }

  lemma DrainKeepsLedger(s: State, i: nat, f: Frame)
    requires Ledger(s) && i < |s.frames| && s.frames[i] == f && f.RunCall? && f.pc.DrainLock?
    ensures Ledger(Commit(s, i, StepDrain(s, i, f)))
  {
    match DrainPick(s.sh, s.config, f.job)
    case None => PassiveKeepsLedger(s, i, StepDrain(s, i, f));
    case Some(name) => TakingKeepsLedger(s, i, StepDrain(s, i, f), name, Pending(s.sh, name));
  }

  lemma GoKeepsLedger(s: State, i: nat, c: Choice)
    requires Ledger(s) && i < |s.frames| && Runnable(s, i, c)
    ensures Ledger(Commit(s, i, StepFrame(s, i, s.frames[i], c)))
  {
    var f := s.frames[i];
    CallsKeepIdentity(s, i, f, c);
    if !HandsOver(f) {
      OtherStepsArePassive(s, i, f, c);
      PassiveKeepsLedger(s, i, StepFrame(s, i, f, c));
    } else if f.ForceCall? {
      ForcingKeepsLedger(s, i, f);
    } else if f.FireCall? {
      SettlingKeepsLedger(s, i, f.(done := true));
    } else if f.pc.DrainLookup? {
      SettlingKeepsLedger(s, i, AfterDrain(f));
    } else {
      DrainKeepsLedger(s, i, f);
    }
  }

  lemma FireKeepsLedger(s: State, t: nat)
    requires Ledger(s) && t < |s.sh.wheel|
    ensures Ledger(StepFire(s, t))
  {
    var s' := StepFire(s, t);
    forall m | 0 <= m < |s'.history.batches|
      ensures Placed(s', m)
    {
      assert m < |s.history.batches| ==> Placed(s, m);
    }
    forall k | 0 <= k < |s'.frames|
      ensures Claims(s', k)
    {
      assert k < |s.frames| ==> Claims(s, k);
    }
  }

  lemma CallKeepsLedger(s: State, a: Action)
    requires Ledger(s) && !a.Go? && !a.Fire? && Enabled(s, a)
    ensures Ledger(Perform(s, a))
  {
    var s' := Perform(s, a);
    FramesAfter(s, a);
    assert s'.history == s.history;
    forall m | 0 <= m < |s'.history.batches|
      ensures Placed(s', m)
    {
      assert Placed(s, m);
    }
    forall k | 0 <= k < |s'.frames|
      ensures Claims(s', k)
    {
      assert k < |s.frames| ==> Claims(s, k);
    }
  }

  lemma StepKeepsLedger(s: State, a: Action)
    requires Ledger(s) && Enabled(s, a)
    ensures Ledger(Perform(s, a))
  {
    match a
    case Go(i, c) => GoKeepsLedger(s, i, c);
    case Fire(t) => FireKeepsLedger(s, t);
    case _ => CallKeepsLedger(s, a);
  }

  /** A batch once given or dropped stays so, and it is dropped only for want of its job in the configuration. */
  lemma FatesAreFinal(s: State, a: Action)
    requires Ledger(s) && Enabled(s, a)
    ensures var h, h' := s.history, Perform(s, a).history;
      && h.batches <= h'.batches && |h.fates| <= |h'.fates|
      && forall b :: 0 <= b < |h.fates| ==>
           (if h.fates[b].InLookup? then
              (h'.fates[b].Dropped? ==> Lookup(s.config, h.batches[b].name).None?)
            else h'.fates[b] == h.fates[b])
  {
    match a
    case Go(i, c) =>
      var f := s.frames[i];
      if !HandsOver(f) {
        OtherStepsArePassive(s, i, f, c);
      } else if InHand(f).Some? {
        assert Claims(s, i) && Placed(s, InHand(f).value.2);
      }
    case _ =>
  }

  lemma LedgerIgnoresTheClock(s: State, at: int)
    requires Ledger(s)
    ensures Ledger(s.(now := at))
  {
    var s' := s.(now := at);
    assert forall b :: 0 <= b < |s.history.batches| ==> Placed(s, b) ==> Placed(s', b);
    assert forall i :: 0 <= i < |s.frames| ==> Claims(s, i) ==> Claims(s', i);
  }

  lemma {:induction false} RunKeepsBooks(s: State, es: seq<Event>)
    requires Balanced(s.sh, s.history) && Ledger(s) && Legal(s, es)
    ensures var s' := Exec(s, es); Balanced(s'.sh, s'.history) && Ledger(s')
    decreases |es|
  {
    if es != [] {
      var now := s.(now := es[0].at);
      LedgerIgnoresTheClock(s, es[0].at);
      StepKeepsBalance(now, es[0].action);
      StepKeepsLedger(now, es[0].action);
      RunKeepsBooks(Apply(s, es[0]), es[1..]);
    }
  }

  // Why a batch was dropped, over whole runs.

  ghost predicate IsDropped(s: State, b: nat) {
    b < |s.history.fates| && s.history.fates[b].Dropped?
  }

  /** In this state the batch was in somebody's hands, and its job was not in the configuration. */
  ghost predicate JobIsGone(s: State, b: nat) {
    && b < |s.history.batches| && b < |s.history.fates|
    && s.history.fates[b].InLookup? && Lookup(s.config, s.history.batches[b].name).None?
  }

  lemma FrameDropsNoNewBatch(s: State, i: nat, f: Frame, c: Choice, b: nat)
    requires !(f.FireCall? && f.done) && |s.history.fates| <= b < |StepFrame(s, i, f, c).history.fates|
    ensures !StepFrame(s, i, f, c).history.fates[b].Dropped?
  {
    if !HandsOver(f) {
      OtherStepsArePassive(s, i, f, c);
    }
  }

  lemma NewBatchIsNotDropped(s: State, a: Action, b: nat)
    requires Ledger(s) && Enabled(s, a) && |s.history.fates| <= b < |Perform(s, a).history.fates|
    ensures !Perform(s, a).history.fates[b].Dropped?
  {
    hide Ledger, StepFrame;
    if a.Go? {
      FrameDropsNoNewBatch(s, a.frame, s.frames[a.frame], a.choice, b);
    }
  }

  lemma StepDropsWhenGone(s: State, a: Action, b: nat)
    requires Ledger(s) && Enabled(s, a) && IsDropped(Perform(s, a), b) && !IsDropped(s, b)
    ensures JobIsGone(s, b)
  {
    FatesAreFinal(s, a);
    if b >= |s.history.fates| {
      NewBatchIsNotDropped(s, a, b);
    }
  }

  lemma {:induction false} RunDropsWhenGone(s: State, es: seq<Event>, b: nat)
    requires Ledger(s) && Legal(s, es) && IsDropped(Exec(s, es), b) && !IsDropped(s, b)
    ensures exists k :: 0 <= k < |es| && JobIsGone(Exec(s, es[..k]), b)
    decreases |es|
  {
    var now, t := s.(now := es[0].at), Apply(s, es[0]);
    LedgerIgnoresTheClock(s, es[0].at);
    StepKeepsLedger(now, es[0].action);
    if IsDropped(t, b) {
      StepDropsWhenGone(now, es[0].action, b);
      assert es[..0] == [];
      assert JobIsGone(Exec(s, es[..0]), b);
    } else {
      RunDropsWhenGone(t, es[1..], b);
      var k :| 0 <= k < |es[1..]| && JobIsGone(Exec(t, es[1..][..k]), b);
      assert es[..k + 1][0] == es[0] && es[..k + 1][1..] == es[1..][..k];
      assert JobIsGone(Exec(s, es[..k + 1]), b);
    }
  }

  /** Both are calls for batch b. */
  predicate Carry(f: Frame, g: Frame, b: nat) {
    f.RunCall? && g.RunCall? && f.origin == Batch(b) && g.origin == Batch(b)
  }

  /** No two calls carry the same batch. */
  lemma OneCallPerBatch(s: State, i: nat, k: nat, b: nat)
    requires Ledger(s) && i < |s.frames| && k < |s.frames| && Carry(s.frames[i], s.frames[k], b)
    ensures i == k
  {
    assert Claims(s, i) && Claims(s, k);
  }

  /**
   Under any interleaving, stale timers included: accepted triggers plus busy requeues are what is
   pending plus what was taken; every batch taken is in one goroutine's hands, or was given to one
   run call, which records its count and shares it with no other, or was dropped; and it was dropped
   only because in some earlier state, when its job was looked up, the job was not there.
   */
  lemma {:induction false} TriggerConservation(c: Config, disabled: set<string>, now: int, es: seq<Event>)
    requires Legal(Init(c, disabled, now), es)
    ensures var s := Exec(Init(c, disabled, now), es);
      && Balanced(s.sh, s.history) && Ledger(s)
      && (forall i, k, b :: 0 <= i < |s.frames| && 0 <= k < |s.frames| && Carry(s.frames[i], s.frames[k], b) ==> i == k)
      && (forall b :: IsDropped(s, b) ==> exists k :: 0 <= k < |es| && JobIsGone(Exec(Init(c, disabled, now), es[..k]), b))
  {
    RunKeepsBooks(Init(c, disabled, now), es);
    var s := Exec(Init(c, disabled, now), es);
    forall i, k, b | 0 <= i < |s.frames| && 0 <= k < |s.frames| && Carry(s.frames[i], s.frames[k], b)
      ensures i == k
    {
      OneCallPerBatch(s, i, k, b);
    }
    forall b | IsDropped(s, b)
      ensures exists k :: 0 <= k < |es| && JobIsGone(Exec(Init(c, disabled, now), es[..k]), b)
    {
      RunDropsWhenGone(Init(c, disabled, now), es, b);
    }
  }
}
