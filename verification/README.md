# A verified model of the cronkit runner

cronkit is a small job server: it runs shell commands on a schedule or on demand, one at a time per job and
per concurrency group, coalesces bursts of triggers, chains jobs to one another, keeps their logs and prunes
their history. This project models the parts of it that are hard to see through, in Dafny, and proves what
they promise. Nothing is executed; `dafny verify dfyconfig.toml` checks everything.

## What is modelled

**The runner (`runner.go`).** `RunnerObject.Runner` is the Go object: its maps are fields, each block that
holds `Runner.mu` is a method, and each method is proved to change the fields exactly as a function on the
locked state says (`RunnerState`); its one-line methods for the cancel map, the disabled set and the drain
flag have no row below. `Protocol` makes a step machine of these functions: every goroutine inside
`run`, `Trigger`, `ForceRun`, `Cancel`, `chain` and a timer callback is a frame with a program counter, and
every locked block, every load or store of the drain flag and every decision of `execute` is one step. Steps
of all goroutines interleave freely, with calls from outside, expiring timers, drain mode, disabled jobs and
config reloads, under a clock that never goes back. The theorems hold for every legal sequence of such events:

- *Mutual exclusion* (`Exclusion`, `Intervals`), *cancellation* (`Cancellation`, `TimeoutRace`) and *drain mode* (`Draining`);
- *what becomes of a call*: turned away, failed to write, or finished, and with which status (`Outcomes`); and what
  `Trigger` says it did (`Answers`);
- *timers and debounce* (`Debounce`, `OneTimer`), and exactly which steps start a batch early (`EarlyStart`);
- *conservation of triggers* (`Conservation`, `KnownJobs`), and exactly who adds to a pending count, who takes it, and
  who still can in drain mode (`Takings`);
- *chains*: order, depth and size of the tree below a run (`ChainTree`), and which list a run fires (`ChainLists`);
- *nothing is missed* (`Stranding`, `LateRequeue`, `Delivery`): exactly which step can strand a trigger;
- *termination* (`Restarts`, `Quiescence`, `Livelock`): exactly for which chain graphs every schedule ends.

`Schedules` and `ChainSchedules` build the runs whose existence some of these theorems assert, and
`FixedConfig` is the assumption that nobody reloads the configuration meanwhile.

**The chain diagram (`view.go`).** `Diagram` is the breadth-first search and the pass over direct parents,
`Layout` the columns and boxes, and `DiagramAgreement` shows that the diagram's nodes are precisely the jobs
the runner's chains can start.

**The log (`logwriter.go`, `web.go`).** `LogWriter` is the stamping writer over the capping writer, `LiveTail`
the loop that streams a growing log.

**History and configuration (`store.go`, `config.go`).** `Retention` is the listing and pruning of runs,
`JobConfig` the validation of the jobs file and the lookups.

## Where the code and its comments differ

The model follows the code. These lemmas show the difference.

- README.md:150-151 and config.go:46-48 promise that a trigger landing while the job runs is honoured on
  finish, so that nothing is missed. A denied `run` takes the lock a second time to count its trigger
  (runner.go:331-337); if by then nobody is left to come for the job, the trigger waits for some later trigger
  or run. Somebody who comes is an unfinished timer, a call that will still drain the job's queue, or a timer's
  callback that has taken a batch of it; a `Trigger`, `ForceRun` or chain loop on its way is not, since it brings a
  trigger of its own. `Stranding.StepStrandsIff` shows that this is the only way, `Stranding.NoStranding` that it
  cannot happen when denial and requeue are one step, `LateRequeue.TwoLocksCanStrand` that every debounced job of
  every valid configuration has such a run, and `LateRequeue.NeverStrandsIff` that a configuration is safe from it
  exactly when it debounces nothing. `Delivery.EveryTriggerIsAnswered` says exactly what is then left pending.
- config.go:43-45 promises that a debounced batch runs when triggers go quiet. A batch can start before its timer
  is due: `drainAfter` does not look at timers (runner.go:201-211), and a callback whose timer was replaced or
  dropped after it had expired takes whatever is pending (runner.go:154-159, 164-174).
  `EarlyStart.TakesEarlyIff` shows that these two, besides a forced run, are the only ways, and that the job's own timer is
  never early. `EarlyStart.DrainCanBeEarly` and `EarlyStart.StaleCanBeEarly` give a run of each kind for every
  debounced job of every valid configuration, and `EarlyStart.NeverEarlyIff` the configurations that are safe.
- runner.go:154-158 stops a job's timer before it arms the next one. A stale callback deletes the newer timer's entry
  (runner.go:166), so that the next trigger does not find that timer and a job has two armed.
  `OneTimer.StepKeepsMappedIff` shows that this is the only way, `OneTimer.OneArmedTimer` that a job has at most one
  until it happens, and `EarlyStart.NeverForgetsArmedIff` that a valid configuration is safe from it exactly when it
  debounces nothing.
- runner.go:28-29 and README.md:73 call the depth limit a guard against cycles. A chained call of a debounced
  job that finds it busy becomes a pending trigger, and the run that takes it starts at depth 0
  (runner.go:217), so overlapping runs in such a cycle can go on for ever. `Livelock.RestsIff` says exactly
  which graphs do that.
- runner.go:16, config.go:21 and README.md:66-70 say that a denied run is skipped, not queued. A denied run of a
  debounced job is counted as a pending trigger (runner.go:332-338); `LateRequeue.RequeuesIff` shows that this
  happens to debounced jobs and to no others.
- config.go:24-26 and README.md:60 say that on_failure fires when a job fails or times out. The status is decided by
  two reads, of the timeout's flag and then of the context (runner.go:418-421), and the timer may expire in between.
  Such a run is recorded as canceled, although nobody canceled it, and starts no chain.
  `TimeoutRace.CancelsUnaskedIff` shows that this can happen to a job exactly when it has a timeout.
- runner.go:24 and runner.go:230 say that no new run starts in drain mode. A call that had read the drain flag just
  before still starts its run, even after RunningCount has shown 0 (runner.go:328-331). `Draining.ZeroStaysIff` says
  exactly when 0 is final. A drain or a forced run that had read the flag just before still takes a pending count,
  and the call it gives it to is refused. `Takings.DrainModeLocksOut` shows that nobody else takes one.
- logwriter.go:11-14 promises the notice for output that is cut off. `LogWriter.OverrunIff` says exactly when the
  two agree: always, except after an empty write at exactly the limit (`LogWriter.EmptyWriteAtTheCap`). The
  pipeline makes no empty write, so the log as a whole is as promised (`LogWriter.Log`).
- The comment at view.go:166-170 promises the full chain. An edge is missing from the drawing exactly when it
  shares its joined key with another one (`Diagram.EdgesCompleteIff`), which takes a job name with `>` in it
  (`Diagram.PlainNamesLoseNothing`); `Diagram.ArrowsLoseAnEdge` is a valid configuration that loses one.

## Model

| member | source | states |
|---|---|---|
| JobConfig.LoadConfig | config.go:103-211 | The file is accepted exactly when every job has a fresh name, a command and well-formed durations and every chain reference is declared; an accepted file has the run and log limits of the file or the defaults of 50 runs and 20 MiB, and a job's own run limit goes before the file's; a rejected one is reported with its first fault in the order of the tests |
| JobConfig.JobNamed | config.go:196-203 | The loop finds the first job of that name, or none, and so what the lookup function says |
| JobConfig.LookupFrom | config.go:196-203 | A found job is in the list and has the name; none found means no job has it |
| JobConfig.LookupIsMembership | config.go:196-203 | In a valid file looking a job up by its name gives that job exactly when it is in the file |
| JobConfig.ReferencesResolve | config.go:168-175 | Chain references of a valid file never dangle |
| RunnerObject.Runner.constructor | runner.go:49-62 | A new runner has empty maps but for the disabled jobs, and is not draining |
| RunnerObject.Runner.ArmTimer | runner.go:154-159 | The old timer is stopped if it had not expired, and a new one for the due instant takes its place in the maps |
| RunnerObject.Runner.Trigger | runner.go:122-160 | A disabled job, drain mode and a job without debounce change nothing and are told apart; otherwise the trigger is counted, and either coalesced into the running job or the timer re-armed, with the batch's first instant kept, and its instant returned |
| RunnerObject.Runner.FireBatch | runner.go:164-175 | The three timer entries go; the batch is taken unless the job runs or drain mode is on, and then the count stays |
| RunnerObject.Runner.ForceRun | runner.go:102-115 | Nothing in drain mode; otherwise the pending batch is absorbed and the timer and its entries are gone, whatever else is there |
| RunnerObject.Runner.DrainAfter | runner.go:186-212 | Nothing in drain mode; otherwise the candidate and scan loops take exactly the first waiting job of the finished job's queue, or nothing when its group is busy again |
| RunnerObject.Runner.Acquire | runner.go:293-307 | Denied with the right error and nothing changed, or job and group reserved |
| RunnerObject.Runner.Release | runner.go:309-316 | Job and group are free and nothing else changed |
| RunnerObject.Runner.Requeue | runner.go:335-337 | One more trigger pending and nothing else changed |
| Answers.SaysWhatItDid | runner.go:122-160 | In every run a Trigger has come back with a result exactly when it did what the result says: found the job disabled or drain mode on, started a run of a job without a positive debounce, counted a trigger of a running job, or armed the timer for the instant it returns |
| Answers.StartsIffItSaysSo | runner.go:129-133 | It starts a run of its job, from the beginning and with no count, exactly when it says started |
| Answers.CountsIffItSaysSo | runner.go:135-160 | It adds one to the pending count exactly when it says coalesced or debounced |
| RunnerState.Stop | runner.go:154-156 | Stopping changes at most that timer, only if it was armed, and then to over |
| RunnerState.GroupMatesAre | runner.go:191-198 | The candidates beside the finished job are exactly the other jobs of its group |
| RunnerState.FirstWaitingIs | runner.go:199-211 | The scan gives none exactly when no candidate waits, and otherwise a waiting one with none waiting before it |
| Protocol.FramesAfter | runner.go:324-351 | A step changes one goroutine at most and starts one at most |
| Exclusion.StepKeepsExclusive | runner.go:293-316 | Every step of every interleaving keeps the guards equal to the names and groups captured by the calls between acquire and release, no two of which conflict |
| Exclusion.AcquireKeepsExclusive | runner.go:293-307 | A successful acquire reserves a name and a group nobody holds |
| Exclusion.ReleaseKeepsExclusive | runner.go:309-316 | A release frees its own name and group and nobody else's |
| Exclusion.DenialIs | runner.go:291-307 | Denied busy exactly when a call of the job holds it, group busy exactly when none does but one holds its group |
| Intervals.StepKeepsSerial | runner.go:341-342 | Of two conflicting runs that both got going, one released before the other acquired |
| Intervals.RunningCountIsHolders | runner.go:237-242 | RunningCount is the number of calls between acquire and release |
| Intervals.MutualExclusion | runner.go:293-316 | In every reachable state, reloads included: the guards name the holders, RunningCount counts them, and recorded intervals of one job or one captured group do not overlap in their interiors |
| Cancellation.StepKeepsCancelMap | runner.go:279-289 | The keys of cancels are the jobs between setCancel and clearCancel, each mapped to its one call |
| Cancellation.ReadIsInFlight | runner.go:268-271 | What Cancel reads is a call in flight at that step |
| Cancellation.FindsNobodyIff | runner.go:267-275 | Cancel says that nothing runs exactly when no call of the job is between setCancel and clearCancel |
| Cancellation.OneInFlight | runner.go:267-277 | No two runs of a job are in flight at one step |
| Cancellation.CancelTargetsOneRun | runner.go:267-289 | The runs signalled are exactly those of the Cancels that returned true; such a Cancel signalled the one run of its job in flight when it read the map and no later one; a run ends canceled only because of such a Cancel or because its timeout had passed; cancels has only running jobs |
| TimeoutRace.CancelsUnaskedIff | runner.go:382-426 | A run of a job can end canceled, chaining nothing, although nobody ever called Cancel, exactly when the job has a positive timeout |
| Outcomes.ReturnsUnrunIff | runner.go:324-340 | In every run a call that has returned never acquired exactly when it found its job disabled, drain mode on, or its job or group taken |
| Outcomes.OutcomeIs | runner.go:352-426 | In every run a call's outcome is what it found: an error exactly if its record or log could not be written, timed out if its first read saw the flag, else canceled if its second read saw a Cancel or the timeout, else success or failure as its command did |
| Outcomes.SeenLimitHasPassed | runner.go:382-385 | A call sees its timeout only when the job has one and it has passed since the start |
| Outcomes.ReturnsWithOutcome | runner.go:341-349 | A call that acquired and has returned has a status or an error, with one of these causes |
| Outcomes.InstantsAre | runner.go:353-412 | A call's acquire, start, end and release are the instants at which it got its job, wrote its record, saw its command end, and gave the job up |
| Outcomes.SwitchesHold | runner.go:230-264 | Disabled is what was switched off last, drain mode what was set last, the configuration the last loaded |
| Draining.StepShrinksPast | runner.go:328-330 | In drain mode no step lets a call past the drain check |
| Draining.DrainSafety | runner.go:230-232 | From any reachable state in drain mode until Resume the calls past the check and not released never grow, RunningCount never exceeds them, and once there are none it is 0 and stays 0 |
| Draining.ZeroStaysIff | runner.go:230-242 | In every reachable state in drain mode a RunningCount of 0 stays 0 until Resume exactly when no call is between its drain check and its acquire |
| Takings.DrainPickIsNext | runner.go:190-212 | A drain picks the finished job if it waits, else the first waiting job of its group in the order of the file, and nobody while the group is taken |
| Takings.LowersIff | runner.go:106-212 | A step lowers a job's pending count exactly when it is a forced run of the job, the drain of a call whose next job it is, or, outside drain mode, the callback of a timer of the job while it does not run; and then to 0 |
| Takings.RaisesIff | runner.go:135-337 | A step raises it exactly when it is the locked part of a trigger of the job or the requeue of a denied call of it, and by one |
| Takings.DeniedCountsIff | runner.go:331-340 | A denied call goes on to count a trigger exactly when its job has a positive debounce, and otherwise returns |
| Takings.TakingsAreBatches | runner.go:106-218 | What a step takes is one batch of that job with its whole count; only a forced run makes a batch of nothing |
| Takings.DrainModeLocksOut | runner.go:187-189 | In drain mode no step brings a drain or a forced run to the lock, and only one that is there already takes a count |
| Takings.DrainKeepsPending | runner.go:170-189 | In drain mode with nobody at the lock no pending count falls until Resume |
| FixedConfig.StepKeepsFixed | runner.go:221 | Under one configuration every job a goroutine works on is the configuration's own |
| Debounce.TriggerKeepsBooked | runner.go:141-159 | A trigger keeps the three timer maps and the timers in step |
| Debounce.FireKeepsBooked | runner.go:164-175 | So does a callback, stale ones included |
| Debounce.TimerBookkeeping | runner.go:106-168 | In every reachable state timers, firesAt and firstAt have one domain, and each mapped timer is a real one of that job and instant whose callback has not taken the lock, even when Stop loses the race |
| OneTimer.ReplacedIsStopped | runner.go:109-159 | A trigger that re-arms and a forced run leave the timer that was the job's stopped, unless it had expired, and touch no other |
| OneTimer.StepKeepsMappedIff | runner.go:152-175 | A step leaves an armed timer without its entry exactly when it is the callback of another timer of the job |
| OneTimer.OneArmedTimer | runner.go:152-159 | While that has not happened every armed timer is the one its job's entry names, so a job has at most one |
| Debounce.FiresAtExactly | runner.go:141-160 | After triggers at any instants the timer is armed for the promised instant, or for now when that is past, with the first instant kept and every trigger counted |
| Debounce.DebounceBound | runner.go:141-160 | With callbacks run when due, triggers t1 to tk leave the batch armed for min(tk + debounce, t1 + debounce_max), or tk + debounce without a positive maximum |
| Debounce.FiresAsPromised | runner.go:141-160 | In every run under one configuration each armed batch is booked for the promised instant of its first and its last arming trigger, or for the latter when the promise was past |
| Debounce.TrickleStillFires | config.go:43-48 | In whole runs with punctual callbacks each armed batch is booked for exactly min(last + debounce, first + debounce_max), or last + debounce without a positive maximum, so never more than debounce_max after its first trigger |
| EarlyStart.TakesEarlyIff | runner.go:164-219 | In every reachable state a step other than a forced run takes a batch whose timer is not yet due exactly when it is a drain that picks the job or the callback of another timer of the job |
| EarlyStart.StaleHadExpired | runner.go:154-174 | While no callback has dropped an armed timer's entry, an early callback's timer had expired while it was still the job's |
| EarlyStart.DrainCanBeEarly | runner.go:199-211 | Every debounced job of every valid configuration has a run in which a drain takes its batch early |
| EarlyStart.StaleCanBeEarly | runner.go:154-174 | Every debounced job of every valid configuration has a run in which a stale callback takes its batch early |
| EarlyStart.NeverEarlyIff | config.go:43-48 | A valid configuration is safe from early starts exactly when it debounces nothing |
| EarlyStart.NeverForgetsArmedIff | runner.go:164-168 | In a valid configuration no calm run ends with an armed timer that no entry names exactly when it debounces nothing |
| Conservation.StepKeepsBalance | runner.go:106-218 | Every step keeps triggers plus requeues equal to pending plus taken |
| Conservation.StepKeepsLedger | runner.go:106-218 | Every step keeps each taken batch in exactly one place: a goroutine's hands, the run call it was given to, or dropped |
| Conservation.FatesAreFinal | runner.go:179-181 | A batch once given or dropped stays so, and a step drops it only if its job is not in the configuration |
| Conservation.OneCallPerBatch | runner.go:179-217 | No two calls carry the same batch |
| Conservation.TriggerConservation | runner.go:106-218 | Under any interleaving: accepted triggers plus busy requeues are what is pending plus what was taken; every batch is in one hand, given to one run call that records its count and shares it with no other, or dropped; and a dropped one had its job missing from the configuration in an earlier state of the run |
| KnownJobs.NothingIsDropped | runner.go:179-181 | While one configuration stays in force no batch is ever dropped, whatever is switched on or off |
| ChainTree.StepKeepsGrown | runner.go:447-475 | Every step keeps the shape of the tree: a chained call is for its loop's name one level below the owner and carries no count, no name is called twice, no call has two loops |
| ChainTree.SiblingsInOrder | runner.go:464-473 | Siblings are called in listed order, each only after the call before it returned |
| ChainTree.LevelIsDepth | runner.go:470 | The depth a call carries is its distance from the run the chain began with |
| ChainTree.TreeSize | runner.go:447-475 | With at most b names a list, the first d levels below a run hold at most 1 + b + ... + b^d runs |
| ChainTree.ChainBound | runner.go:28-29 | On any graph no call is deeper than 16, nothing hangs more than 16 links below a run, and a run of depth 0 has at most 1 + b + ... + b^16 runs in its tree |
| ChainLists.FiresItsList | runner.go:447-461 | In every reachable state a chain loop has its owner's on_success list if that run succeeded and its on_failure list if it failed or timed out; a returned call owns a loop exactly when that list is not empty and it is less than 16 deep; a canceled, errored or turned away one owns none |
| ChainLists.CallsItsOwn | runner.go:462-473 | A loop's calls are for the jobs its configuration has under the names listed, and of the names it is done with exactly the unknown ones were not called |
| ChainLists.LoopsKeepTheirConfig | runner.go:462 | That configuration is the one in force when the run chained, whatever was loaded since |
| Stranding.DeniedIsCovered | runner.go:331-340 | Whoever is denied leaves its whole queue to a call that will still drain it |
| Stranding.QueueIsCandidates | runner.go:191-198 | The drain looks at exactly the jobs that wait on the finished one |
| Stranding.UndrainedIsCovered | runner.go:199-211 | When a drain takes nothing, whatever waits in its queue waits for another holder |
| Stranding.RequeueKeepsCoverIff | runner.go:334-338 | A requeue strands a trigger of a job exactly when it is that job's and nobody is left to come for it |
| Stranding.StepStrandsIff | runner.go:122-345 | A step strands a trigger of a job exactly when it is the job's requeue with no unfinished timer, no call left to drain its queue and no callback about to start a call that does |
| Stranding.NoStranding | runner.go:122-345 | With one valid configuration, drain mode off and nothing disabled: a run never strands a trigger of a job exactly when none of the job's requeues is late, and runs in which a denial is followed at once by its requeue strand none |
| Stranding.StrandedAtEndIff | runner.go:122-345 | A run ends with a job stranded exactly when it was so throughout or a late requeue of it was never made good |
| LateRequeue.TwoLocksCanStrand | runner.go:331-340 | Every debounced job of every valid configuration has a run of the two-lock code that ends with a pending trigger nobody will come for |
| LateRequeue.NeverStrandsIff | runner.go:331-340 | A valid configuration is safe from stranding exactly when it debounces nothing |
| LateRequeue.RequeuesIff | runner.go:331-340 | Some calm run counts a denied call of the job as a pending trigger exactly when the job is debounced |
| Restarts.LessAhead | runner.go:447-475 | Where no debounced job can chain back to itself, every chain link leaves fewer debounced jobs ahead, or as many and less depth |
| Restarts.AcyclicHasNoLoops | runner.go:28-29 | An acyclic chain graph has no such loop |
| Quiescence.TargetsCost | runner.go:447-461 | The weight of a run covers the chain it starts, however it ends |
| Quiescence.StepDrops | runner.go:164-219 | Every internal step, of a timer, callback, run, drain or chain, lowers the weight |
| Quiescence.ComesToRest | runner.go:164-351 | The steps the runner takes by itself are at most the weight it starts with |
| Delivery.EveryScheduleEnds | runner.go:164-351 | After any start under one configuration, whatever is switched on or off, every run of internal steps is bounded, if no debounced job can chain back to itself |
| Livelock.Travel | runner.go:447-475 | Along any route of chain links, restarts included, there is a run of the runner that ends one call from going on |
| Livelock.LoopNeverRests | runner.go:331-340 | A debounced job that can chain back to itself can be kept going for ever by its own steps |
| Livelock.RestsIff | runner.go:28-29 | The runner comes to rest after every start exactly when no debounced job can chain back to itself within the depth limit counted from the last debounced job |
| Delivery.EveryTriggerIsAnswered | runner.go:184-219 | When a calm run comes to rest a trigger of a job is pending exactly when a late requeue of it was never made good; otherwise, if a debounced trigger of it was accepted, a run of it has acquired after the last one and has returned, finished or failed to write |
| Delivery.EveryScheduleAnswers | runner.go:164-351 | With denial and requeue one step and no debounced job chaining back to itself: after any calm start the internal steps are bounded, and when no more is possible nothing is pending and every accepted debounced trigger was followed by a run that has returned, finished or failed to write |
| Diagram.StepTargets | view.go:203-211 | One list of a node is drawn whole and its targets are nodes no more than a level down, the search's invariant kept |
| Diagram.Downstream | view.go:190-214 | The search ends on every graph, meets each job once, and follows every link of every node below the limit |
| Diagram.WalksAreFound | view.go:190-214 | Every job within 16 links of the focus is a node at a level no higher than the number of links |
| Diagram.ParentTargets | view.go:218-228 | A job that chains into the focus is a node with its edge drawn |
| Diagram.Parents | view.go:217-231 | The pass adds exactly the missing direct parents, on level -1, and all edges into the focus |
| Diagram.ChainDiagram | view.go:171-231 | Nodes from level 0 on are exactly the jobs within 16 links, each at its true distance; beyond them only direct parents; the edges are out-edges of nodes below the limit and edges into the focus, each key once and none missing |
| Diagram.EndsAreNodes | view.go:278-282 | Both ends of every drawn edge are nodes |
| Diagram.DueIsWanted | view.go:199-231 | The edges the search is after are those the configuration calls for: out of jobs less than 16 links away, and into the focus |
| Diagram.EdgesCompleteIff | view.go:182-188 | No edge the configuration calls for is missing exactly when no two of them share a joined key |
| Diagram.EdgesAreTheLists | view.go:199-231 | When keys are distinct the success edges are the on_success links and the failure edges the on_failure links, out of jobs less than 16 links away and into the focus |
| Diagram.KeysTellEdgesApart | view.go:183 | Names without the arrow character make joined keys distinct |
| Diagram.PlainNamesLoseNothing | view.go:182-188 | When no job name has a > in it no edge is missing |
| Diagram.ArrowsCollide | view.go:183 | With the arrow character in names two different edges can have one key |
| Diagram.ArrowsLoseAnEdge | view.go:182-188 | A valid configuration whose drawing lacks an edge, however it is searched |
| DiagramAgreement.WalksStart | runner.go:447-475 | For every job within 16 links some outcomes and schedule make the runner start it by chaining from the focus |
| DiagramAgreement.StartsAreWalks | runner.go:447-475 | Whatever the runner starts by chaining from the focus is within 16 links |
| DiagramAgreement.DiagramAgreesWithRunner | view.go:190-214 | The nodes from level 0 on are exactly the jobs chain() can start from a run of the focus, cycles included, and a node's level is the least number of links that does it |
| Layout.Insert | view.go:246 | The column stays sorted and gains just the new name |
| Layout.LessIs | view.go:246 | The order of the names: a proper prefix, or smaller where they first differ |
| Layout.Arrange | view.go:237-251 | Every node is in the sorted column of its level and nothing else is; the extents bound the columns and are reached |
| Layout.BoxesKeepApart | view.go:253-269 | Every box lies inside the picture with the padding kept, and boxes of different nodes do not touch |
| Layout.ColumnsGoRight | view.go:257-263 | Levels go from left to right, one column and gap each, the lowest at the left padding and the highest at the right one |
| Layout.NamesGoDown | view.go:264-269 | Within a level names go down in order, each one row below the one before |
| Layout.ColumnsAreCentred | view.go:264-269 | The space above a column and below it differ by at most one unit, and the fullest column reaches the padding |
| Layout.EveryNodeHasABox | view.go:290-300 | Every node is drawn |
| LogWriter.CapWriter.Write | logwriter.go:26-47 | The file is the first limit bytes of all writes together, then one notice if some write found or passed the cap; every write reports full consumption |
| LogWriter.DigitsTell | logwriter.go:43 | The number in the notice is the limit |
| LogWriter.OverrunIff | logwriter.go:26-47 | The notice is due exactly when the writes together exceed a positive limit, except when the last write is empty at exactly the limit, and then they differ |
| LogWriter.OverrunMeansTooLong | logwriter.go:26-47 | So without empty writes it is due exactly when the writes together exceed a positive limit |
| LogWriter.EmptyWriteAtTheCap | logwriter.go:27-45 | An empty write at exactly the cap brings the notice although nothing was cut off |
| LogWriter.TimestampWriter.Write | logwriter.go:71-100 | What has been handed down is the stamped form of everything written so far, however it was cut, in no empty piece; every byte is consumed |
| LogWriter.StampedConcat | logwriter.go:71-100 | Stamping does not see how its input was split |
| LogWriter.Log | runner.go:389 | For every sequence of writes the log is the stamped stream, or its first limit bytes and one notice when it is longer; its size is at most the limit and the notice |
| LogWriter.UnstampInverts | logwriter.go:71-100 | With stamps free of spaces and line feeds, dropping each line through its first double space gives the command's output back |
| LogWriter.OneStampPerLine | logwriter.go:76-98 | There is one stamp for each line that was started |
| LogWriter.StampsAreReadings | logwriter.go:76-80 | With such stamps each line has a reading of the clock of its own, in the order of the lines |
| LiveTail.Tail.Tick | web.go:586-608 | A tick keeps what was sent plus what is held equal to what was read without line feeds, leaves no line feed and at most 64 KiB in the buffer, and sends nothing but whole lines unless the buffer grew too long |
| LiveTail.Tail.SplitLines | web.go:593-600 | Exactly the complete lines of the buffer go out, in order, and the open rest stays |
| LiveTail.Tail.Finish | web.go:610-613 | At the end everything read has gone out |
| LiveTail.LinesConcat | web.go:588-600 | Splitting into lines does not see how the bytes arrived |
| LiveTail.LinesGiveTheTextBack | web.go:593-600 | The lines with their line feeds and the open rest are the text, empty lines included |
| LiveTail.Follow | web.go:578-608 | For any ticks on an append-only log each byte read is sent or held once and in order, and if no line exceeds 64 KiB the events are exactly the complete lines read, from which the text can be had back |
| Retention.JobStore.ListRuns | store.go:120-138 | The records of all directories that can be read, each directory once, newest first |
| Retention.RecentIsPrefix | store.go:156-159 | In a newest-first listing the runs not before the cutoff are a prefix |
| Retention.RemovedIffPastKept | store.go:156-162 | The two rules together remove exactly the runs past min(count cap, number of recent runs) |
| Retention.JobStore.Prune | store.go:150-163 | Exactly the directories named by the ids past min(count cap, number of recent runs) go; where every record lies in the directory of its own id, what is left is a prefix of the listing of that length and what could not be read |
| Retention.PrefixStaysIff | store.go:150-163 | What is left lists exactly that prefix when, and only when, the ids name their own directories that far |
| Retention.WellFormedIsSafe | store.go:95-104 | They do when every record lies in the directory of its own id, as writeMeta leaves it |
| Retention.PruningTwiceIsPruningOnce | store.go:150-163 | Pruning again with the same limits removes nothing |

## Left out

- Processes, process groups, signals and pipes in `execute` (runner.go:381-407): a command is one step, and the two reads that decide its status are two more; a failed write of the record or of the log file is the error outcome, which still releases and drains.
- RunnerObject.Runner.Trigger, ForceRun and DrainAfter read the flags and take the lock in one call here; `Protocol` separates the reads from the lock, as the original does.
- `run`, `execute` and `chain` are step functions of `Protocol` instead of methods, because other goroutines act between their steps; the lemmas over whole runs are about those steps.
- Stranding.NoStranding: the unconditional half assumes that a denied call requeues before anybody else moves, which the two locks of runner.go:331-337 do not give; the other half characterises all runs without that assumption.
- Delivery.EveryTriggerIsAnswered: is about runs with drain mode off and no job disabled. Otherwise the call given a batch may come back without a run: `Outcomes.ReturnsUnrunIff` says exactly when.
- LiveTail.Follow: says nothing about completeness at the end of a run, because one tick reads at most 1 MiB before the terminal status is looked at (web.go:588-616).
- LogWriter.CapWriter.Write: the log file never fails here, so the error returns of both writers are not modelled.
- Retention.JobStore.Prune: removal succeeds.
- JobConfig.LoadConfig: reading and parsing the file, the time zone and the notify section are not modelled; durations come parsed, malformed or absent. A bad debounce is reported without saying which of the two it is, since the original goes through them in any order.
- Diagram.ChainDiagram: ends before the SVG text; a graph without edges, for which the original draws nothing, gives one node here.
- Layout.Insert, Retention.InsertByStart: `sort.Slice` is modelled by insertion, which gives one of the orders it may give.
- Integers are unbounded; instants and durations are integers of one unit, and a zero time is an absent map entry.
- Scheduler, HTTP handlers, pages, e-mail, metrics and start-up reconciliation: input and output around the core. A tick or a request is a call from outside.
- The file of disabled jobs (runner.go:259-264): it is saved after the lock is dropped, so it need not agree with memory.
- `Waiting`, `GroupBusy`, `IsRunning`: one-line readers of the maps.
- The history page's sort, bar charts and texts: they would add only easy members.
