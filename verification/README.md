# Builda: the execution protocol, its scheduler, store, logs, parameters and import

Builda runs operator-defined jobs on a fleet of agents. One **controller** keeps
a persisted queue of executions; each **agent** keeps a durable journal of what
it accepted, was permitted to start, started and finished; the two talk over
HTTP requests that may be lost, arrive late or arrive twice. This project models
that system in Dafny and proves what it is built to guarantee.

| files | models |
|---|---|
| `Model`, `Transitions` | executions, the persisted state, every controller mutation as a function, the controller's invariant |
| `Snapshot`, `Callbacks`, `ControllerStore`, `Controller` | the same in its imperative form: shared execution objects, callbacks that assign fields of a cloned state, clone - run - persist - commit, restart |
| `AgentMachine`, `AgentInvariant`, `Orphan` | the agent: every journal save, controller call and process event is one step, a crash can fall between any two |
| `Protocol`, `ProtocolInvariant`, `ProtocolHistory`, `ProtocolTheorems` | controller, agents and channel as one state machine, its inductive invariant, and the theorems over whole runs |
| `Scheduler`, `SchedulerLoop`, `QueueReasons`, `Fairness`, `LexOrder` | `scheduleOnce`, its loops, the reasons shown for waiting items, bounded bypass |
| `LogTransport`, `LogFlush`, `LogHandlers` | the log offset protocol, its upload loops, and any number of overlapping log handlers |
| `ProtocolLogs` | the protocol together with the logs it carries |
| `Environment`, `Parameters`, `Resolution`, `Rerun` | parameter validation and resolution, the process environment, running again |
| `ImportOrder`, `Import`, `ImportCommit`, `ImportBundle` | importing legacy history |
| `History`, `RunQueue`, `RunnerHistory`, `LegacyRunner` | history pruning and the single-slot legacy runner |

How the protocol is modelled:

* A request that was ever sent can be processed at any later time, any number of
  times or never; an answer reaches only the call that is still waiting for it,
  or nobody. `SubmitResult` looks at the owner before it takes the store lock,
  so the check and the mutation are two steps with anything in between.
* A mutation that cannot be saved changes nothing, so it is the same as a step
  that does not happen. A controller restart forgets the requests in progress
  and re-reads log offsets from the log files.
* An agent may crash in any state, reboots with its journal, and finds the
  scripts it had started still running or not. `live` holds the started scripts
  whose leader process runs; the agent learns about them only by probing the
  process table.
* `used`, `granted`, `resolved`, `launches` and an agent's `sent` and `leaders`
  are history: nothing in the system reads them.
* Clocks are arguments. Only the bounded-bypass result asks for an increasing
  one.
* Fixed operator messages are told apart by constructors of `Text`, not spelled
  out; free text from agents and operators is kept.

Where a promise needs a condition, the condition is stated and shown to be
exact:

* "SUCCESS means the script ran" is not kept by the controller alone:
  `UnpermittedSuccessExactly` says when a success is recorded without a permit.
  `SuccessMeansLaunchedOnce` needs the agents of this repository.
* "At most one truncation notice": the handler checks for truncation, measures
  and writes in separate steps, so requests that overlap can leave more.
  `LogHandlers.SecondNoticeExactly` says when: exactly when a request that was
  let in before the log was marked measured the file after a notice, and its
  chunk reached past the file's end. `SecondNoticeHappens` is such a run for
  every cap and notice. Even then only notices follow the cut, and an accepted
  log is whole or cut (`ProtocolLogs.AcceptedLogIsComplete`).
* "A failed import leaves the log directory as it was" needs target names no log
  was kept under: `UnstagingUndoes` states it as an equivalence.
* `flushLog` trusts an acknowledged offset at or past the end of the local log:
  `FlushStoresEverything` says exactly when the whole log ends up stored.

## Model

| member | source | states |
|---|---|---|
| ProtocolTheorems.AtMostOnceStart | agent.go:131-220 | in every state of every run - lost, late and repeated requests, crashes between any two journal saves, restarts, requeues - no execution's script has been launched twice by any agents |
| ProtocolTheorems.SuccessMeansLaunchedOnce | agentexec.go:122-155 | a SUCCESS record (of a run that was not imported) means exactly one launch, by the agent on record |
| ProtocolTheorems.LaunchedByGrantee | agent.go:156-186 | only the holder of the start permit ever launches a script |
| ProtocolTheorems.LiveMeansRunning | agentupload.go:225-256 | while a launched leader is alive the controller has the run RUNNING or CANCELING with that agent, unless an operator resolved it |
| ProtocolTheorems.HostMutualExclusion | ctrlsched.go:154-163 | no agent host has two live scripts, across crash and recovery, unless an operator resolved one of them |
| ProtocolTheorems.SlotsExclusive | ctrlsched.go:34-52 | in every reachable state an agent owns at most one ASSIGNED, RUNNING or CANCELING execution |
| ProtocolTheorems.StartsAlone | agent.go:301-333 | a script starts only on an agent whose single open execution it is, so an agent waiting for an operator starts nothing |
| ProtocolTheorems.SpoolKeptUntilFinal | agentupload.go:114-174 | an agent drops a journal entry, and with it the local log, only when the controller's record is final or gone |
| ProtocolTheorems.CompletionsAreReal | ctrlagentops.go:319-345 | a permitted run ends only by its own agent's result, sent after the script was over, or by an operator |
| ProtocolTheorems.HandlerIsOwners | ctrlagentops.go:299-353 | although the locked half of SubmitResult does not look at the owner again, what it applies to an open permitted run is its owner's |
| ProtocolTheorems.PermitIsForever | ctrlagentops.go:109-147 | once granted, a permit is never withdrawn or revoked, the owner never changes and the execution is never queued or assigned again |
| ProtocolTheorems.CanceledBeforePermitNeverStarts | ctrlqueue.go:75-116 | an execution that ended without a permit was never launched and never will be |
| ProtocolTheorems.VerdictIsFinal | ctrlstate.go:249-257 | status, exit code, finish time, owner and error of a finished run are never rewritten in any run |
| ProtocolTheorems.SnapshotIsImmutable | ctrlstate.go:48-60 | what was captured at enqueue never changes, and a run that is gone never comes back |
| ProtocolTheorems.RunIsLater | ctrlstore.go:136-156 | any later state of a run respects every earlier one: permits, verdicts, ids and launches are permanent |
| ProtocolHistory.StepMoves | ctrlstore.go:136-156 | every step is a mutation in which survivors evolve lawfully, followed by pruning of finished runs; only a result or an operator ends a permitted run |
| ProtocolHistory.PermitsContinue | ctrlagentops.go:112-147 | permits go only to open executions and are never taken back |
| ProtocolInvariant.NextKeeps | api_agentproto.go:12-64 | the invariant over controller, agents, pending results and launch history is kept by every step of the system, every mutation of the controller included |
| ProtocolInvariant.AgentStepKeeps | agent.go:105-220 | every agent step, with the controller as it is, keeps the system invariant |
| ProtocolInvariant.ApplyKeeps | ctrlagentops.go:319-345 | a result that reaches the store lock late or again keeps the invariant |
| ProtocolInvariant.PermitKeeps | ctrlagentops.go:112-147 | granting, refusing or repeating a permit keeps the invariant and the answer is true |
| ProtocolInvariant.PermitAnswerIsTrue | ctrlagentops.go:122-140 | "granted" is answered only to the holder of the permit, and a refusal only when the run is over or already this agent's |
| ProtocolInvariant.ReconcileKeeps | ctrlagentops.go:64-107 | reconciling with any reported list, however old, keeps the invariant |
| ProtocolInvariant.ScheduleKeeps | ctrlsched.go:164-246 | scheduling on any view of liveness, however stale, keeps the invariant |
| ProtocolInvariant.AssignmentIsFresh | ctrlagentops.go:13-38 | a delivered assignment is one the agent has neither launched nor reported |
| ProtocolInvariant.NeverLaunchedBefore | agentexec.go:122-145 | at the moment of a launch no agent has ever launched this execution |
| ProtocolInvariant.RestartKeeps | ctrlstore.go:61-88 | a controller restart keeps the invariant |
| ProtocolInvariant.TruncateKeeps | ctrlagentops.go:279-295 | marking a log as truncated, at any time, keeps the invariant |
| ProtocolInvariant.RaiseOffsetKeeps | ctrlstore.go:252-261 | recording a log offset in memory keeps the invariant |
| AgentInvariant.InvStep | agentjournal.go:73-85 | what each journal phase proves is kept by every agent step, wherever it crashes and whatever fails to be saved |
| AgentInvariant.LaunchIsFirst | agentexec.go:122-145 | the only launching step happens with the intent journaled, the permit held, and neither launch nor result before |
| AgentInvariant.SpoolOutlivesExecution | agentupload.go:164-172 | a journal entry disappears only for an execution closed at the controller |
| AgentInvariant.JudgeOk | agentupload.go:225-256 | judging what a crash left behind keeps what every journal phase proves |
| AgentInvariant.RecoveryIsSound | agentupload.go:225-256 | recovery reports ABORTED only for a leader that is gone, kills only one whose recorded token is its own and escalates everything else |
| AgentInvariant.UndecidedIsFresh | agent.go:131-153 | what the controller has not decided is untouched at the agent |
| Orphan.VerdictIsSound | agentproc.go:97-143 | "ended" implies the leader is gone, "owned" that the recorded leader is alive with the recorded token |
| Orphan.VerdictIsExact | agentproc.go:97-143 | exactly which records and probes give each verdict |
| Transitions.EffectsKeepInvariant | ctrlqueue.go:75-116 | permit, cancel, result, attention and resolve keep the execution's invariant (QUEUED iff unowned, terminal iff log complete, granted and revoked never both) and give nobody a slot |
| Transitions.UnpermittedSuccessExactly | ctrlagentops.go:319-345 | a success without a permit is recorded exactly when one is submitted for an open run that was not permitted yet |
| Transitions.ReconcileKeepsInvariant | ctrlagentops.go:72-97 | requeueing and escalating keep the execution's invariant and free or keep the slot |
| Transitions.PointwiseAdvances | ctrlstore.go:136-156 | rewriting executions in place keeps ids unique and every survivor's history |
| Transitions.DropAdvances | ctrlstore.go:306-330 | pruning keeps the invariant and removes finished executions only |
| Transitions.DeleteAdvances | ctrlstore.go:264-283 | deleting removes exactly the named finished execution |
| History.DropIsSelection | ctrlstore.go:318-328 | pruning removes exactly the finished entries of rank below the excess and keeps every other entry in order |
| History.PruneMeetsCap | ctrlstore.go:306-330 | at most cap finished entries remain, nothing unfinished goes, a list within the cap is untouched, and pruning again changes nothing |
| History.DropPartitions | ctrlstore.go:318-328 | kept and pruned entries together are the list, and only finished ones are pruned |
| History.PickedIsDropped | runner.go:195-209 | compaction by kept positions is the same list as dropping |
| Snapshot.StateData.Clone | ctrlstate.go:159-171 | the clone has the same value and shares no execution object |
| Snapshot.StateData.Find | ctrlstate.go:184-191 | the first execution with the id, or none |
| Snapshot.StateData.Prune | ctrlstore.go:306-330 | the copying loop computes the pruned list and reports the removed ids in order |
| Snapshot.StateData.Backfill | ctrlstore.go:93-114 | the ledger gains the missing row of every execution that carries its origin, first occurrence first |
| Snapshot.StateData.ReadLogOffsets | ctrlstore.go:77-84 | offsets are taken from the log files that exist |
| ControllerStore.ControllerStore.Commit | ctrlstore.go:136-156 | saved: live state and file are the sealed clone; not saved: live objects, their contents and the file are as before |
| ControllerStore.ControllerStore.Complete | ctrlstore.go:136-156 | a callback error or a failed save leaves live state and file untouched, and the error says which |
| ControllerStore.ControllerStore.SetMaxHistory | ctrlstore.go:166-175 | an unchanged cap writes nothing; otherwise the state is pruned to the new cap if it can be saved |
| ControllerStore.ControllerStore.SetLogOffset | ctrlstore.go:252-261 | only a larger offset is recorded, in memory only |
| ControllerStore.ControllerStore.Restart | ctrlstore.go:61-88 | a restart rebuilds the state from the file, and reproduces a ledger-bearing state up to log offsets |
| ControllerStore.LoadReproduces | ctrlstore.go:61-88 | loading what a ledger-bearing state left on disk gives that state up to log offsets, which come from the log files |
| ControllerStore.BackfillCovers | ctrlstore.go:90-114 | backfilling keeps every row, covers every origin and keeps keys unique |
| Callbacks.Permit | ctrlagentops.go:114-142 | the callback grants exactly once and answers what the record says |
| Callbacks.CancelOne | ctrlqueue.go:82-115 | the branches of Cancel on the status |
| Callbacks.FinishOne | ctrlagentops.go:328-344 | a requested cancellation turns any result but a success into CANCELED; the whole new record |
| Callbacks.ResolveOne | ctrlqueue.go:185-198 | an operator's resolution aborts an open run and only clears the flag of a finished one |
| Callbacks.ReconcileRuns | ctrlagentops.go:70-101 | the loop requeues or escalates exactly the unknown open runs of the agent and collects exactly those it acted on |
| Callbacks.ReconciledIsAll | ctrlagentops.go:97-99 | nothing is reported exactly when nothing changed |
| Callbacks.DeleteRun | ctrlstore.go:265-277 | the loop removes the first match if finished, and otherwise says why not |
| Callbacks.MarkTruncated | ctrlagentops.go:280-290 | the callback sets the flag of the execution once |
| Controller.Controller.GrantPermit | ctrlagentops.go:112-147 | clone, grant, persist, commit: the state and file afterwards, and that no permit is answered when the save failed |
| Controller.Controller.Reconcile | ctrlagentops.go:64-107 | the acknowledged state after reconciling, and the ids acted on in order, or none when the save failed |
| LexOrder.SortedIsOrdered | ctrlagentops.go:105 | sorting gives the same ids in order |
| Controller.Controller.Cancel | ctrlqueue.go:75-125 | cancellation followed by scheduling; an error leaves the state alone |
| Controller.Controller.ResolveAttention | ctrlqueue.go:176-208 | resolution followed by scheduling; an error leaves the state alone |
| Controller.Controller.SubmitResult | ctrlagentops.go:299-353 | the answer in every case (unknown, not the owner, bytes missing, invalid status, not saved, confirmed) and the state after each |
| Controller.Controller.ReportAttention | ctrlagentops.go:357-373 | the owner's alert on an open run is recorded or refused with its reason |
| Controller.Controller.MarkLogTruncated | ctrlagentops.go:279-295 | the flag is committed, nothing is done when it is set, and a missing execution is an error |
| Controller.Controller.DeleteExecution | ctrlstore.go:264-283 | deletion through the store |
| Controller.Controller.ScheduleOnce | ctrlsched.go:164-246 | the saved matching, or nothing at all |
| Controller.RescheduledIsSchedule | ctrlsched.go:237-243 | after scheduling, the state is the scheduled one if it could be saved and the one before otherwise, also when nobody could be served |
| Controller.Controller.AppendRun | ctrlqueue.go:51-61 | the new execution gets an id no stored execution has and is appended if it can be saved |
| Scheduler.QueueIsFirstComeFirstServed | ctrlsched.go:198-206 | the queue holds every schedulable execution once, in request order, ties by position |
| Scheduler.GreedyIsTheFairPlan | ctrlsched.go:208-236 | the loop computes the one plan that gives items distinct capable free agents and passes an agent over only for an earlier item or an agent first in the fairness order |
| Scheduler.ScheduleIsTheFairOutcome | ctrlsched.go:164-246 | an outcome on the executions is fair (only queued items move, at most one per free agent, labels covered, no inversion, least choice) if and only if it is the one scheduleOnce computes |
| Scheduler.FairOutcomeSettles | ctrlsched.go:154-163 | nothing left queued can run on an agent left free |
| Scheduler.ScheduleIsIdempotent | ctrlsched.go:237-243 | a second call changes nothing |
| Scheduler.ScheduleKeepsInvariant | ctrlsched.go:154-163 | slots stay exclusive whatever fleet the caller looked at |
| SchedulerLoop.ComputeOccupancy | ctrlsched.go:34-52 | the maps hold exactly the busy and the blocked agents |
| SchedulerLoop.FreeAgents | ctrlsched.go:180-194 | exactly the available agents that are neither busy nor blocked, with their last assignment times |
| SchedulerLoop.FirstCandidate | ctrlsched.go:219-226 | the least candidate by last assignment, then id, in any order of map iteration |
| SchedulerLoop.ServeQueue | ctrlsched.go:208-236 | the loop over the queue, with its early exit, assigns exactly the greedy plan |
| SchedulerLoop.ScheduleRuns | ctrlsched.go:179-241 | the whole callback on the clone: the fair assignment and the stamped times, or no state change |
| Fairness.BoundedBypass | ctrlsched.go:208-235 | with an increasing clock an agent that stays available and free is passed over, before it is chosen, at most once per other agent |
| Fairness.PassersWereAhead | ctrlsched.go:219-225 | whoever passes an agent over was not assigned later than it |
| QueueReasons.ExplainQueued | ctrlsched.go:114-152 | the one-pass flags give the reason the fleet as a whole implies |
| QueueReasons.ReadyMeansCandidate | ctrlsched.go:123-126 | READY is said of exactly the items scheduleOnce has a candidate for |
| QueueReasons.ReasonsAgreeWithScheduler | ctrlsched.go:111-152 | the earliest READY item is assigned by the next scheduleOnce and afterwards no queued item is READY |
| LogTransport.LogFile.AppendLog | ctrlagentops.go:182-249 | duplicate, overlapping, gapped and capped chunks: the file, the flag, the offset and the acknowledgement |
| LogTransport.AlwaysFaithful | ctrlagentops.go:173-181 | with requests handled one at a time the stored log is at every step a prefix of the local log, followed by at most one truncation notice |
| LogTransport.StoredLogIsStable | ctrlagentops.go:177-181 | stored bytes are never rewritten, and a truncated log is frozen |
| LogTransport.ConfirmedLogIsComplete | ctrlagentops.go:297-314 | a confirmed untruncated result means the stored log is the whole local log, and no chunk under way can change it |
| LogHandlers.AloneIsAppend | ctrlagentops.go:182-249 | a handler that nothing interrupts does what AppendLog does to file, flag and offset |
| LogHandlers.OverlapIsFaithful | ctrlagentops.go:182-249 | however any number of handlers overlap, fail or are lost, the file is a prefix of the local log within the cap, or the local log cut at the cap and followed by notices; the flag is set over a cut log only |
| LogHandlers.PayloadKeepsShape | ctrlagentops.go:206-232 | a payload planned at an earlier size, into a file that may be truncated by now, still writes the agent's bytes and nothing past the cap |
| LogHandlers.NoticeKeepsShape | ctrlagentops.go:233-238 | a notice repeats the one after those its handler saw, or adds one |
| LogHandlers.FileOnlyGrows | ctrlagentops.go:173-181 | stored bytes are never rewritten, whatever overlaps |
| LogHandlers.HandlerHistory | ctrlagentops.go:190-212 | every handler was let in before the log was marked and measured later |
| LogHandlers.SecondNoticeExactly | ctrlagentops.go:190-237 | there is a second notice if and only if some request was overtaken: let in before the mark, measured after a notice, with a chunk past the end of the file |
| LogHandlers.NoticesAreWritten | ctrlagentops.go:233-238 | there are never more notices than handlers that wrote one |
| LogHandlers.SecondNoticeHappens | ctrlagentops.go:190-237 | for every cap, notice and long enough chunk, handling it twice at once can leave two notices |
| LogHandlers.SettledStays | ctrlagentops.go:297-314 | a log that is whole when its result is compared stays as it is, whatever handlers are still under way |
| ProtocolLogs.AfterKeeps | agent.go:188-220 | every step of protocol, agents' logs, handlers, measuring and comparing keeps the combined invariant |
| ProtocolLogs.StoredLogIsTheGrantees | ctrlagentops.go:182-188 | in every run of the whole system the controller's log of an execution is a copy of the local log of the one agent it was granted to: a prefix, or cut at the cap |
| ProtocolLogs.AcceptedLogIsComplete | ctrlagentops.go:297-345 | in every run of the whole system a permitted run that ended by its agent's result has its whole local log on the controller, or one cut at the cap |
| LogFlush.FlushLog | agentupload.go:47-94 | at most one rewind and 1 + ceil(L/524288) uploads, no attempt limit reached while ceil(L/524288) is at most 9998, the offset at the end, and the whole log stored unless truncated |
| LogFlush.FlushStoresEverything | agentupload.go:58-68 | against an untruncated log the flush stores everything exactly when it starts short of the end or nothing was missing |
| LogFlush.CompleteExecution | agentupload.go:114-163 | at most two rounds of flush and submit, after which the result is confirmable and an untruncated log complete |
| LogFlush.UploadedNext | agentupload.go:81-92 | every upload makes progress, so the loop never spins |
| Environment.SanitizedIsClean | paramenv.go:128-140 | exactly the entries that are not a BUILDA_ variable survive |
| Environment.SortedEnv | paramenv.go:142-154 | every variable once, in strictly increasing order of names |
| Environment.BuildExecutionEnv | agentexec.go:34-50 | the inherited environment without BUILDA_ variables, then identity and unreserved parameters |
| Environment.BuildaNamesOccurOnce | agentexec.go:30-50 | no BUILDA_ name has two entries in the built environment |
| Environment.ParamNamesAreApart | paramenv.go:18-28 | no parameter variable is reserved and all carry the stripped prefix |
| Parameters.EnvCollisionChecker.Add | paramenv.go:117-126 | refuses exactly reserved and already owned names |
| Parameters.AddNames | paramenv.go:83-105 | accepts a parameter exactly when its names are apart from each other and from all before |
| Parameters.CheckCollisions | ctrlvalidate.go:166-206 | the collision check accepts exactly the jobs whose declarations all produce different variables |
| Parameters.ParseCanonical | ctrlvalidate.go:349-358 | canonical boolean text is read back as the same boolean |
| Parameters.BooleanWords | ctrlvalidate.go:349-358 | exactly the words that are read as true and as false |
| Resolution.ResolveParameters | paramresolve.go:41-121 | the resolution is a function of job, configuration and query, in whatever order maps are iterated |
| Resolution.CheckQuery | paramresolve.go:46-56 | accepts exactly declared names given at most once, "wait" aside |
| Resolution.WriteFields | paramresolve.go:93-101 | the loop over an option's fields writes every field under its own name in any order |
| Resolution.ChoiceIsFixpoint | paramresolve.go:65-105 | a resolved value resolves to itself, through trimming, defaults and boolean normalisation |
| Resolution.CollisionFreeIsUnique | ctrlvalidate.go:178-181 | collision-free parameters have distinct ids |
| Rerun.EnvironmentIsLossless | paramresolve.go:65-105 | every parameter and every field of a selected option is under its own variable with its own value, the display label too unless a field is named "label", and nothing else is there |
| Rerun.ScriptSeesEveryVariable | agentexec.go:43-49 | every resolved variable reaches the script with its value |
| Rerun.ScriptSeesEachNameOnce | agentexec.go:43-49 | for a validated job no BUILDA_ name occurs twice, whatever was inherited |
| Rerun.VariablesAreClean | paramenv.go:58-81 | variables of validated identifiers contain no "=" and are never reserved |
| Rerun.ParameterValuesToQuery | paramresolve.go:205-221 | the query holds exactly the non-empty stored values |
| Rerun.RerunParameters | ctrlqueue.go:149-172 | refuses exactly when a non-empty stored parameter is no longer declared, and otherwise resolves the stored values |
| Rerun.RerunIsFixpoint | ctrlqueue.go:146-172 | under an unchanged validated configuration a rerun resolves to the same values, environment, options and working directory |
| ImportOrder.SortedIsStable | migrate_import.go:76-81 | the bundle is looked at in order of request time and id, and entries of one rank in the order of the bundle |
| Import.PlanImports | migrate_import.go:73-148 | in that order the plan takes exactly the first occurrences of finished, unknown, mappable runs, under fresh distinct ids; imported, skipped and existing add up to the bundle |
| Import.PlannedKeysAreNew | migrate_import.go:90-109 | planned keys are distinct and not in the ledger |
| ImportCommit.ImportRows | migrate_import.go:183-212 | the callback adds every row or names the first conflict, then checks the cap |
| ImportCommit.AcceptedAppends | migrate_import.go:184-199 | an accepted batch appends exactly the planned executions and their rows |
| ImportCommit.CommitPrunesNothing | migrate_import.go:200-211 | a committed import prunes nothing |
| ImportCommit.ImportedExactlyOnce | migrate_import.go:38-46 | over any sequence of imports, mutations and restarts at most one execution is created per machine and legacy run; the ledger only grows, with unique keys |
| ImportCommit.RequestsKeepLedger | ctrlstate.go:97-99 | permits, cancellations, results, alerts, resolutions and truncation marks leave the ledger alone and make no imported run |
| ImportCommit.ReconcileKeepsLedger | ctrlagentops.go:64-107 | reconciling leaves the ledger alone and makes no imported run |
| ImportCommit.ScheduleKeepsLedger | ctrlsched.go:164-246 | scheduling leaves the ledger alone and makes no imported run |
| ImportCommit.EnqueueKeepsLedger | ctrlqueue.go:51-61 | an enqueued run carries no origin, and the pruning it causes leaves the ledger alone |
| ImportCommit.DeleteKeepsLedger | ctrlstore.go:232-241 | deleting an imported run does not make it importable again |
| ImportBundle.StageLogs | migrate_import.go:158-179 | all logs staged, or everything created removed again |
| ImportBundle.ApplyImports | migrate_import.go:150-218 | success: batch, rows and logs; failure: state and file as before and the staged files gone |
| ImportBundle.UnstagingUndoes | migrate_import.go:159-165 | clean-up restores the directory exactly when no created name was there before |
| ImportBundle.CleanedUpMeansUnchanged | migrate_import.go:43-46 | with ids no log was kept under a failed import leaves the directory as it was |
| ImportBundle.ImportFitsExactly | migrate_import.go:225-245 | planned against the current state, an import commits exactly when the cap holds the finished runs there are and the planned ones |
| ImportBundle.RepeatedImportIsEmpty | migrate_import.go:38-41 | repeating a committed import plans nothing, also after prunes and deletes |
| RunQueue.DispatchKeeps | runner_exec.go:48-76 | dispatch restores the invariant: the slot is used whenever something is queued, and names the one running run |
| RunQueue.StartKeeps | runner.go:83-117 | start keeps the runner's invariant and the cap |
| RunQueue.FinishKeeps | runner.go:250-280 | finish keeps the runner's invariant and hands the slot on |
| RunQueue.CancelKeeps | runner.go:282-313 | cancel keeps the runner's invariant |
| RunQueue.DeleteKeeps | runner.go:225-248 | delete keeps the runner's invariant |
| RunQueue.LoadEstablishes | runner.go:119-164 | a reload aborts what was running and establishes the invariant |
| RunQueue.FinishKeepsVerdicts | runner.go:250-280 | finishing one run and dispatching the next changes no finished run |
| RunQueue.StartKeepsVerdicts | runner.go:83-117 | starting changes no finished run |
| RunQueue.CancelKeepsVerdicts | runner.go:282-313 | cancelling changes no finished run |
| RunQueue.DeleteKeepsVerdicts | runner.go:225-248 | deleting changes no other finished run |
| RunQueue.LoadKeepsVerdicts | runner.go:119-164 | a reload changes no finished run it reads and brings in no other run |
| RunnerHistory.RunnerThroughout | runner.go:83-313 | after any sequence of starts, finishes, cancellations, deletions, cap changes and reloads the runner's invariant and the cap hold |
| RunnerHistory.FinishedRunsAreFinal | runner.go:83-313 | in any such sequence a finished run never changes, and a run that is gone never comes back |
| RunQueue.Cancelable | runner.go:290-306 | cancel acts on exactly the queued and running runs |
| RunQueue.DeletedIsGone | runner.go:225-248 | a deleted run is gone |
| RunQueue.Deletable | runner.go:225-234 | delete acts on exactly the finished runs |
| LegacyRunner.Runner.MoveKept | runner.go:195-209 | the loop that writes the kept runs over the list it is reading keeps exactly the right entries and index |
| LegacyRunner.Runner.PruneHistory | runner.go:180-211 | in-place compaction gives the list of the copying version, and the index still holds exactly the listed runs |
| LegacyRunner.Runner.DispatchLocked | runner_exec.go:48-76 | the first queued run in list order takes the free slot |
| LegacyRunner.Runner.Start | runner.go:83-117 | start on list, index and slot |
| LegacyRunner.Runner.Finish | runner.go:250-280 | finish, through the index, on the run the list shares |
| LegacyRunner.Runner.Cancel | runner.go:282-313 | cancel, and exactly when it returns true |
| LegacyRunner.Runner.Delete | runner.go:225-248 | delete shifts the list down in place and drops the index entry |
| LegacyRunner.Runner.SetMaxHistory | runner.go:71-81 | an unchanged cap does nothing; otherwise the list is pruned |
| LegacyRunner.Runner.constructor | runner.go:45-62 | a new runner loads, aborts what was running, prunes and dispatches |
| LegacyRunner.CompactedIsConsistent | runner.go:195-209 | dropping while compacting keeps list and index in agreement |

## Left out

- HTTP routing, JSON and YAML, the command line, the web UI, authentication, sessions, service units and workspace path resolution on the agent: plumbing around the modelled core.
- Liveness: after a crash between the acceptance of a result and its journaling the agent resends a closed log and is answered 409 for ever, and a requeued assignment that is refused is retried without delay. Only safety is stated.
- The agent's loops (agent.go, agentupload.go, agentexec.go) are one step relation instead of methods over fields, because a crash may fall between any two of their saves; `FlushLog` and `CompleteExecution` are the loops themselves. Heartbeat and cancellation signals inside a running script are covered by a script that may exit at any time with any outcome.
- LogTransport.LogFile.AppendLog: one request at a time; overlapping requests and failing handlers are in `LogHandlers`. `ProtocolLogs` leaves open whether the checks for the owner and for a closed log pass, because its results hold either way. A write that stores only part of its bytes and a cap changed between two chunks are not modelled.
- LogTransport.AlwaysFaithful: one request at a time, where the notice is unique; `LogHandlers.OverlapIsFaithful` has the general case.
- ProtocolLogs.AcceptedLogIsComplete: a log file is not removed with its execution, and a removed spool is remembered.
- LogFlush.FlushLog: the local log does not grow during the flush and the channel delivers; a failing upload ends the flush with its error.
- LegacyRunner.Runner.Finish: for the active run only, because the goroutine of that run is its only caller; the function itself would rewrite a finished run.
- LegacyRunner.Runner.Start: the random id is not in use; the source does not look.
- RunnerHistory.FinishedRunsAreFinal: every save succeeds; after a failed one, which is only logged, a reload goes back to the list saved last. Random ids are not drawn twice.
- Parameters.CheckCollisions: labels, scripts, timeouts and defaults of a job are validated too and add only easy members.
- `resolveHistoricalParameters` differs from the modelled resolution by keeping retired values; how a legacy run maps to an execution is an argument of the import.
- Empty (nil) entries of persisted lists, which no operation of the controller creates.
- Reused execution ids, wiped or shared spools, host power loss, and a save that reports an error after the file was replaced.
- The order in which agent views are listed; `Executions` and other read-only listings.
- Snapshot.StateData.Clone: an execution object is a reference to one record, and `AgentState` objects are a map from agent id to last assignment time. That maps, slices and agent states inside them are copied too (ctrlstate.go:127-157) holds by construction; what is proved is that no execution object is shared.
