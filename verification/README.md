# Canarium, modelled and verified

Canarium is a daemon that shuts a fleet of machines down in stages while the
power is failing, waits for the power to come back, and wakes the fleet again in
dependency order. It may crash at any moment, and so may the machine it runs on;
what it promises has to survive both. This project models the parts that carry
those promises and proves them:

* **The sequence executor.** `tables.dfy` has the rows and statements,
  `disk.dfy` what a process crash and a power cut leave of them (`versions` of
  the database, of which a power cut may lose any that were not yet flushed).
  `machine.dfy` is the executor as a step machine: a step is one look at a
  condition or a locked field, one hand-over to a transport, or one commit with
  the fields set just before it, so a crash or an operator's call can fall between
  any two of them, and the clients of a stage interleave freely.
  `executor_invariant.dfy` and `executor_induction.dfy` prove one invariant of
  every reachable state; `executor_runs.dfy`, `executor_theorems.dfy`,
  `executor_counts.dfy` and `executor_locks.dfy` prove what holds of every run,
  `executor_futures.dfy` what a restart can still do and what a crash can undo,
  `executor_requests.dfy` what becomes of an operator's abort request;
  `executor_witnesses.dfy` gives concrete runs for what does not hold.
  `active_sequence.dfy` and `executor.dfy` are the same executor as a program
  (classes, loops, early returns). It looks outside where the source does, at a
  script of answers; `answers.dfy` says where an answer is asked for and which step
  it leads to, each method is proved to be such a stretch of a run of the machine
  (`paths.dfy`), and `answer_theorems.dfy` has what follows for any answers.
* **Conditions.** `facts.dfy`, `conditions.dfy` and `evaluator.dfy` model the
  three-valued evaluator with its `for:` timers as an object whose methods loop,
  stop early and share timers; `meanings.dfy` says, apart from the evaluator, what
  each kind of condition means. `explain.dfy`, `dwell.dfy` and `sensor_loss.dfy`
  prove that Explain previews Evaluate, what a timer means over a history with
  restarts, and for which conditions losing sensors cannot make them True.
  `derived.dfy` does the same for the `threatened` facts.
* **Dependencies.** `cycles.dfy` is the depth-first search, `plans.dfy` and
  `stage_order.dfy` the tag resolution, the stage checks and the wake order,
  `wake.dfy` and `wake_theorems.dfy` the wake loop; `validated_runs.dfy` ties the
  checks to the executor's runs.
* **The simulator** (`simulator.dfy`, `simulator_theorems.dfy`,
  `simulator_meaning.dfy`), which drives the same fact store and evaluator, and **the failure limiter** (`limiter.dfy`,
  `limiter_bound.dfy`).

## Findings

Some things a reader might expect do not hold. Each of those about the executor
has a concrete run in which it fails, and a theorem over all runs or states that
says exactly when it does; the one about sensors has histories and theorems alike.

* *An abort can be undone by a power cut.* `handleAbort` saves the aborting state
  with an ordinary commit. A power cut can fall back to a version from before it,
  and the resumed sequence then shuts the spared clients down:
  `ExecutorWitnesses.PowerCutUndoesAbort`. Whatever is done after an abort was
  made possible again by some power cut (`ExecutorFutures.AbortIsHonoured`), and a
  power cut lets the sequence act again exactly when the tables it recovers have
  it still shutting down with a client left to command or the post-shutdown action
  due (`ExecutorFutures.AbortUndoneExactly`).
* *An abort the operator asks for wakes nobody.* `handleAbort` says that it hands
  over to the wake plan, but nothing clears the request, so `runWake` finds it at
  the shut gate or before the first client and gives up. Clients already shut down
  stay down, unless a crash loses the request:
  `ExecutorWitnesses.RequestedAbortLeavesClientDown`. The abort path can send a
  wake command exactly when no request is pending and the wake order is not empty
  (`ExecutorRequests.AbortWakesExactly`).
* *A request during a client's turn to be woken does not stop that turn.* The
  request is looked for before the guard period, the command goes out after it,
  and if the boot deadline passes before the next look it goes out again; in the
  last client's turn the sequence then completes, the accepted request forgotten:
  `ExecutorWitnesses.RequestInTurnIsMissed`. After a request a wake command can
  follow exactly when a turn has begun and has attempts left
  (`ExecutorRequests.WokenAfterRequestExactly`), it goes to the client in turn
  (`ExecutorRequests.OnlyTheTurnBegunIsWoken`), and
  `ExecutorRequests.RequestEndsAborted` says exactly when the request is missed.
* *A crash between the terminal save and the lock release leaks the locks for
  good.* `GetActiveSequence` no longer returns the sequence, so nothing releases
  them, and every later sequence skips those clients:
  `ExecutorWitnesses.CrashLeaksLock`, `ExecutorLocks.LeakedLockBlocksForever`.
  A crash leaks exactly when it catches the sequence there, be it a process crash
  or a power cut that recovers a version ending there
  (`ExecutorLocks.LeaksExactlyInTheWindow`).
* *The post-shutdown action can be issued twice.* The comments beside it say
  "exactly once". A process crash between issuing it and saving the flag repeats
  it (`ExecutorWitnesses.CrashRepeatsPost`), and so does a power cut after the
  save, which is not flushed (`ExecutorWitnesses.PowerCutRepeatsPost`). It is
  repeated only after a crash that recovers the sequence as shutting down with the
  flag unsaved (`ExecutorFutures.PostNotRepeated`), and after exactly such a crash
  it can be (`ExecutorFutures.RestartPostsExactly`).
* *A recorded stage can be commanded again after a power cut*, which may lose the
  record: `ExecutorWitnesses.PowerCutRerunsStage`, with the condition in
  `ExecutorFutures.RecordedStageNeverReruns` and
  `ExecutorFutures.RestartCommandsExactly`.
* *Losing a sensor can make a condition True*, although the documentation promises
  that it cannot trigger a shutdown. Evaluation stops early, so losing an operand
  of `and`/`or` can start a timer behind it that would not have been sampled
  (`SensorLoss.LossStartsLaterTimer`), and a timer that a loss resets turns its
  negation True (`SensorLoss.LossUndoesNegatedTimer`). For plain conditions and one
  timer under `and`/`or`, and for a negated timer,
  `SensorLoss.GuardedTimerExactly` and `SensorLoss.NegatedTimerExactly` reduce the
  property over all histories to what the operands can say at one instant. With
  any number of timers it holds whenever every `for:` stands at the root or on the
  first branch with no negation above it (`SensorLoss.SensorLossNeverFires`).
* *A failure limit below two behaves as a limit of two*
  (`Limiters.SmallLimitsAreTwo`), since the threshold is only looked at from the
  second failure on.

## Model

| member | source | states |
|---|---|---|
| Tables.LegalWriteAdvances | internal/state/db.go:156-184 | every write the executor's discipline allows keeps references whole, at most one unfinished sequence, stage records a prefix and the flags in agreement with the phase, and only moves rows, intents and records forward |
| Tables.LegalStage | internal/state/db.go:379-396 | closing the next stage's record extends the recorded prefix by exactly that stage, opening it does not |
| Tables.LegalIntent | internal/state/db.go:360-377 | the upsert keeps an intent's sequence and client, and afterwards the intent is there |
| Tables.LegalOrphan | internal/state/intents.go:108-135 | failing an orphan in one transaction leaves no unfinished sequence |
| Disks.CommitSound | internal/state/durability.go:45-70 | after a legal commit, flushed or not, every version a restart could find is good and versions advance |
| Disks.PowerCutSound | internal/state/durability.go:45-70 | any power cut leaves a sound disk whose content lies between the last flushed and the last committed version |
| Disks.Database.Exec | internal/state/durability.go:45-70 | one statement commits at the connection's current level and nothing else changes |
| Disks.Database.Durably | internal/state/durability.go:45-70 | the write and all before it are flushed, and the level is restored |
| Disks.Database.LockClient | internal/state/db.go:427-446 | the lock is granted exactly to its holder or when free; a refusal changes nothing |
| Machine.ResumeAt | internal/engine/sequence_run.go:93-113 | resume starts at the first stage without a recorded completion |
| ExecutorInvariant.MainFits | internal/engine/sequence_run.go:203-291 | every step of the sequence goroutine writes only what the discipline allows and leaves the live sequence in agreement with the tables |
| ExecutorInvariant.ClientStepFits | internal/engine/sequence_run.go:483-571 | the same for every step of a client goroutine |
| ExecutorInduction.StepKeepsInv | internal/engine/sequence_run.go:203-291 | every step, crash, power cut and restart keeps the invariant |
| ExecutorInduction.RunInv | internal/engine/executor.go:421-493 | every state of every run satisfies it |
| ExecutorRuns.FlushedSurvives | internal/state/durability.go:45-70 | what was flushed is never lost or moved back, through any number of power cuts |
| ExecutorRuns.CommittedSurvives | internal/state/db.go:152-184 | while the power holds, what was committed is never lost or moved back |
| ExecutorTheorems.WriteAheadIntents | internal/engine/sequence_run.go:524-557 | every command ever handed to a transport has its intent and its sequence row in every recoverable database |
| ExecutorTheorems.RecoveredTablesAreWhole | internal/state/db.go:379-416 | every recoverable database is referentially whole, lock holders included, has at most one unfinished sequence, and its recorded stages form an initial segment within the plan |
| ExecutorTheorems.CrossingIsFlushed | internal/engine/sequence_run.go:258-265 | before a client of a point-of-no-return stage is commanded, the crossing is on the disk |
| ExecutorTheorems.PonrSurvives | internal/state/durability.go:108-112 | from then on every recoverable database says it was crossed |
| ExecutorTheorems.PonrIsFinal | internal/engine/sequence_run.go:421-437 | from then on the abort path is never entered and every abort request is refused without effect |
| ExecutorTheorems.CommandSituation | internal/engine/sequence_run.go:441-480 | a command goes out only while the sequence is shutting down, to a known client of the current stage whose lock it holds, with exactly the earlier stages recorded |
| ExecutorTheorems.ShutdownRespectsOrder | internal/engine/sequence_run.go:203-269 | a later stage's client is commanded only once every earlier stage is recorded |
| ExecutorTheorems.PhasesOnlyAdvance | internal/engine/sequence_run.go:75-91 | the saved row never falls back through a stretch of a run, its phase never moves back and a finished row is frozen, exactly when every power cut in between recovers that much |
| ExecutorTheorems.PostSituation | internal/engine/sequence_run.go:271-286 | the post-shutdown action is issued only where the plan has one, with every stage recorded, the flag unsaved and no abort |
| ExecutorTheorems.FinalStateTellsAbort | internal/engine/sequence_run.go:777-784 | a finished row says aborted exactly when the aborted flag is set, in every recoverable database |
| ExecutorFutures.RestartCommandsExactly | internal/engine/sequence_run.go:60-122 | after a crash, until the power fails again, a run that commands a client of a stage exists exactly when the recovered tables have the sequence shutting down, that stage unrecorded and the client known and not locked by another |
| ExecutorFutures.RestartPostsExactly | internal/engine/sequence_run.go:271-286 | after a crash, until the power fails again, a run that issues the post-shutdown action exists exactly when the recovered tables have the sequence shutting down and the flag unsaved |
| ExecutorFutures.NothingAfterShutdownPhase | internal/engine/sequence_run.go:75-91 | once the saved phase has left shutting_down, a command or post-shutdown action follows only after a power cut that recovers it as still due |
| ExecutorFutures.AbortIsHonoured | internal/engine/sequence_run.go:617-633 | the same from the moment an abort is entered |
| ExecutorFutures.AbortUndoneExactly | internal/engine/sequence_run.go:617-633 | after an abort, a power cut lets the sequence act again exactly when what it recovers is still shutting down with a client to command or the action due |
| ExecutorFutures.RecordedStageNeverReruns | internal/engine/sequence_run.go:93-122 | a recorded stage, or one before it, is commanded again only after a power cut that recovers the tables without that record |
| ExecutorFutures.PostNotRepeated | internal/engine/active_sequence.go:88-97 | the action is issued a second time only after a crash, of the process or the power, that recovers the sequence as shutting down with the flag unsaved |
| ExecutorRequests.NoNewStageAfterRequest | internal/engine/sequence_run.go:421-437 | after an accepted abort request, short of a crash, only the stage in hand can still be commanded unless the point of no return is crossed |
| ExecutorRequests.RequestEndsAborted | internal/engine/sequence_run.go:669-709 | short of a crash, that sequence ends other than aborted exactly when the request came once the last client's turn had begun, or there is nobody to wake and the gate was found open |
| ExecutorRequests.RequestFate | internal/engine/active_sequence.go:232-243 | every fate of an accepted request: missed in one of those two ways, the abort path entered, or the wake abandoned, the last only past the point of no return or with no stage left to ask about |
| ExecutorRequests.OnlyTheTurnBegunIsWoken | internal/engine/sequence_run.go:702-764 | after an accepted request the process that accepted it sends wake commands only to the client whose turn had begun |
| ExecutorRequests.OneWakeAfterRequest | internal/engine/sequence_run.go:878-913 | at most one wake command follows an accepted request unless an attempt's boot deadline passes before that attempt looks for it |
| ExecutorRequests.WokenAfterRequestExactly | internal/engine/sequence_run.go:702-764 | with a request pending a wake command can still go out exactly when a client's turn has begun and has attempts left |
| ExecutorRequests.AbortWakesExactly | internal/engine/sequence_run.go:617-633 | from the abort path a wake command can go out exactly when no request is pending and the wake order is not empty |
| ExecutorCounts.CommandsAtMostOncePerLife | internal/engine/sequence_run.go:441-480 | with each client in one stage, a sequence commands a client at most once plus once per resume, hence per crash |
| ExecutorCounts.ResumesNeedCrashes | internal/engine/executor.go:421-493 | there are never more resumes than crashes |
| ExecutorCounts.PostAtMostOncePlusReopenings | internal/engine/sequence_run.go:271-286 | in every run, power cuts included, the action is issued at most once plus once per crash that loses the flag of an issued action, before or after it was saved |
| ExecutorCounts.PostAtMostOncePerLife | internal/engine/sequence_run.go:271-286 | and at most once plus once per resume of that sequence |
| ExecutorLocks.LocksNameTheOwner | internal/engine/sequence_run.go:512-522 | in every recoverable database, every lock names the only unfinished sequence, one whose terminal save is the last thing in it, or one an earlier crash caught between that save and the release |
| ExecutorLocks.LeaksExactlyInTheWindow | internal/engine/sequence_run.go:783-786 | a crash newly leaves a finished sequence's locks behind exactly when the process dies between terminal save and release, or a power cut recovers a version that ends there, with a lock held |
| ExecutorLocks.LeakedLockBlocksForever | internal/state/db.go:427-469 | a leaked lock stays, exactly as long as every power cut still finds it, and its client is never commanded while it does |
| ExecutorWitnesses.PowerCutUndoesAbort | internal/engine/sequence_run.go:617-626 | a run in which an abort is entered, a power cut brings the phase back to shutting_down, and the spared client is commanded |
| ExecutorWitnesses.PowerCutRerunsStage | internal/engine/sequence_run.go:301-370 | a run in which a recorded stage is commanded after a power cut |
| ExecutorWitnesses.CrashRepeatsPost | internal/engine/sequence_run.go:271-286 | a run without power cuts that issues the action twice |
| ExecutorWitnesses.PowerCutRepeatsPost | internal/engine/sequence_run.go:271-286 | a run that issues it again after the flag was saved |
| ExecutorWitnesses.RequestedAbortLeavesClientDown | internal/engine/sequence_run.go:617-709 | a run without crashes in which a client is commanded, the operator aborts, the gate is open and the sequence ends with nobody woken |
| ExecutorWitnesses.RequestInTurnIsMissed | internal/engine/sequence_run.go:702-764 | a run without crashes in which a request is accepted in the last client's turn, two wake commands follow and the sequence completes |
| ExecutorWitnesses.CrashLeaksLock | internal/engine/sequence_run.go:777-828 | a run without power cuts that leaves a client locked by a finished sequence |
| ActiveSequences.ActiveSequence.MarkAborted | internal/engine/active_sequence.go:69-73 | sets the aborted flag and nothing else |
| ActiveSequences.ActiveSequence.MarkPostShutdownRun | internal/engine/active_sequence.go:88-97 | exactly the first caller wins |
| ActiveSequences.ActiveSequence.ConsumeProceed | internal/engine/active_sequence.go:109-120 | reports and clears the request |
| ActiveSequences.ActiveSequence.CrossPonr | internal/engine/active_sequence.go:199-207 | exactly the first caller crosses |
| ActiveSequences.ActiveSequence.RequestAbort | internal/engine/active_sequence.go:232-243 | accepted exactly before the point of no return; a refusal leaves the request as it was |
| Paths.PathContinuesRun | internal/engine/sequence_run.go:203-291 | whatever goes on in one process extends a run of the machine, so every theorem about runs applies to the program |
| Answers.DrivenLeads | internal/engine/sequence_run.go:203-291 | whatever the answers, what they drive is a stretch of a run of the machine |
| AnswerTheorems.AnswersDecide | internal/engine/sequence_run.go:384-437 | at the abort check and in the wait, the answer and the operator's requests alone decide where the sequence goes: condition first, then proceed, abort, timeout |
| AnswerTheorems.GateDecides | internal/engine/sequence_run.go:669-690 | the gate is passed exactly when the answer says it is open, and left otherwise only for a request |
| AnswerTheorems.AnswersSend | internal/engine/sequence_run.go:830-916 | the post-shutdown action goes out exactly outside a dry run, a turn's wake command exactly when the client is neither up nor in a dry run, a retry after an expired deadline, and a turn ends early only on a client that is up or a request |
| AnswerTheorems.DryRunOnlyRecords | internal/engine/sequence_run.go:541-557 | as long as every answer says dry run, no command, post-shutdown action or wake command goes out, through any stretch of the executor's work |
| AnswerTheorems.ShutGateWakesNobody | internal/engine/sequence_run.go:669-690 | as long as no answer says the gate is open, the sequence stays at it or is called off, and nobody is woken |
| Executors.Executor.ShouldAbort | internal/engine/sequence_run.go:421-437 | exactly when the point of no return is not crossed and a request is pending or the plan's abort condition is True |
| Executors.Executor.WaitForStage | internal/engine/sequence_run.go:384-418 | the wait ends on the first answer whose condition holds or whose deadline has passed, or earlier on a proceed or abort: proceed first, abort only if neither condition nor operator says proceed, timeout only if shouldAbort says no as well |
| Executors.Executor.HandleStageTimeout | internal/engine/sequence_run.go:301-370 | hold returns to the same stage without a record, any other policy records the skip and moves on |
| Executors.Executor.EnterStage | internal/engine/sequence_run.go:243-265 | a first crossing is flushed before the stage opens, by steps of the machine |
| Executors.Executor.ShutdownClient | internal/engine/sequence_run.go:483-571 | the client ends done; one intent and, unless it is a dry run, one command go out exactly when the client is known and not locked by another, by steps of the machine |
| Executors.Executor.ExecuteStage | internal/engine/sequence_run.go:441-480 | exactly the commands of the stage's sendable clients, in order and none in a dry run, then the record, by steps of the machine |
| Executors.Executor.PostShutdown | internal/engine/sequence_run.go:271-286 | issued (except in a dry run) then saved exactly when the plan has an action not yet run, otherwise nothing, by steps of the machine |
| Executors.Executor.RunShutdownStages | internal/engine/sequence_run.go:203-291 | the passes made follow one another from the stage it starts at, in the mode the answers say; each leaves exactly its commands and its record in the trace, in order, before anything else; all of it driven by the answers, and unless the daemon stops the sequence ends released |
| Executors.Executor.RunEntered | internal/engine/sequence_run.go:243-269 | a stage whose wait is over sends exactly its commands, none if the answer that ended the wait says dry run, then is recorded |
| Executors.CommandsExactly | internal/engine/sequence_run.go:441-480 | a stage's commands are one for each free client, in order, under consecutive intents |
| Executors.FreeExactly | internal/engine/sequence_run.go:483-522 | a client is free, as often as it is listed, exactly when it is known and not locked by another sequence |
| Executors.Executor.HandleAbort | internal/engine/sequence_run.go:617-633 | the same for the abort path |
| Executors.Executor.ResumeAbort | internal/engine/sequence_run.go:125-131 | the same for an abort continued after a restart |
| Executors.Executor.RunWake | internal/engine/sequence_run.go:669-768 | the gate and the wake loop with its turns are driven by the answers, abandoned on request at the shut gate or before a client's turn; with no open answer nobody is woken |
| Executors.Executor.WaitForGate | internal/engine/sequence_run.go:672-690 | the wake begins at the first answer that finds the gate open; a wait called off took none such |
| Executors.Executor.TakeTurn | internal/engine/sequence_run.go:711-757 | a wake command goes out exactly when the turn's first answer says neither up nor dry run, and at most once more than there are retries |
| Executors.Executor.VerifyWake | internal/engine/sequence_run.go:896-911 | verification ends at the first answer that says expired or up, or on a request |
| Executors.Executor.WakeClient | internal/engine/sequence_run.go:830-916 | at least one command and at most one per attempt; the turn ends by a request, a client that is up, or no attempt left |
| Executors.Executor.CompleteSequence | internal/engine/sequence_run.go:777-828 | terminal save, then release, by steps of the machine |
| Executors.Executor.ReconcileIntents | internal/engine/sequence_run.go:140-200 | afterwards exactly the pending intents of clients no longer known are still pending, by steps of the machine |
| Executors.Executor.FindResumeStage | internal/engine/sequence_run.go:93-113 | finds the stage the machine resumes at |
| Executors.Executor.ExecuteSequence | internal/engine/sequence_run.go:41-57 | a triggered sequence, from its first save to its release, with the passes and traces of its stages as above; in a dry run nothing goes out |
| Executors.Executor.ResumeSequence | internal/engine/sequence_run.go:60-122 | a resumed sequence rejoins by its saved phase and is driven by the answers; in a dry run nothing goes out |
| Facts.SilenceOnlyDegrades | internal/facts/store.go:113-152 | while a source is silent a later refresh only loses readings, and refreshing twice is refreshing once |
| Facts.StaleExactly | internal/facts/store.go:113-146 | whatever else is reported and refreshed, a fact keeps its last value and a refresh finds it stale exactly when it has been silent for more than two poll intervals, of at least a second; one never reported stays unknown |
| Facts.Store.RegisterSource | internal/facts/store.go:24-41 | declares the source's facts and keeps every reading already there |
| Facts.Store.Update | internal/facts/store.go:43-51 | a declared fact becomes good with the new value and time; an undeclared key changes nothing |
| Facts.Store.RefreshQuality | internal/facts/store.go:113-152 | every fact of a polled source is judged by its age, unknown ones and values untouched, in any iteration order |
| Explaining.ExplainPreviewsEvaluate | internal/conditions/explain.go:74-139 | for every tree, store and timers, the explained result is what Evaluate returns at that instant, and after it every condition still explains the same |
| Explaining.ApplyDwellPreviewed | internal/conditions/dwell.go:125-180 | one timer step answers what Explain would and goes unnoticed by it |
| Explaining.EvaluateTwice | internal/conditions/evaluator.go:50-62 | evaluating again at the same instant gives the same answer |
| Evaluators.Evaluator.SetDwellStore | internal/conditions/dwell.go:96-118 | every stored row comes back as credit with no run in progress, in place of any timer it had; other timers stay |
| Evaluators.Evaluator.ResetDwell | internal/conditions/dwell.go:228-240 | that condition's timer and row are gone, no other changes |
| Evaluators.Evaluator.FoldDwell | internal/conditions/dwell.go:125-218 | answer, timer and stored row are those of the one-timer specification |
| Evaluators.Evaluator.Evaluate | internal/conditions/evaluator.go:50-62 | the answer and all timers afterwards are those of the recursive specification |
| Evaluators.Evaluator.EvaluateInner | internal/conditions/evaluator.go:64-202 | the loops stop early exactly where the specification does, so a nested timer is sampled only when reached |
| Meanings.NumericExactly | internal/conditions/evaluator.go:89-121 | True exactly on a good number above, below and equal as asked; Unavailable exactly without one, or when only an equality with a non-number is left |
| Meanings.ContainsExactly | internal/conditions/evaluator.go:123-151 | True exactly when a good list has the member or a good text the stretch; Unavailable exactly without a good value of such a kind |
| Meanings.ShownExactly | internal/conditions/evaluator.go:153-171 | is, is_not and in, in that order, on the printed good value; Unavailable exactly without one or with nothing asked |
| Meanings.KindsAreInferred | internal/conditions/evaluator.go:229-256 | what a condition without a type is, and what the constants and unknown types answer |
| Meanings.AndExactly | internal/conditions/evaluator.go:173-183 | True exactly when every part is, False exactly when some part is, each taken alone, wherever evaluation stops |
| Meanings.OrExactly | internal/conditions/evaluator.go:185-195 | True exactly when some part is, False exactly when every part is |
| Meanings.NotExactly | internal/conditions/evaluator.go:197-202 | the first part turned around, unknown without one |
| Meanings.TimedExactly | internal/conditions/dwell.go:125-180 | with a `for:`, True exactly when the inside is and the timer's credit with its present run reaches it; Unavailable exactly when the inside is |
| Evaluators.Evaluator.ExplainDwell | internal/conditions/explain.go:141-171 | progress and result are read off the timer, which is left alone |
| Evaluators.Evaluator.Explain | internal/conditions/explain.go:74-139 | the whole account of the tree is the one the timers imply; nothing changes |
| Evaluators.NamesParse | internal/conditions/explain.go:173-182 | reading back a printed result gives the result |
| Evaluators.ShownResultIsEvaluated | internal/conditions/explain.go:74-171 | the result shown is what Evaluate would return at that instant |
| Evaluators.ProgressDecides | internal/conditions/explain.go:141-171 | the progress shown is complete exactly when the condition is True, zero while the inside is not, otherwise the credit with the present run; each part shown is what it alone comes to |
| Dwelling.StoredCreditLags | internal/conditions/dwell.go:183-225 | stored credit is at most the live credit and less than one persist interval behind it |
| Dwelling.EvaluateStaysInStep | internal/conditions/dwell.go:144-225 | evaluating any tree keeps every timer that close to its row |
| Dwelling.RestartLosesLittle | internal/conditions/dwell.go:96-118 | a restart after an evaluation brings back no more than was earned and loses less than one interval |
| Dwelling.DwellIsExact | internal/conditions/dwell.go:125-180 | over any history, True exactly when the observation is True and restored credit plus the time since the run began in this process reaches the requirement |
| Dwelling.DwellMeansHeld | internal/conditions/dwell.go:58-69 | True only if the condition provably held that long, exactly then without restarts, and each restart delays it by less than one interval |
| Dwelling.ResetCostsFullDwell | internal/conditions/dwell.go:228-240 | after a reset, through any later observations and restarts, the answers are those of a fresh timer, so True needs the whole requirement proved since |
| Dwelling.ResetForgets | internal/conditions/dwell.go:228-240 | a reset erases everything before it from timer and stored row |
| SensorLoss.DegradedAnswerIsVaguer | internal/conditions/evaluator.go:89-202 | degrading any facts leaves a template-free, dwell-free condition as it was or makes it Unavailable |
| SensorLoss.SilenceNeverFires | internal/conditions/evaluator.go:258-260 | a source going silent cannot turn such a condition True |
| SensorLoss.SensorLossNeverFires | internal/conditions/dwell.go:144-160 | over any trace, a condition whose every `for:` stands at the root or on the first branch, under no negation, is True with lost sensors only if it is True without the loss |
| SensorLoss.PlainIsSteady | internal/conditions/evaluator.go:50-62 | conditions without a `for:`, or with one at the root only, are among them |
| SensorLoss.GuardedTimerExactly | internal/conditions/evaluator.go:173-195 | for plain operands and one timer under `and` or `or`, no history with lost sensors fires alone, exactly unless the timer asks for time, the operands before it can be lost where they decide while what it times holds, and the whole can hang on it |
| SensorLoss.NegatedTimerExactly | internal/conditions/evaluator.go:197-202 | for a negated timer, exactly unless it asks for time and what it times can be lost while it holds |
| SensorLoss.LossStartsLaterTimer | internal/conditions/evaluator.go:173-195 | with a `for:` on a later branch of `and` or of `or`, a history in which the loss makes it True |
| SensorLoss.LossUndoesNegatedTimer | internal/conditions/evaluator.go:197-202 | with a `for:` under a negation, a history in which the loss makes it True |
| Derived.FieldsAreTokens | internal/engine/derived.go:177-183 | a status string's flags are exactly its maximal stretches without white space |
| Derived.FeedThreatened | internal/engine/derived.go:154-188 | a readable status is threatened exactly when it lists a threat flag; an unreadable one is Unavailable |
| Derived.UpsSources | internal/engine/derived.go:125-148 | exactly the sources that declare a status fact, each once, in any iteration order |
| Derived.ClientFeeds | internal/engine/derived.go:114-123 | the listed feeds, or every UPS source |
| Derived.ClientThreatened | internal/engine/derived.go:70-112 | any/all over the feeds, or over all UPS sources when none are listed, unreadable feeds counting only where they make the difference, and then as configured |
| Derived.SensorLossLeansOneWay | internal/engine/derived.go:70-112 | losing sensors only switches the answer off under `safe` and only on under `threatened` |
| Derived.SilenceFollowsConfig | internal/engine/derived.go:102-111 | with every feed silent the answer is the configured assumption |
| Cycles.CycleSearch.HasCycle | internal/config/validate.go:422-440 | while nothing is reported the path marks are exactly the stack and finished nodes are in dependency order; the first report names an edge that closes a cycle |
| Cycles.CycleSearch.Validate | internal/config/validate.go:414-445 | for every graph and iteration order the search ends and reports something exactly when the graph has a cycle |
| Cycles.OrderedIsAcyclic | internal/config/validate.go:414-445 | a graph whose nodes can be listed dependencies first has no cycle |
| Plans.BuildTagMap | internal/config/validate.go:707-715 | each tag maps to the clients carrying it, in declaration order |
| Plans.TaggedMember | internal/config/validate.go:707-715 | exactly the clients carrying the tag are listed |
| Plans.AddedKeepsFirsts | internal/config/validate.go:717-739 | the deduplicated list has each name once, exactly the names given, in order of first mention |
| Plans.ResolveClientRefs | internal/config/validate.go:717-739 | the result is the deduplicated expansion of the references |
| Plans.ResolvedExactly | internal/config/validate.go:717-739 | no repetition, and exactly the clients the references name or tag |
| StageOrder.PlaceClients | internal/config/validate.go:447-459 | silent exactly when no client is in two stages, and then the map gives each client its only stage |
| StageOrder.CheckDependencies | internal/config/validate.go:461-479 | silent exactly when each dependency in the plan has a later stage |
| StageOrder.ValidateStages | internal/config/validate.go:447-479 | silent exactly when no client is in two stages and every dependency in the plan goes down strictly later |
| StageOrder.ComputeWakeOrder | internal/engine/sequence_run.go:1031-1057 | explicit wake stages in order, or the shutdown stages backwards, without repetition |
| StageOrder.WakeOrderIsSound | internal/engine/sequence_run.go:1031-1057 | for a validated plan: no repetition, exactly the plan's clients, every dependency before its dependents |
| ValidatedRuns.ValidatedMeansOneStage | internal/config/validate.go:447-459 | validated plans give each client one stage, as the bound on repeated commands requires |
| ValidatedRuns.DependentsGoDownFirst | internal/config/validate.go:461-479 | in every run of a validated config, across crashes and power cuts, a dependency is commanded only once its dependent's stage is recorded |
| Waking.Clients.SetClientState | internal/engine/executor.go:255-274 | the time kept is that of the last change of state |
| Waking.Clients.DependenciesUp | internal/engine/sequence_run.go:1060-1071 | true exactly when every dependency is up |
| Waking.Clients.WakeTurn | internal/engine/sequence_run.go:711-764 | one turn changes the clients and the clock as specified |
| Waking.Clients.RunWake | internal/engine/sequence_run.go:702-767 | the loop runs up to the first turn that finds an abort, and every turn is the specified one |
| WakeTheorems.StepIsLocal | internal/engine/sequence_run.go:702-767 | a turn touches only its own client, never one that is up, leaves no client newly unverified, and time only advances |
| WakeTheorems.AttemptedExactly | internal/engine/sequence_run.go:729-733 | a known client neither up nor to stay down gets its wake command exactly when every client it depends on is up; otherwise it is failed and no time passes |
| WakeTheorems.PassedOverExactly | internal/engine/sequence_run.go:711-727 | which clients are passed over as unknown, up or retained, exactly, and that nothing changes for them |
| WakeTheorems.AttemptGoes | internal/engine/sequence_run.go:735-764 | the command waits out what is left of the guard period; the attempt's time, the state it ends in and the stagger after it |
| WakeTheorems.GuardIsKept | internal/engine/sequence_run.go:735-757 | an unverified client is woken no earlier than its guard period after it settled, or after the loop began if that was not seen |
| WakeTheorems.GuardWaitsOverlap | internal/engine/executor.go:282-291 | over the whole loop the guard waits add up to at most the largest single guard period |
| WakeTheorems.NoDependencyFails | internal/engine/sequence_run.go:729-733 | in a validated default order with every attempt ending up, no client is failed for a dependency and all end up |
| Simulator.Report | internal/simulate/simulate.go:265-272 | every fact that holds is reported fresh, the others age by the daemon's rule |
| Simulator.BuildStore | internal/simulate/simulate.go:98-143 | fails exactly on an unqualified key, and otherwise declares exactly the timeline's facts |
| Simulator.ApplyDue | internal/simulate/simulate.go:253-263 | the due events are applied, a null silencing its fact |
| Simulator.StageTurn | internal/simulate/simulate.go:294-329 | the stage part of a tick is the specified one, whose meaning over a replay is that of ReplayIsTold |
| Simulator.Run | internal/simulate/simulate.go:218-338 | ends for every plan and timeline, with the result of ticking through it on the real evaluator, whose meaning is that of ReplayIsTold |
| SimulatorTheorems.ReplayIsConsistent | internal/simulate/simulate.go:218-338 | passed stages are a prefix, each in one list in plan order with its clients; abort and crossing exclude each other; stage events precede any abort; completed exactly with one gate event |
| SimulatorTheorems.EachStageOnce | internal/simulate/simulate.go:294-329 | every passed stage stands at a determined place in exactly one of stages and skipped, in plan order, and the two hold nothing else |
| SimulatorTheorems.CrossingIsFirst | internal/simulate/simulate.go:298-304 | a crossing is recorded exactly when such a stage ran, and names the first |
| SimulatorMeaning.ReplayIsTold | internal/simulate/simulate.go:218-338 | every replay is told tick by tick by what its conditions evaluate to on what the timeline implies: which are asked when, and that trigger, stages, skips, abort and gate are reported exactly at the ticks at which they hold or time out |
| SimulatorMeaning.StageRunsExactly | internal/simulate/simulate.go:294-329 | at every tick of a stage's wait its condition was asked, True at none before the last and at the last exactly if it ran; given up exactly when not True and timed out |
| SimulatorMeaning.PlainAnswers | internal/simulate/simulate.go:274-338 | a condition without `for:` says what it says of the readings of that tick alone |
| SimulatorMeaning.HeldIsRead | internal/simulate/simulate.go:265-272 | a fact that holds a value at a tick is read good and fresh with it |
| SimulatorMeaning.SilentIsRead | internal/simulate/simulate.go:265-272 | a silenced fact keeps its last value, stale exactly after more than two poll intervals |
| SimulatorMeaning.HoldingExactly | internal/simulate/simulate.go:253-263 | a fact holds a value exactly when the last event about it says so |
| SimulatorMeaning.DueExactly | internal/simulate/simulate.go:253-263 | the events applied are the first ones up to the first that is not due; in an ordered timeline, exactly those due |
| Limiters.FailureLimiter.CollectGarbage | internal/api/ratelimit.go:133-145 | removes exactly the dead entries, and only when due |
| Limiters.FailureLimiter.Check | internal/api/ratelimit.go:80-102 | reply and entries are the specified ones |
| Limiters.FailureLimiter.Fail | internal/api/ratelimit.go:106-122 | the failure is counted, opening or locking the entry as specified |
| Limiters.FailureLimiter.Forget | internal/api/ratelimit.go:125-129 | the key's history is gone, nothing else changes |
| Limiters.SweepIsUnobservable | internal/api/ratelimit.go:131-145 | for any clock that does not run backwards, every call is answered as if nothing were ever swept |
| Limiters.SmallLimitsAreTwo | internal/api/ratelimit.go:106-122 | a limit below two behaves as two on every trace |
| LimiterBound.TraceAccounted | internal/api/ratelimit.go:80-122 | failures since the last login fall into runs of at most max, a new one beginning exactly when the last has sat out its lockout or its window |
| LimiterBound.LimitIsReal | internal/api/ratelimit.go:80-122 | when each failure follows an allowed check, any 2 * max - 1 consecutive failures of a key without a login take at least a window |
| LimiterBound.RefusedExactly | internal/api/ratelimit.go:80-102 | a check is refused exactly when the failures since the last login end in a run that reached the limit, for the length of the lockout, and the reply says how much of it is left |
| LimiterBound.LoginClears | internal/api/ratelimit.go:125-129 | after a login every call for the key is answered as if it had never been seen |

## Left out

- Transports, sources, probes and MAC discovery: outcomes are the environment's choice (labels of the machine, the `Poll` script of the program, the `Turn`s of the wake loop).
- The HTTP server, sessions, passwords, the web UI and event payloads: plumbing.
- SQL text, migrations and JSON encoding: tables are maps, durability is a list of versions and a flushed mark.
- Database errors: the code logs them and carries on; every call is taken to succeed.
- Sequence and intent identifiers are counters, hence unique; the source builds them from the clock.
- The config is the same after a restart, except that the orphan path may be taken for any unfinished sequence.
- A stopping daemon is a crash: the cancelled branches end a run and a restart resumes it.
- The client_states table and the client states inside the step machine: commands, locks, records and intents do not depend on them; the wake loop models them separately.
- Executors.Executor.ExecuteStage: handles the stage's clients one after another, in the mode of the answer that ended the wait; the interleaving of the goroutines is in the machine, whose theorems cover it, a change of mode between two clients is not.
- Executors.Executor.NextPoll: operator calls arrive where the program polls; the machine lets them arrive between any two steps.
- Executors.Executor.RunWake: whether the client in turn is up or passed over is an answer of the `Poll`; client states and guard periods are in `wake.dfy`.
- Executors.Executor.HandleAbort: the wait for clients still shutting down is left out, since client states are not part of the step machine.
- Executors.Executor.ResumeAbort: the same wait is left out.
- Waking.Clients.WakeClient: retries and boot deadline are one attempt with an end and a duration.
- Waking.Clients.RunWake: nothing but the loop changes a client's state while it runs, so a background probe that finds a client up or down is not modelled.
- The policy loop, mode changes and dry-run bookkeeping outside a sequence: a trigger may fire whenever no sequence runs.
- Template expressions: an opaque function of text and time, excluded from the sensor-loss theorems, since `quality()` and `age()` give definite answers on stale facts.
- SensorLoss.SensorLossNeverFires: with several timers its condition is sufficient, not exact; the exact conditions are those of `GuardedTimerExactly` and `NegatedTimerExactly`, for one timer.
- Numbers are reals: rounding and NaN are not modelled.
- Condition hashes: a timer belongs to the condition tree itself, so equal trees share one and collisions do not happen.
- Duration parsing: durations are nanosecond integers, a `for:` text comes with what it parses to.
- Mutexes: each locked accessor is one atomic step.
- Validation warnings (`after:` preferences, unmatched tags) and the checks on names, sources and conditions: easy members.
- Evaluators.Evaluator.Explain: the fact reading and the echoed fields of the account, and the nil condition, are left out.
- Simulator.BuildStore: the declared types of the facts are left out.
- Derived.UpsSources: computes the list each time and unsorted, where the source caches a sorted one; the answer does not depend on the order.
- Retention: `PruneJournal` (`internal/state/retention.go`) deletes old finished sequences with their intents and stage records. The theorems assume no pruning: after it, intents and rows of long finished sequences are gone from the tables.
- Journal export, doctor checks and YAML loading: easy members or string comparison.
