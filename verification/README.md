# Verification of the agent company's protocols

This project models the core of the agent company operating system and proves what it promises.
Each part is a specification on values and theorems about every run of it, a run being a sequence
of states each one event or command after the one before. Where the program works by changing
things in place, classes and loops are proved against that specification.
`dafny verify dfyconfig.toml` checks everything.

* **Governed writes** (`Governed*.dfy`). An agent's write becomes an immutable intent that is
  decided on, claimed together with a call in one transaction, executed outside any lock, and
  reconciled by the live caller or by recovery. `GovernedCommands` gives every command of one
  workspace's database as a function; `GovernedWorld` adds snapshots and restores that fork
  databases, callers lost in crashes, slow executors, lookups and one remote ledger.
  `GovernedInvariants` to `GovernedWorldPreservation` prove what each step keeps;
  `GovernedSafety` draws the protocol theorems, `GovernedBindings` those on repeated recovery, and
  `GovernedDispatch`, `GovernedApproval` and `GovernedForks` what a snapshot protects;
  `GovernedWitnesses` holds concrete runs for claims that are false; `GovernedStore` and
  `GovernedRuntime` run the commands and the agent loop on mutable state; `GovernedRecovery` and
  `GovernedReport` are the classification of unfinished work.
* **Plans and agents** (`Plans`, `PlanValidation`, `AgentSelection`, `Sorting`). The memoised plan
  validator is proved sound and complete.
* **Lifecycle** (`Lifecycle*.dfy`). The versioned entity store and the service commands on goals,
  tasks, attempts and executions.
* **Orchestration** (`Orchestration*.dfy`). Plans, replans, lineage, delegation accounting,
  dependency order and completion, over any sequence of events and domain commands.
* **Durable store** (`Codec*.dfy`, `Durable*.dfy`). The schema-driven codec with first-match unions,
  and the load, nested command and flush cycle, shown to be one atomic update of record maps
  exactly when records keep their place.
* **Knowledge** (`Knowledge*.dfy`, `Chunking`, `Retrieval`). Chunking, publishing, greedy retrieval,
  its two independent checks, and evidence that is revoked exactly by disabling a source.

Identifiers are numbers, in the order of their text where the program sorts by text. Hashes,
execution keys, chunk ids and digests are the values they are computed from, so they are injective.
Time is an integer. What a model, a planner, an executor, an operator or the operating system
answers is a parameter of the step that receives it.

## Where the code differs from what one might expect

* The fork guarantee covers intents and not actions: an action is committed one transaction before
  its intent (`GovernedWitnesses.BareActionDispatchedTwice`), and until then a snapshot does not protect
  it (`GovernedForks.TwiceDispatchedIffNoIntent`).
* `never_received` is true at the lookup only (`GovernedSafety.NeverReceivedMayChangeIff` says when it
  can still change).
* The codec refuses messages that carry a response, and of the messages only those
  (`CodecMessages.ExactlyResponseMessagesAreRefused`).
* Raw rows written by a nested command survive its caught failure
  (`DurableRefinement.CaughtFailureIsInvisibleIff`); records given other fixed columns, or removed and
  set again, do not reload as executed; a removed domain entity or audit record is silently kept
  (`DurableRefinement.RemovalIsRefusedIffCanonical`).
* Open runs that share an execution but not a reason give it two entries in the report of unfinished
  work, in no fixed order (`GovernedReport.ReportIsUniqueIff`).
* Fact chunks are never split, so a fact longer than a chunk refuses the whole version
  (`Chunking.FactsAreChunkedIffTheyFit`).
* With a clock that moves, a pack can pass the service's deadline check and still be refused by the
  store's (`KnowledgeRetrieval.SelectionFailsOnlyForTimeOrRoom`).

## Model

| member | source | states |
|---|---|---|
| GovernedSafety.ForkNeverClaims | src/agent_company_os/adapters/sqlite_backup.py:156-190 | In every run, a database restored from a snapshot, or from a snapshot of such a copy at any depth, never claims an intent the snapshot contained. |
| GovernedSafety.DispatchedOnceAcrossForks | src/agent_company_os/application/tool_runtime.py:263-309 | Each intent in a snapshot enters an executor at most once, counted over the original database and all its forks. |
| GovernedSafety.HoldsInherited | src/agent_company_os/adapters/sqlite_store.py:108-125 | Every descendant of a snapshot holds every intent the snapshot contained; holds are never lost along a lineage. |
| GovernedWitnesses.BareActionDispatchedTwice | src/agent_company_os/application/runtime.py:294 | The fork property stops at intents: in a concrete run two forks of a snapshot taken between an action and its intent both dispatch the action. |
| GovernedForks.TwiceDispatchedIffNoIntent | src/agent_company_os/application/runtime.py:274-300 | In any reachable world, an action a database could dispatch now, or as soon as a reviewer approves, can, after a snapshot taken now, be entered twice by the family of that snapshot if and only if the database holds no intent for it yet. |
| GovernedDispatch.ReadyClaims | src/agent_company_os/application/tool_runtime.py:167-309 | A request that passes guard, authorization and budget in normal mode on an intent that is not held is claimed: nothing else refuses it. |
| GovernedApproval.ApprovesIn | src/agent_company_os/application/tool_runtime.py:498-569 | Where a request waits for nothing but an approval, asking, approving and resuming make it ready to dispatch, and change no other database, call or history. |
| GovernedSafety.ReceiptsMatchLedger | src/agent_company_os/application/recovery.py:285-376 | A receipt that says observed (or observed failure) implies a ledger row under that call's key with the same payload and the matching status and output. |
| GovernedSafety.OneReceiptPerCall | src/agent_company_os/adapters/runtime_store.py:230-242 | However live reconcile and recovery race, a call has one receipt, and once written it never changes. |
| GovernedSafety.ForksAgreeOnOutcome | src/agent_company_os/adapters/recoverable_fixture.py:62-115 | Forks that reconcile one call separately never record opposite outcomes. |
| GovernedSafety.LedgerRowsArePermanent | src/agent_company_os/adapters/recoverable_fixture.py:62-102 | A ledger row never changes, and no other key ever names the same call. |
| GovernedSafety.PayloadMismatchUnreachable | src/agent_company_os/adapters/recoverable_fixture.py:92-94 | No run reaches the branch that refuses a reused key with another payload. |
| GovernedSafety.NeverReceivedMayChangeIff | src/agent_company_os/application/recovery.py:343-354 | A call the ledger does not know can still be written later if and only if its executor may yet run and has not answered. |
| GovernedWitnesses.WriteFollowsNeverReceived | src/agent_company_os/application/recovery.py:343-354 | A concrete run in which recovery is told the remote received nothing and the remote writes afterwards. |
| GovernedSafety.LedgerRowsWereAuthorized | src/agent_company_os/application/governance.py:161-172 | Behind every ledger row stands a committed claim of that payload and tool whose record was, at the claim, allowed or last approved, not cancelled and not expired. |
| GovernedSafety.ClaimFreezesRecord | src/agent_company_os/adapters/runtime_store.py:139-170 | After a claim, no later step changes the record's decisions, cancellation or claim; only its consumption may still be recorded. |
| GovernedSafety.ClosedIsNeverClaimed | src/agent_company_os/application/governance.py:174-262 | A cancelled, denied, revoked or expired record stays so and is never claimed, so exactly one side of each race wins. |
| GovernedSafety.ReleasedDispatchesOnlyNewIntents | src/agent_company_os/adapters/operational_store.py:64-124 | After a successful quarantine release, every call that database ever claims is of an intent created after the release. |
| GovernedSafety.QuarantineLeftOnlyByRelease | src/agent_company_os/adapters/operational_store.py:137-150 | No step but a release that meets all its conditions takes a database out of restore quarantine, and the release changes nothing else. |
| GovernedSafety.ClaimsNeedNormalMode | src/agent_company_os/adapters/sqlite_store.py:118-125 | Whenever a run claims a governed write, the claiming database is in normal mode and does not hold the intent. |
| GovernedSafety.RefusedResumeWaitsAgain | src/agent_company_os/application/tool_runtime.py:498-569 | A resumption whose dispatch is refused leaves records and calls untouched and the run waiting, so the same intent can be resumed again. |
| GovernedSafety.ReceiptAppliedAtMostOnce | src/agent_company_os/application/tool_runtime.py:359-429 | Over a whole run, one receipt is observed by its agent run at most once. |
| GovernedSafety.ReconcileAppliesAtClaimVersion | src/agent_company_os/application/tool_runtime.py:351-429 | The live caller changes the run only at the version that claimed the call, and then by exactly one observation and one version. |
| GovernedSafety.RepairAppliesAtClaimVersion | src/agent_company_os/application/tool_runtime.py:431-473 | Repair from a durable receipt changes a run only while it is running, pending, before its deadline and at the claiming version. |
| GovernedBindings.RepairIsIdempotent | src/agent_company_os/application/tool_runtime.py:431-473 | Once a receipt has been repaired, any later repair of it, whatever every participant did in between, changes nothing at all. |
| GovernedBindings.RecoveryIsIdempotent | src/agent_company_os/application/recovery.py:260-283 | Recovery repeated at any later time for a call whose receipt recovery has already worked from changes nothing, whatever the remote system now says. |
| GovernedBindings.ReconciledNeedsNoRepair | src/agent_company_os/application/tool_runtime.py:351-473 | What the live caller has reconciled is never changed again by a repair of that receipt, at any later time. |
| GovernedBindings.SpentForever | src/agent_company_os/application/tool_runtime.py:431-473 | A receipt that has nothing left to repair never has again, because parents, registry, run versions, approvals and clock only move forward. |
| GovernedBindings.SettingsMoveForward | src/agent_company_os/adapters/sqlite_store.py:196-247 | In no run does a goal, task, attempt, execution or registration change without a version or revision of its own, or move back. |
| GovernedSafety.SucceededRunsStayResolved | src/agent_company_os/application/runtime.py:347-376 | A succeeded run stays succeeded, and every governed action it has or ever gets is claimed with a successful receipt. |
| GovernedWorldPreservation.StepKeeps | src/agent_company_os/application/tool_runtime.py:167-349 | Every step of every participant keeps the world invariant and only extends what was recorded. |
| GovernedSafety.RunExtends | src/agent_company_os/application/tool_runtime.py:167-349 | In a run, any interleaving of commands, executors, recovery, crashes, snapshots and restores, every world keeps the invariant and extends all earlier ones. |
| GovernedSafety.RunsAreReached | src/agent_company_os/application/tool_runtime.py:167-349 | The worlds of runs are reached by sequences of events; `GovernedSafety.ReachedAreRuns` is the converse. |
| GovernedSafety.ReachedAreRuns | src/agent_company_os/application/tool_runtime.py:167-349 | Whatever a sequence of events reaches is the last world of a run. |
| GovernedPreservation.InvokeKeeps | src/agent_company_os/application/tool_runtime.py:167-309 | A claim commits exactly one new call, with run and record moved in the same transaction, on a record executable at that time; any other outcome claims nothing. |
| GovernedPreservation.GuardedSaveKeeps | src/agent_company_os/adapters/runtime_store.py:127-170 | An accepted save that keeps the record's claim, and its decisions once it is claimed, keeps every database invariant and claims nothing. |
| GovernedPreservation.AcceptedSaveFollows | src/agent_company_os/adapters/runtime_store.py:127-170 | The guards of a save alone make sure that the next version of a record has the same intent, extends the history by one decision at most, reopens nothing that is closed, unsets nothing and moves no claim. |
| GovernedPreservation.FinishKeeps | src/agent_company_os/adapters/runtime_store.py:230-242 | Appending a receipt keeps receipts and settled calls in one-to-one correspondence. |
| GovernedPreservation.RecoverKeeps | src/agent_company_os/application/recovery.py:313-376 | The transaction after a lookup keeps every database invariant and claims no call. |
| GovernedPreservation.RepairKeeps | src/agent_company_os/application/tool_runtime.py:431-473 | Repairing from a durable receipt keeps every database invariant, the single application of each receipt among them, and claims no call. |
| GovernedPreservation.PrepareKeeps | src/agent_company_os/application/governance.py:76-130 | A record that is reused or newly stored is bound to exactly this call's tool and arguments, and storing it keeps the invariant. |
| GovernedPreservation.DecideKeeps | src/agent_company_os/application/governance.py:174-226 | An accepted decision extends its record's history, reopens nothing that is closed and claims nothing. |
| GovernedPreservation.CancelKeeps | src/agent_company_os/application/governance.py:228-236 | An accepted cancellation keeps the invariant: no claimed record is ever cancelled. |
| GovernedPreservation.ExpireKeeps | src/agent_company_os/application/governance.py:238-262 | Recording an expiry extends its record's history, reopens nothing and claims nothing. |
| GovernedPreservation.ConsumeKeeps | src/agent_company_os/application/governance.py:271-283 | Using up an approval touches governed records only, takes back no decision or claim, and keeps the invariant. |
| GovernedPreservation.BeginIterationKeeps | src/agent_company_os/application/runtime.py:200-250 | Claiming an iteration moves one open run on and keeps every invariant about calls, receipts and observations of that run. |
| GovernedPreservation.AppendActionKeeps | src/agent_company_os/application/runtime.py:274-300 | Committing an action keeps all earlier actions, and every record and call still points at its own. |
| GovernedPreservation.AcceptAnswerKeeps | src/agent_company_os/application/runtime.py:305-420 | Accepting an answer keeps the invariant: a run succeeds only with every consequence resolved. |
| GovernedPreservation.EndRunKeeps | src/agent_company_os/application/runtime.py:521-597 | Ending a run leaves nothing pending and changes no ended run. |
| GovernedPreservation.ResumeContextKeeps | src/agent_company_os/application/runtime.py:438-489 | Continuing a waiting run, or failing it past its deadline, keeps the invariant and claims nothing. |
| GovernedReport.Classify | src/agent_company_os/application/recovery.py:53-176 | The list holds exactly the cases of open runs with their attempts and executions, unclaimed intents, calls without a settled and applied receipt, and whatever else is open and not represented, each once, by kind and then id. |
| GovernedReport.ReportIsUniqueIff | src/agent_company_os/application/recovery.py:176 | The sorting key leaves one report if and only if open runs that share an attempt or an execution have the same reason and outcome. |
| GovernedReport.SharedExecutionIsListedTwice | src/agent_company_os/application/recovery.py:78-83 | Two runs of one execution, one of them past its deadline, give the execution two entries that tie. |
| GovernedRecovery.OnlyAwaitingIntentsAreClaimed | src/agent_company_os/application/recovery.py:84-110 | An intent that any caller can claim at a time is one reported as awaiting approval at that time; every other report is a promise that it cannot be claimed then. |
| GovernedRecovery.ConsequentialCallsAreNeverRetriable | src/agent_company_os/application/recovery.py:111-130 | Classification never offers a consequential call for retry. |
| GovernedReport.NothingListedIffNothingLeft | src/agent_company_os/application/recovery.py:53-176 | The report is empty exactly when every run has ended, every intent was claimed, every call's outcome is known and no attempt, execution or orchestration is open. |
| GovernedRecovery.DefiniteLookupResolves | src/agent_company_os/application/recovery.py:355-376 | A definite answer from the remote system leaves the call with a known outcome that is no longer reported as unknown. |
| GovernedRuntime.Runtime.Drive | src/agent_company_os/application/runtime.py:186-436 | A caller that does not own the run is refused without effect; otherwise the model is asked at most as often as iterations remain, the database only moves forward, the run is never left running, and success implies all consequences are resolved. |
| GovernedRuntime.Runtime.Fail | src/agent_company_os/application/runtime.py:521-597 | Ends an open run and settles the attempt, task and execution still open above it; an ended run is left alone. |
| GovernedRuntime.Runtime.CheckConsequences | src/agent_company_os/application/runtime.py:347-359 | Finds whether every governed action of the run has a call with a successful receipt. |
| GovernedRuntime.Runtime.AcceptDecision | src/agent_company_os/application/runtime.py:305-420 | The branch for an answer that is not a tool call, with its completion guard. |
| GovernedStore.Store.DispatchCall | src/agent_company_os/application/tool_runtime.py:263-309 | Run version, call and record move together or the tables are put back. |
| GovernedStore.Store.InvokeTool | src/agent_company_os/application/tool_runtime.py:167-309 | Everything before the executor, step by step with rollback, equals the one-transaction specification. |
| GovernedStore.Store.ReconcileLive | src/agent_company_os/application/tool_runtime.py:351-429 | Settles the live caller's call: the run's state overrides the reply, and stale or ended runs get only the receipt. |
| GovernedStore.Store.RecoverReceipt | src/agent_company_os/application/recovery.py:313-376 | After a lookup: repairs if a receipt exists, writes one for a definite answer, else changes nothing. |
| GovernedStore.Store.FindReceipt | src/agent_company_os/application/recovery.py:303-310 | A linear search finds a call's receipt if and only if there is one. |
| GovernedStore.Store.ResumeApproved | src/agent_company_os/application/tool_runtime.py:498-569 | The transactions of a resumption, run in turn, end as specified, including the return to waiting after a refusal. |
| GovernedStore.Store.ReleaseQuarantine | src/agent_company_os/adapters/operational_store.py:64-124 | Succeeds exactly when authorised, quarantined with provenance, intact, classified and with every intent held. |
| GovernedStore.Store.Quarantine | src/agent_company_os/adapters/sqlite_backup.py:156-190 | A loop over the copied records holds every one of them and then sets quarantine. |
| GovernedStore.RecoverableFixture.Dispatch | src/agent_company_os/adapters/recoverable_fixture.py:62-102 | Every call is counted; only the first request under a key has an effect, and the reply is what the row says. |
| GovernedStore.RecoverableFixture.Lookup | src/agent_company_os/adapters/recoverable_fixture.py:104-115 | Answers unknown if told to, else exactly what the table holds for the key. |
| PlanValidation.ValidatePlan | src/agent_company_os/domain/plan_validation.py:23-64 | Accepts exactly the plans that meet the scalar limits and whose dependency graph is acyclic with no chain longer than allowed; a refusal names the first check that really fails. |
| PlanValidation.Search.Visit | src/agent_company_os/domain/plan_validation.py:50-61 | The memoised recursive search returns the longest chain from a node, or finds a genuine cycle or a chain that is too long; it terminates because ever more of the graph is being visited. |
| PlanValidation.SearchDepths | src/agent_company_os/domain/plan_validation.py:46-64 | Searching every task accepts if and only if the graph is acyclic within the bound. |
| PlanValidation.DepthIsLongest | src/agent_company_os/domain/plan_validation.py:50-61 | One more than the deepest dependency is the length of the longest chain. |
| PlanValidation.AllVisited | src/agent_company_os/domain/plan_validation.py:46-64 | When every node has a memoised depth there is no cycle and no chain beyond the bound. |
| Plans.CycleHasNoLongestChain | src/agent_company_os/domain/plan_validation.py:50-61 | A node on a cycle starts chains of every length. |
| AgentSelection.SelectAgent | src/agent_company_os/adapters/agent_selector.py:14-48 | Answers the most preferred candidate that can serve and is not excluded, or none exactly when none can. |
| AgentSelection.SelectionIsDeterministic | src/agent_company_os/adapters/agent_selector.py:21-48 | Any two correct answers to one question name the same definition version. |
| Sorting.SortBy | src/agent_company_os/adapters/agent_selector.py:47 | Sorting returns the same items, each as often, in key order. |
| Sorting.SortedIsUnique | src/agent_company_os/adapters/lexical_retrieval.py:22 | When only equal items tie, there is one sorted order. |
| LifecycleSafety.StoreIsItsHistory | src/agent_company_os/adapters/in_memory.py:176-238 | In every reachable store an entity's version is one more than its logged transitions, and replaying them, each legal, gives its status. |
| LifecycleSafety.AttemptsFormOneLine | src/agent_company_os/adapters/in_memory.py:119-145 | The attempts of a task are numbered one to n, each linked to the one before, and only number n may be open. |
| LifecycleSafety.AttemptsStayWithinBound | src/agent_company_os/adapters/in_memory.py:132-145 | No execution ever has more attempts than its bound. |
| LifecycleSafety.SatisfiedGoalsStayJustified | src/agent_company_os/application/service.py:127-135 | A satisfied goal has all its tasks completed, in that and every later store. |
| LifecycleSafety.CompletedTasksStayJustified | src/agent_company_os/application/service.py:201-214 | A completed task keeps an attempt that succeeded, in that and every later store. |
| LifecycleSafety.SucceededExecutionsStayEnded | src/agent_company_os/application/service.py:289-303 | A succeeded execution has only ended attempts and never gets another. |
| LifecycleSafety.RunExtends | src/agent_company_os/application/service.py:74-450 | In any run of service commands every store keeps all these invariants, and later stores extend earlier ones. |
| LifecycleSafety.CommandKeeps | src/agent_company_os/application/service.py:74-450 | Each single command, refused or not, keeps them. |
| LifecycleSafety.AddKeeps | src/agent_company_os/adapters/in_memory.py:147-167 | Adding an entity in its initial state, under an active goal or a running execution, keeps histories, references, attempt lines and justifications. |
| LifecycleSafety.SavedKeeps | src/agent_company_os/adapters/in_memory.py:176-238 | Saving the next version of an entity with the transition it logs keeps the store its own history. |
| LifecycleSafety.MoveCommandKeeps | src/agent_company_os/application/service.py:394-450 | Every status change that needs no justification keeps all invariants. |
| LifecycleSafety.CompleteKeeps | src/agent_company_os/application/service.py:201-214 | A task completed by a succeeded attempt of its own stays justified. |
| LifecycleStore.DomainStore.ScanAttempts | src/agent_company_os/adapters/in_memory.py:119-145 | One pass finds how many attempts a task has, whether all have ended, and the latest. |
| LifecycleStore.DomainStore.CreateAttempt | src/agent_company_os/application/service.py:320-360 | Creates the next attempt of a task in progress, within the execution's bound. |
| LifecycleStore.DomainStore.TasksCompleted | src/agent_company_os/application/service.py:127-135 | A loop decides whether there are tasks and all are completed. |
| LifecycleStore.DomainStore.Satisfy | src/agent_company_os/application/service.py:127-135 | Satisfies a goal only when all its tasks are completed. |
| LifecycleStore.DomainStore.Succeed | src/agent_company_os/application/service.py:289-303 | Succeeds an execution only when all tasks are completed and all its attempts have ended. |
| OrchestrationRuns.CanonicalTasksAreFixed | src/agent_company_os/application/orchestration.py:430-499 | Over all plans, replans and materialisations, equal planned ids have the same canonical task and different ones different tasks. |
| OrchestrationRuns.MaterialisedTasksNeverDropOut | src/agent_company_os/application/orchestration.py:332-338 | A task once materialised is in every later materialisation, as the same canonical task. |
| OrchestrationRuns.MaterializingTwiceIsOnce | src/agent_company_os/application/orchestration.py:430-450 | Materialising a version again, at any later time, finds the same tasks and changes nothing. |
| OrchestrationRuns.DelegationsAreAccounted | src/agent_company_os/application/orchestration.py:554-686 | A task's delegations number one plus its retries plus its redelegations, within the policy, and use one definition more than its redelegations. |
| OrchestrationRuns.ModesCountHistory | src/agent_company_os/application/orchestration.py:577-616 | In every reachable state a retry is open exactly while fewer delegations than allowed repeated a definition and the last child failed, a redelegation exactly while fewer than allowed brought in another one and it failed. |
| OrchestrationRuns.AccountsExtend | src/agent_company_os/application/orchestration.py:554-686 | A delegation made under an accepted mode, to an offered agent not excluded by it, keeps every task accounted for. |
| OrchestrationRuns.StartsFollowDependencies | src/agent_company_os/application/orchestration.py:785-796 | Every started task had, and keeps, all dependencies of its plan completed. |
| OrchestrationRuns.StartsUseTheCurrentPlan | src/agent_company_os/application/orchestration.py:761-848 | Whenever a step starts a task, it starts one, under the plan that is current and latest at that moment, where the task is ready and the orchestration running. |
| OrchestrationRuns.ReconcilingTwiceIsOnce | src/agent_company_os/application/orchestration.py:953-960 | Over any run, reconciling the same version of a child again, at any later time and with any verdict, changes nothing. |
| OrchestrationRuns.CompletionStaysJustified | src/agent_company_os/application/orchestration.py:984-998 | A completed orchestration has, in every later state, a satisfied goal whose tasks are all completed, each by a succeeded attempt. |
| OrchestrationRuns.BudgetsHold | src/agent_company_os/domain/orchestration.py:266-279 | Plans and child runs never exceed what the policy allows. |
| OrchestrationRuns.NoDeadlock | src/agent_company_os/application/orchestration.py:509-530 | A running orchestration whose current tasks are all proposed, ready or completed, and not all completed, has a ready task. |
| OrchestrationRuns.OpenChain | src/agent_company_os/application/orchestration.py:509-530 | With nothing ready, an open task starts chains of any length. |
| OrchestrationRuns.ReadyTasks | src/agent_company_os/application/orchestration.py:509-530 | The list holds exactly the ready tasks of the current plan, by priority, then plan order, then id; a run that is not running has none. |
| OrchestrationRuns.RunExtends | src/agent_company_os/application/orchestration.py:257-1007 | In any run of plans, materialisations, delegations, starts, results and domain commands, over any store commands can have built, every state keeps the invariant and extends earlier ones. |
| OrchestrationSafety.AllotKeeps | src/agent_company_os/application/orchestration.py:461-474 | Allotting reuses every known canonical task and creates a fresh one for each other planned task. |
| OrchestrationSafety.PriorCollects | src/agent_company_os/application/orchestration.py:452-460 | The collected lineage holds exactly the entries of all earlier materialisations. |
| OrchestrationSafety.AllottedAgrees | src/agent_company_os/application/orchestration.py:452-474 | A lineage allotted over what was materialised before agrees with all of it. |
| OrchestrationStore.Orchestrator.AcceptPlan | src/agent_company_os/application/orchestration.py:314-365 | Stores one more plan version only for a current goal, a valid proposal and servable tasks, dropping none of the previous plan's tasks. |
| OrchestrationStore.Orchestrator.CollectLineage | src/agent_company_os/application/orchestration.py:452-460 | The loop over earlier versions collects their canonical tasks. |
| OrchestrationStore.Orchestrator.AllotTasks | src/agent_company_os/application/orchestration.py:461-474 | The walk over the plan reuses or creates tasks; the first refusal stops it. |
| OrchestrationStore.Orchestrator.MaterializePlan | src/agent_company_os/application/orchestration.py:430-499 | Materialises the current plan once, all or nothing. |
| OrchestrationStore.Orchestrator.DelegateTask | src/agent_company_os/application/orchestration.py:532-686 | Assigns a ready task to the selected agent, keeping retries with their definition; without a candidate the orchestration waits. |
| OrchestrationStore.Orchestrator.StartChild | src/agent_company_os/application/orchestration.py:761-848 | Claims one more child run for a delegation whose task is still ready, within the run budget, in the execution handed over if it runs for the same goal, else in the orchestration's own or a replacement for it. |
| OrchestrationStore.Orchestrator.ReconcileResult | src/agent_company_os/application/orchestration.py:935-1007 | Counts failures, waits when the budget is spent, and completes only with every task done; a version of a child already reconciled changes nothing. |
| OrchestrationStore.Orchestrator.PlanIsAcceptable | src/agent_company_os/application/orchestration.py:329-331 | Decides by running the validator whether a proposal may be accepted. |
| CodecRoundTrip.RoundTrip | src/agent_company_os/adapters/durable_codec.py:193-276 | Where no option of a union that can be reached from the schema reads what a later one encodes, every well-typed value is encoded and decodes to exactly itself. |
| CodecRoundTrip.KindsApart | src/agent_company_os/adapters/durable_codec.py:215-276 | Schemas that read different kinds of trees, or objects with different keys, never read each other's encodings, so a union of them is unambiguous. |
| CodecRoundTrip.WellTypedIsAccepted | src/agent_company_os/adapters/durable_codec.py:313-318 | On such schemas the self-check never refuses a well-typed value. |
| CodecRoundTrip.DecodeIsSound | src/agent_company_os/adapters/durable_codec.py:215-276 | Only well-typed values accepted by their constructors are ever read, whatever the tree. |
| CodecRoundTrip.KeyOrderIsIrrelevant | src/agent_company_os/adapters/durable_codec.py:279-292 | Sorting the keys of printed objects changes nothing that is read. |
| CodecRoundTrip.AcceptedRecordsReadBack | src/agent_company_os/adapters/durable_codec.py:279-311 | Whatever is accepted for writing reads back, under any key order, as an equal record of its own class, and as no other class. |
| CodecRoundTrip.WellTypedRecordsRoundTrip | src/agent_company_os/adapters/durable_codec.py:279-311 | Well-typed records of unambiguous classes are accepted and read back exactly. |
| CodecRoundTrip.DifferentFieldsNeverShare | src/agent_company_os/adapters/durable_codec.py:268-275 | Classes with different field names never read each other's records. |
| CodecMessages.PartsAreUnambiguous | src/agent_company_os/adapters/durable_codec.py:48-177 | In any registry that holds the message class, everything a message is made of but its payload union is unambiguous, so the round trip applies to it. |
| CodecMessages.ResponseReadsAsInformation | src/agent_company_os/domain/communication.py:125-153 | A response payload encodes like an information payload, which is tried first and read instead. |
| CodecMessages.ExactlyResponsesAreRefused | src/agent_company_os/domain/communication.py:125-153 | Of the five message payloads the codec refuses exactly the responses; every other one is accepted and reads back as itself. |
| CodecMessages.ExactlyResponseMessagesAreRefused | src/agent_company_os/domain/communication.py:240-285 | Of the well-typed messages the codec refuses exactly those that carry a response; every other one is written and reads back as itself under any key order. |
| DurableStore.CodecIsLossless | src/agent_company_os/adapters/durable_codec.py:313-318 | The codec's self-check makes whatever it writes read back as an equal value, for any schema. |
| DurableRefinement.SuccessReloadsExecuted | src/agent_company_os/adapters/sqlite_store.py:455-493 | After a successful transaction whose loaded records keep their fixed columns, a later load returns the executed containers: same keys, same order, gap-free sequences, stored audit records unchanged, every other value as its encoding reads back. |
| DurableRefinement.ReloadsIffFixedKept | src/agent_company_os/adapters/sqlite_store.py:766-867 | For the adapters' transactions that holds if and only if no record that existed before was given another workspace or parent. |
| DurableRefinement.ReloadsIffPlaced | src/agent_company_os/adapters/sqlite_store.py:521-636 | A collection reloads as expected if and only if its loaded keys kept their places and their fixed columns, and its stored audit records their values. |
| DurableRefinement.CommitReloads | src/agent_company_os/adapters/sqlite_store.py:766-867 | A flush of placed containers reloads as those containers, in all collections together. |
| DurableRefinement.TypedValuesReloadExactly | src/agent_company_os/adapters/sqlite_store.py:521-636 | Well-typed values of schemas that lead to unambiguous classes only come back exactly and not only equal. |
| DurableRefinement.FailureChangesNothing | src/agent_company_os/adapters/sqlite_store.py:455-493 | A failed outermost transaction leaves the database as it was, raw rows included. |
| DurableRefinement.CaughtFailureLeavesNoTrace | src/agent_company_os/adapters/sqlite_store.py:461-467 | A nested command that fails and is caught might as well not have been called, as far as the record containers and all that follows are concerned. |
| DurableRefinement.RawWritesSurviveNestedFailure | src/agent_company_os/adapters/sqlite_store.py:461-467 | For every command that fails and is caught, and whatever follows: the transaction commits when it would without the command, with the same rows, and with the raw writes of the command beside them. |
| DurableRefinement.CaughtFailureIsInvisibleIff | src/agent_company_os/adapters/sqlite_store.py:461-467 | A caught failure leaves no trace at all if and only if each raw write of the command is written again later or was there before. |
| DurableRefinement.TransactionForgetsFailureIff | src/agent_company_os/adapters/sqlite_store.py:455-493 | So does a whole transaction, unless it fails anyway. |
| DurableRefinement.MovedRecordReloadsIffLast | src/agent_company_os/adapters/sqlite_store.py:766-867 | A record removed and set again moves to the end of its container but not of its table: in a container of any length that reloads as executed if and only if it was the last one and kept its fixed columns. |
| DurableRefinement.RemovalIsRefusedIffCanonical | src/agent_company_os/adapters/sqlite_store.py:766-867 | Where everything can be encoded, a removed record refuses the flush exactly in the canonical collections; domain entities and audit records are silently still there. |
| DurableRefinement.DisciplinedKeeps | src/agent_company_os/adapters/sqlite_store.py:455-493 | Commands that only set, append and replace leave containers whose earlier keys keep their places and whose earlier audit records are unchanged, whether they succeed or fail. |
| DurableRefinement.RunsStaySound | src/agent_company_os/adapters/sqlite_store.py:455-493 | After any run of transactions, failed ones among them, the database loads the containers of the last one that committed. |
| DurableGroup.CompareAndSwap | src/agent_company_os/adapters/sqlite_store.py:845-852 | An update changes the row of its key if and only if that row still carries the version (or revision) seen at load, and that row alone. |
| DurableGroup.FlushEntry | src/agent_company_os/adapters/sqlite_store.py:834-865 | One entry is skipped, refused, updated or inserted as its row requires. |
| DurableGroup.FlushCollection | src/agent_company_os/adapters/sqlite_store.py:766-867 | Entry by entry the flush writes exactly the specified rows or refuses; a swap never fails inside a transaction that holds the write lock. |
| DurableGroup.StoreGroup.Execute | src/agent_company_os/adapters/sqlite_store.py:455-493 | Nested commands with container snapshots do what the specification of nesting says. |
| DurableGroup.StoreGroup.LoadAll | src/agent_company_os/adapters/sqlite_store.py:495-636 | Replaces all containers by what the rows hold, or none. |
| DurableGroup.StoreGroup.FlushAll | src/agent_company_os/adapters/sqlite_store.py:766-867 | Flushes every collection or reports the failure of one. |
| DurableGroup.StoreGroup.Transaction | src/agent_company_os/adapters/sqlite_store.py:455-493 | An outermost transaction on mutable state is the atomic transaction of the specification. |
| Chunking.ChunkContent | src/agent_company_os/domain/chunking.py:17-69 | The nested loops terminate and return exactly the specified chunks or error. |
| Chunking.ChunksConserveText | src/agent_company_os/domain/chunking.py:25-44 | The chunks of a text hold exactly its non-whitespace characters in order; each is a non-blank, unpadded stretch of the text within the limit, numbered without gaps. |
| Chunking.TextIsRefusedIffTooManyChunks | src/agent_company_os/domain/chunking.py:37-40 | Plain text is refused exactly when it makes too many chunks, and with that error. |
| Chunking.FactsAreChunkedIffTheyFit | src/agent_company_os/domain/chunking.py:20-44 | Facts become one chunk each, in order, exactly when there are few enough and each fits a chunk; the error says which failed. |
| Chunking.CutIsLatestBreak | src/agent_company_os/domain/chunking.py:28-32 | A paragraph too long for one piece is cut at the last blank or line end in reach, and inside a word only if there is none. |
| Chunking.ParagraphsHaveNoBreak | src/agent_company_os/domain/chunking.py:25 | No paragraph holds a blank-line break. |
| Chunking.ParagraphsKeepInk | src/agent_company_os/domain/chunking.py:25 | Splitting into paragraphs drops whitespace only. |
| Chunking.ChunksAreNumbered | src/agent_company_os/domain/chunking.py:41-69 | Ordinals count up from zero, ids are distinct, and every chunk is bound to its source version and within bounds. |
| Chunking.SplitParagraph | src/agent_company_os/domain/chunking.py:26-38 | The inner loop yields exactly the specified pieces, or stops because there are too many. |
| Retrieval.SelectionPassesTheCheck | src/agent_company_os/application/knowledge.py:263-294 | Whatever is eligible, the greedy answer passes the independent check of the service. |
| Retrieval.CheckPassesIffAcceptable | src/agent_company_os/application/knowledge.py:280-294 | The check accepts exactly answers of authorised, scored candidates with distinct keys and no source over its share. |
| Retrieval.SelectionIsMaximal | src/agent_company_os/adapters/lexical_retrieval.py:27-40 | No skipped candidate could be added to the answer without breaking a bound. |
| Retrieval.ChosenIsInOrder | src/agent_company_os/adapters/lexical_retrieval.py:22-40 | The answer keeps the ranking order. |
| Retrieval.BestCandidateIsChosenIffItFits | src/agent_company_os/adapters/lexical_retrieval.py:27-36 | The best-ranked candidate comes first exactly when it fits the bounds by itself. |
| Retrieval.RankingIsDeterministic | src/agent_company_os/adapters/lexical_retrieval.py:15-22 | With one candidate per position in a source, the ranking is unique. |
| Retrieval.Rank | src/agent_company_os/adapters/lexical_retrieval.py:15-22 | Ranks exactly the overlapping candidates by score, source and ordinal. |
| Retrieval.ChooseBounded | src/agent_company_os/adapters/lexical_retrieval.py:23-40 | The loop with its running key set, counts and size makes the specified choices. |
| Retrieval.Retrieve | src/agent_company_os/adapters/lexical_retrieval.py:10-41 | Returns the greedy selection of a ranking, with the number ranked and whether any was left out. |
| Retrieval.ValidateResult | src/agent_company_os/application/knowledge.py:263-294 | The loop reports the first complaint, or none. |
| Retrieval.Score | src/agent_company_os/adapters/lexical_retrieval.py:20-21 | A score lies above zero and at most one, and is one exactly when every query word occurs. |
| KnowledgeSafety.EvidenceIsLostIffASourceIsDisabled | src/agent_company_os/application/knowledge.py:320-336 | After any commands, a run's active evidence is refused exactly when a cited source has been disabled; publishing newer versions never revokes it. |
| KnowledgeSafety.CitedFactsWerePublished | src/agent_company_os/application/knowledge.py:338-346 | Every fact a run may cite is a fact of a published version of a source in its scope and workspace. |
| KnowledgeSafety.HistoriesHaveNoGaps | src/agent_company_os/adapters/knowledge_store.py:79-120 | A source's versions are numbered from one to its current one, at most twenty, and a workspace never has more than a hundred sources. |
| KnowledgeSafety.RunInv | src/agent_company_os/adapters/knowledge_store.py:79-188 | Any sequence of publishing, disabling, saving and run changes keeps the store invariant. |
| KnowledgeSafety.CommandKeeps | src/agent_company_os/adapters/knowledge_store.py:79-188 | Each single command keeps it. |
| KnowledgeRetrieval.SelectionFailsOnlyForTimeOrRoom | src/agent_company_os/application/knowledge.py:206-223 | A query that reaches selection fails only for time or room: it succeeds exactly when the deadline is ahead at both readings and some prefix of the evidence fits the budget, and then the longest such prefix is saved. |
| KnowledgeRetrieval.FixedClockLeavesOnlyRoom | src/agent_company_os/adapters/knowledge_store.py:139-188 | With a fixed clock the pack that survives trimming always passes the store's own re-check, and saving it keeps the invariant. |
| KnowledgeRetrieval.TrimKeepsLongestFit | src/agent_company_os/application/knowledge.py:213-219 | Trimming keeps the longest prefix of candidates whose pack fits, or none. |
| KnowledgeRetrieval.EligibleIsBounded | src/agent_company_os/domain/knowledge.py:275-294 | At most 2560 candidates are eligible, one per position of a source, each citable by the run. |
| KnowledgeRetrieval.AnswersAreDeterministic | src/agent_company_os/adapters/lexical_retrieval.py:10-41 | Two answers to one query over the same store are the same. |
| KnowledgeService.KnowledgeStore.Publish | src/agent_company_os/adapters/knowledge_store.py:79-120 | Publishes the next version of an active source with the chunks its content yields; a refusal changes nothing. |
| KnowledgeService.KnowledgeStore.SavePack | src/agent_company_os/adapters/knowledge_store.py:139-188 | Saves a new pack only after re-checking limits, scope and every candidate. |
| KnowledgeService.KnowledgeStore.CheckEvidence | src/agent_company_os/adapters/knowledge_store.py:159-187 | The loop with its running key set and counts reports the first complaint. |
| KnowledgeService.KnowledgeStore.CollectEligible | src/agent_company_os/application/knowledge.py:194-205 | Collects the chunks of active, trusted sources, or refuses for a missing one. |
| KnowledgeService.KnowledgeStore.TrimToBudget | src/agent_company_os/application/knowledge.py:213-219 | The loop drops last candidates until the pack fits. |
| KnowledgeService.KnowledgeStore.Query | src/agent_company_os/application/knowledge.py:164-228 | A query is refused without effect or answered, saved and made the run's active evidence, all together. |
| KnowledgeService.KnowledgeStore.ReadActivePack | src/agent_company_os/application/knowledge.py:320-336 | Re-checks the active pack candidate by candidate. |

## Left out

- Audit events, metadata, metrics, inspection projections, serialisation exports, operator sessions, messages and memory review: single-guard rules that would only add easy members.
- HTTP, browser, command line, seeding and load measurement.
- SQL text, files, migrations, PRAGMAs and fault injection after a commit: a database is tables in a value, a write lock is the atomicity of a step, a backup is a copy.
- Relationship, foreign-key and workspace-column validation over the whole loaded database, and the limits of its inspection views.
- JSON text and timestamps: the codec works on trees; printing and parsing, and the checks of primitive types, are parameters.
- Field lengths, labels and regular expressions, except where chunking and retrieval depend on them.
- Several workspaces in the governed protocol: a backup refuses any other number than one.
- Organisation rules: an arbitrary yes or no in the governed protocol, an arbitrary filter on candidates in delegation.
- GovernedStore.Store.ResumeApproved: its transactions are run with nothing between them and one reading of the clock; interleaving between them is covered by the world's separate steps.
- GovernedRuntime.Runtime.Drive: knowledge, memory and configuration re-checks inside an iteration are not modelled, other than as a model that gives no answer; a cancelled caller and a parent already cancelled, which end the run as cancelled instead of failed, are the `EndRun` command with its flag.
- Retry policies of read-only executors and the text limits of their output: an executor answers anything or fails.
- Orchestration cancellation as one command: it is a sequence of domain commands and child changes, which runs may contain in any order.
- OrchestrationStore.Orchestrator.ReconcileResult: the aggregator's verdict is a parameter.
- The parallel width of delegations: the program checks it for initial delegations only, so no bound on it is claimed.
- Knowledge ingestion before normalised content exists, the word splitting and case folding of queries, and the rendered length of candidates and packs, which are arbitrary functions; scores are rational and not rounded.
- KnowledgeService.KnowledgeStore.Query: the active-parents check of the run is a parameter, and the run keeps only the fields evidence depends on.
- The structured-content binding between a version's facts and its JSON text.
