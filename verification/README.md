# Solvio: models and proofs

Dafny models of five cores of Solvio, with proofs of what their documentation and tests
promise, over every run, every input and every crash.

**Agent runtime** (`src/solvio/agent_runtime`). Runs live in a durable ledger; plan, cursor,
budget and the one approval slot are volatile. A tick coroutine walks over a list of open
runs that may be stale by the time it reaches one; cancel and resume arrive at any await; the
process may die between any two durable writes.

- `RunLedger`, `RunBudget`: the transition table, the step rows with
  UNIQUE(run_id, seq, attempt), the counters and the loop brake.
- `AgentSteps`: one run, cut at its awaits. Each function is one stretch of code that runs
  without interruption; it says what is written, in which order, and what is then waited for.
- `AgentWorld`: all runs, the contexts, the slot and the tick, moved by events, a death after
  any number of writes of any event among them. Planner replies, router outcomes, approval
  readings, specialist results and luck with disk, clone and clock are unconstrained inputs.
- `AgentInvariant`, `AgentStretches`, `AgentVisits`, `AgentGrowth`, `AgentSafety`: the
  invariant, stretch by stretch, and that every event keeps it.
- `AgentRows`, `AgentEndings`: what each stretch makes of the rows, the plan, the run and its
  context, said by outcomes and proved of the stretches; `AgentSettled`, `AgentOutcomes`,
  `AgentPlans`: the same in every reachable world and over every history: where a settled row, an
  end and a plan come from.
- `AgentTheorems`, `AgentClosing`, `AgentSuccess`, `AgentTermination`, `AgentRestart`,
  `AgentCalls`, `AgentDoom`, `AgentLimits`: what follows over whole histories, and exactly where
  promises end; `AgentHistories`: concrete histories in which they do.
- `AgentOrchestrator`, `AgentRuntime`: the same code in its own form:
  classes for ledger, approval queue, run context, orchestrator and runtime, changed in place
  and proved to do what the value-level stretches and events say.
- `PendingStarts`: approved starts that outlive the conversation.

**Development autopilot** (`src/solvio/autopilot`). `MilestoneMachine` (states, readiness,
parking), `LeadVerdict` (the check of the lead's reply, and the leases around it),
`BuilderChoice` (capacity and routing), `MilestoneLedger` (a ledger with an owner who answers
and stops between any two of the driver's steps, and a journal of every durable state),
`AutopilotDriver` (the driver's methods in place), `ReadyExactly` (what READY amounts to).
The lead's text is adversarial; the theorems are that no text makes a red gate READY, and that
READY is reached only on a text that says so.

**Background jobs** (`src/solvio/background`). `SubmitProtocol` (messages that are lost,
doubled by resending, or late, against a node that remembers idempotency keys),
`BackgroundManager` (the manager in place).

**Payment sandbox** (`scripts/payment_sandbox.py`). `PaymentSandbox` (every interleaving of
the handlers, a refund cut at its await, a guard that may have seen an older scenario),
`SandboxService` (the handlers in place).

**Kernels.** `Resampler` (`src/solvio/audio/resample.py`), `ResultFrame` and `TestGate` (the
framed result channel and the verdict of the test gate, `scripts/run_tests.py` and
`scripts/_test_worker.py`).

A ledger is a sequence or map with atomic writes. A death is modelled at each write: a stretch
carries the list of durable states it passes through (`trail`, `journal`), and the theorems
cover every prefix. Theorems are about `After(cfg, INITIAL, events)` for an arbitrary sequence
of events.

## Where the code differs from what it announces

The models follow the code.

- An expired approval is announced as asked again, a taken slot as waited for, and a boundary
  as resumable (`src/solvio/agent_runtime/orchestrator.py:868-884`, 602-612, 1171-1182). The
  second entry into the step meets UNIQUE(run_id, seq, attempt), and the run ends FAILED
  (`AgentDoom.ReentryFails`). Each of the three leads there, in every reachable state, and never
  to a success (`AgentDoom.NoSuccessAfterLapse`, `AgentDoom.NoSuccessAfterSlotWait`,
  `AgentDoom.NoSuccessAfterBoundary`; a history of each: `AgentHistories.ALapseEndsFailed`,
  `AgentHistories.ASlotWaitEndsFailed`, `AgentHistories.ABoundaryEndsFailed`).
- "Nothing is silently booked as a success after a restart" (orchestrator.py:1189-1193): a
  research run killed before it was planned is (`AgentLimits.EmptySuccess`). That the whole
  plan was executed is claimed of runs whose plan is still in memory
  (`AgentSuccess.SuccessMeansPlanDone`).
- The reaping of orphaned children (orchestrator.py:1222-1242) is never reached: the child is
  recorded together with the final state of its row (`AgentSafety.NothingToReap`).
- CREATED runs count as active and block each other: one is started exactly when no more runs
  are active than allowed (`AgentLimits.StartsExactly`), so more CREATED runs than that never
  start, whatever the others do (`AgentLimits.AdmissionDeadlock`). Termination is therefore
  counted in advances of a run, not in ticks.
- An exception of the router on the approved call leaves the tick, and the call is made again
  (`AgentHistories.ARaiseCallsTwice`); at most once needs a router that returns
  (`AgentTheorems.AtMostOnce`).
- A capability may still be called for a run cancelled after the tick has read it
  (`AgentHistories.ACancelledRunIsCalled`): APPROVED leads to the call whether or not the run has
  ended (`AgentCalls.CallsAreReadings`). It is one call at most (`AgentCalls.OneLateCall`), and
  none without an approval (`AgentCalls.AskedNoMore`).
- Remembering an order again under the same request replaces its row. If it had been taken, it
  is attempted again (`PendingStarts.RetakenRunsAgain`), and only then
  (`PendingStarts.AtMostOnce`).
- `park` opens its boundary before the edge is checked; wherever the move is refused, out of
  TESTING or after an owner's stop for instance, the boundary is left behind
  (`MilestoneMachine.ParkExactly`). The machine alone does not compare commits
  (`MilestoneMachine.StaleReportIsAccepted`); the driver does.
- An escalated review is meant to fail no more often than one that stayed small
  (`src/solvio/autopilot/lead.py:422-488`). It falls back when the large tier gives no lease or
  no answer; without a token for it, or with an answer that is refused, the judgement the small
  tier would have given is lost (`LeadVerdict.EscalationCosts`, exactly:
  `LeadVerdict.EscalationExactly`).
- A reconcile pass over background jobs is aborted by an error of one node that is not
  unreachability, and exactly then; pending jobs behind it stay pending although their own nodes
  would accept (`BackgroundManager.Manager.Reconcile`,
  `BackgroundManager.AnErrorKeepsTheNextPending`). A cancellation before the submission is
  confirmed keeps the job from running only if nothing of it had left
  (`SubmitProtocol.CancelledRunsExactly`), and a late answer takes it back
  (`SubmitProtocol.CancelledJobRuns`).
- A refund key is looked up before an await and not again: overlapping requests under one key
  are both granted exactly when the charge has room for both
  (`PaymentSandbox.OverlappingRefundsExactly`, `PaymentSandbox.OverlapFromTheStart`; exactly once
  when serialised: `PaymentSandbox.SerialisedOncePerKey`). An empty reference finds a failed
  charge (`PaymentSandbox.EmptyReferenceExactly`).
- A suite stopped for time passes when its process had already ended well with a full manifest
  (`TestGate.TimedOutMayPass`).

## Model

| member | source | states |
|---|---|---|
| AgentSafety.AlwaysLive | src/solvio/agent_runtime/orchestrator.py:204-267 | In every reachable state (any order of ticks, answers, cancellations, resumptions, crashes after any write, restarts) the invariant of the whole runtime holds: ledger, contexts, approval slot, and where the tick stands with its stale list of runs fit together |
| AgentSafety.HappenOk | src/solvio/agent_runtime/orchestrator.py:204-220 | One event, whichever, keeps that invariant, and every durable state it passes through on the way satisfies the ledger invariant, so a crash between any two writes leaves a good ledger |
| AgentTheorems.AtMostOnce | src/solvio/agent_runtime/orchestrator.py:581-636 | Over every history each step row is sent to the router at most once without an approval, and with one at most once more than the router has raised; never with one before APPROVED was read for the id on that row; and no two rows of a run share (seq, attempt) |
| AgentRestart.NothingRunsTwice | src/solvio/agent_runtime/orchestrator.py:310-325 | After a death of the process, whatever happens next, the rows of the runs that were there never change again; what is added are verify and harvest rows of the core itself: no plan step of an older run is executed again |
| AgentClosing.AdvanceCloses | src/solvio/agent_runtime/orchestrator.py:418-449 | A run in verification, or one whose context was rebuilt (no plan), can only be closed by an advance: nothing is asked of router, specialist or planner, and the rows added are verify and harvest rows numbered behind all others |
| AgentRestart.FrozenHappen | src/solvio/agent_runtime/orchestrator.py:1188-1220 | A run from before a crash is left untouched but for being closed, by every single event |
| AgentTheorems.SuccessIsEvidenced | src/solvio/agent_runtime/orchestrator.py:925-983 | A SUCCEEDED run has only succeeded or skipped rows; a build run under a workspace manager has a harvested ref; and it never replanned |
| AgentSuccess.SuccessMeansPlanDone | src/solvio/agent_runtime/orchestrator.py:418-449 | A run that succeeds while its plan is in memory has exactly one row per step of that plan, in order, of the step's kind, first attempt, settled well; every further row is a verify or harvest row of the core, numbered behind the last step (claimed of uninterrupted runs only, see below) |
| AgentSuccess.VerifyingCloses | src/solvio/agent_runtime/orchestrator.py:925-1016 | Whatever event comes next to a run in verification, its rows stay, and what is added at any write on the way are closing rows |
| AgentTheorems.EndsAreEnds | src/solvio/agent_runtime/store.py:814-854 | Over any further history an ended run keeps its state, a settled row is never touched again, and tallies and the revision counter never go down |
| AgentTheorems.HappenGrows | src/solvio/agent_runtime/orchestrator.py:204-220 | The same of every single event, with the durable states passed through on the way |
| AgentTheorems.FinishIsNeverBlocked | src/solvio/agent_runtime/orchestrator.py:1053-1080 | No run is ever given up as unfinishable: no call of `_finish` is refused by the transition table |
| AgentTheorems.ApprovalExclusion | src/solvio/agent_runtime/steps.py:146-174 | While the process lives, a run in WAITING_APPROVAL holds the slot, so at most one is there, and the holder has never ended, also when a cancellation lands during the router call |
| AgentTheorems.PlannerCallsAreCapped | src/solvio/agent_runtime/planner.py:414-453 | No account shows more than two planner calls per planning event; its revisions are those of the ledger and never exceed the limit |
| AgentTheorems.PlannerCapNeverFires | src/solvio/agent_runtime/budget.py:155-170 | With at most two revisions allowed, over every history: neither the check before the first call of a planning event (out of PLANNING, or from a replan anywhere in a step) nor the one before the second ever ends anything |
| AgentTermination.EveryRunEnds | src/solvio/agent_runtime/budget.py:134-142 | Over every history, counting every advance that is begun, also one the process dies in: a run is advanced at most max_steps + 4 times plus twice per crash, and once less while it is open; so every run that keeps being advanced ends |
| AgentTermination.AdvanceCosts | src/solvio/agent_runtime/orchestrator.py:226-267 | Every advance of a run that is neither parked nor ended strictly lowers the measure built from its state and its remaining steps |
| AgentTermination.HappenCosts | src/solvio/agent_runtime/orchestrator.py:1171-1182 | No event raises what a run may still cost plus the advances it has begun (resuming, polling, cancelling included), except that a death of the process raises it by at most two |
| AgentDoom.ReentryFails | src/solvio/agent_runtime/store.py:944-960 | Entering a plan step a second time ends the run FAILED in that very advance (CANCELLED if that was asked for): UNIQUE(run, seq, attempt) refuses the row, nothing is called, no row is added |
| AgentDoom.LapseDooms | src/solvio/agent_runtime/orchestrator.py:868-884 | From every reachable world in which the approval of a waiting run is read as lapsed (expired, revoked, no id, no control plane), the run comes back to a step it has entered: it is doomed |
| AgentDoom.NoSuccessAfterLapse | src/solvio/agent_runtime/orchestrator.py:868-884 | Over every history: a run whose approval has lapsed never succeeds; the renewed question the code announces is not asked |
| AgentDoom.SlotWaitDooms | src/solvio/agent_runtime/orchestrator.py:602-612 | So it is with a run that meets a taken approval slot: its step waits in a row nobody returns to, and the run is doomed |
| AgentDoom.NoSuccessAfterSlotWait | src/solvio/agent_runtime/orchestrator.py:602-612 | Over every history: a run that ever had to wait for the slot never succeeds |
| AgentHistories.ALapseEndsFailed | src/solvio/agent_runtime/orchestrator.py:868-884 | A history from the empty ledger: planned, asked, parked, the approval lapses, the next advance ends the run FAILED, with the one question ever asked |
| AgentHistories.ASlotWaitEndsFailed | src/solvio/agent_runtime/orchestrator.py:602-612 | A history from the empty ledger with two runs: the second finds the slot taken, waits in a row that was never asked for, and ends FAILED at its next turn |
| AgentHistories.ABoundaryEndsFailed | src/solvio/agent_runtime/orchestrator.py:1171-1182 | A history from the empty ledger: refused by policy, waiting for the user, resumed, and FAILED at the next advance |
| AgentDoom.NoSuccessAfterBoundary | src/solvio/agent_runtime/orchestrator.py:1043-1051 | A run that has ever waited for its user at a boundary never succeeds, however it is resumed: the re-asking the code announces does not happen |
| AgentDoom.DoomIsFinal | src/solvio/agent_runtime/orchestrator.py:226-267 | Over every history, a run with a row that settled badly, or that would have to re-enter a step, does not succeed |
| AgentDoom.BoundaryDooms | src/solvio/agent_runtime/orchestrator.py:1043-1051 | Every run waiting at a boundary is in that position |
| AgentLimits.VerifyVerdict | src/solvio/agent_runtime/orchestrator.py:925-983 | Exactly when verification ends in success: every row ever recorded settled well, the verify row is not taken, and, where there is something to harvest, a workspace is in memory, the harvest goes through and its row is not taken. A plan is not asked for |
| AgentLimits.EmptySuccess | src/solvio/agent_runtime/orchestrator.py:421-423 | A research run killed before it was planned is reported SUCCEEDED after the restart, with one verify row and no step |
| AgentHistories.ARaiseCallsTwice | src/solvio/agent_runtime/orchestrator.py:841-857 | A history from the empty ledger in which the router raises once on the approved call and is called with the same approval again: two calls, one raise, which is what the bound of `AgentTheorems.AtMostOnce` allows |
| AgentCalls.CallsAreReadings | src/solvio/agent_runtime/orchestrator.py:839-857 | Over any further history of any run, ended or not: the approved calls booked for a row grow by exactly the number of times the tick, standing at the reading of that row, hears APPROVED with a control plane and an approval id on the row (a death behind that one write included) |
| AgentCalls.AskedNoMore | src/solvio/agent_runtime/orchestrator.py:605-624 | Over any further history no existing row is ever asked for again without an approval, and once its run has ended no row is, the rows still added to it included |
| AgentCalls.OneLateCall | src/solvio/agent_runtime/orchestrator.py:204-220 | A run that has ended is called for at most once more, and only if a tick stands at the reading of its approval or still has it on the list it read before |
| AgentRows.AdvanceAdds | src/solvio/agent_runtime/orchestrator.py:226-267 | An advance leaves every row there is as it is, at every write; what it adds has not been called with an approval, no capability or specialist row among it is settled well, and nothing is asked without a plan or under the cancel flag |
| AgentRows.FollowSettles | src/solvio/agent_runtime/orchestrator.py:698-731 | Behind every await, write by write: the row it was about becomes what the answer says (state, approval id, tallies), no other row changes, and the plan in memory is the proposed one, the one cut behind the step that met the goal, or the old one |
| AgentSettled.HappenSettles | src/solvio/agent_runtime/orchestrator.py:204-220 | What an event, also a death in the middle of one, makes of the rows of any run: the row asked about has its fate, every other one stays, and new ones settle nothing |
| AgentSettled.SettledAsTold | src/solvio/agent_runtime/orchestrator.py:698-731 | Over every history a capability or specialist row is succeeded if and only if, while the tick stood at its question, its approved call or its specialist, the answer was that it was done; denied if and only if the outcome was a denial or its approval was read as DENIED; unknown if and only if the outcome was uncertain; never skipped |
| AgentSettled.SuccessWasHeard | src/solvio/agent_runtime/orchestrator.py:925-983 | Over every history, for every call and every specialist of a run that succeeded, somebody answered that it was done |
| AgentEndings.FollowEnds | src/solvio/agent_runtime/orchestrator.py:463-524 | Behind every await of an open run, by the answer: the run row with the reason it has ended for (quota, denied approval, uncertain outcome, unusable plan, raised call, exhausted revisions), the boundary, or the next step; the whole context with its account, and what is awaited next |
| AgentEndings.PlannedEnds | src/solvio/agent_runtime/orchestrator.py:425-448 | A planned step of any kind: behind each check, in their order, the run row, the account and the await it leads to, and exactly the one row it leaves |
| AgentEndings.AdvanceEnds | src/solvio/agent_runtime/orchestrator.py:226-267 | The same for a whole advance, out of every state, verification and harvest included |
| AgentOutcomes.AnswerDecides | src/solvio/agent_runtime/orchestrator.py:581-636 | In every reachable world, what an answer makes of an open run: its row, its context in the table, and where the tick stands |
| AgentOutcomes.OutcomeDecides | src/solvio/agent_runtime/orchestrator.py:698-731 | In every reachable world, the outcome of a call: done is a succeeded row and a RUNNING run, a denial a denied row, ending the run with approval_denied unless the step is optional, an uncertain outcome an unknown row and a run FAILED with recovery_required, always; a policy refusal a failed row and the user |
| AgentOutcomes.VisitDecides | src/solvio/agent_runtime/orchestrator.py:204-267 | In every reachable world, what a turn of the tick makes of an open run: one that waits for an approval is not written and its pending row is read; every other stands, with its context and the tick, where the advance leads, with exactly these rows |
| AgentPlans.AskedIsPlanned | src/solvio/agent_runtime/orchestrator.py:425-448 | In every reachable world, whoever is asked for a step, a specialist or the router, is asked for the step under the cursor of the plan in memory, and for a step of that kind |
| AgentPlans.PlannedAsProposed | src/solvio/agent_runtime/planner.py:414-453 | The planner has answered, in every reachable world: a first reply that passes the policy (one to twelve steps, building specialists only in a build) is the plan, whole; after one that missed the schema a second that passes is; the cursor is 0; after all other answers the old plan stays |
| AgentPlans.HappenPlans | src/solvio/agent_runtime/orchestrator.py:354-384 | One event, whichever: a plan in memory is exactly the new proposal, the old one cut behind the step that met the goal, or the old one |
| AgentPlans.PlanOrigin | src/solvio/agent_runtime/orchestrator.py:354-384 | Over every history a plan in memory is the one the planner proposed last, whole, or its first steps up to the one whose specialist has reported the goal met since |
| AgentPlans.FirstMetLeavesOff | src/solvio/agent_runtime/orchestrator.py:543-572 | The first time a specialist of a run reports the goal met, the plan is cut behind the step under the cursor, which is the step it was asked for |
| AgentPlans.GoalIsHeard | src/solvio/agent_runtime/orchestrator.py:543-572 | The goal of a run counts as met only once a specialist of the run has said so |
| AgentPlans.SuccessMeansProposalDone | src/solvio/agent_runtime/orchestrator.py:418-449 | A run that succeeds while its plan is in memory has done every step of what the planner proposed last, or every step up to the one whose specialist reported the goal met |
| AgentHistories.ACancelledRunIsCalled | src/solvio/agent_runtime/orchestrator.py:1160-1169 | A history from the empty ledger: cancelled after the tick has read it and before its turn, a run has its approval read and its approved call booked |
| AgentLimits.AdmissionDeadlock | src/solvio/agent_runtime/orchestrator.py:217-219 | Once more CREATED runs are open than may be active, whatever other runs there are and whatever happens to them, no number of events changes any CREATED run; the only ways out are the cancellation of one of these and a death of the process |
| AgentLimits.StartsExactly | src/solvio/agent_runtime/orchestrator.py:217-219 | A turn of the tick starts a CREATED run if and only if the runs that have neither ended nor are parked, CREATED ones among them, are no more than allowed; otherwise nothing changes |
| AgentLimits.SubmissionsStall | src/solvio/agent_runtime/store.py:803-805 | max_concurrent + 1 submissions between two ticks are enough for that |
| AgentSafety.NothingToReap | src/solvio/agent_runtime/orchestrator.py:1222-1242 | In a good ledger no row is both running and in possession of a child process group, so the restart's reaping never touches a row |
| AgentSafety.ReconciledOk | src/solvio/agent_runtime/orchestrator.py:1188-1220 | The restart marks exactly the runs INTERRUPTED that have neither ended nor wait at a boundary, and leaves the rows of every run as they were, at rest without a context |
| AgentSafety.OpenSnapsAre | src/solvio/agent_runtime/store.py:794-801 | The list a tick goes over holds every open run exactly once, in order, as it was read |
| AgentVisits.AdvanceOk | src/solvio/agent_runtime/orchestrator.py:226-267 | `_advance` on a run it may be stale about keeps the invariant at every write and at the await it stops at |
| AgentVisits.FollowOk | src/solvio/agent_runtime/orchestrator.py:581-636 | So does every stretch behind an await, whatever was answered and whatever happened to the run meanwhile |
| AgentVisits.PollOk | src/solvio/agent_runtime/orchestrator.py:825-884 | So does the poll of an approval |
| AgentGrowth.AdvanceGrows | src/solvio/agent_runtime/orchestrator.py:226-267 | An advance only adds to a run: settled rows, tallies and the revision stay or grow, and only a run read as VERIFYING can succeed in it |
| AgentGrowth.FollowGrows | src/solvio/agent_runtime/orchestrator.py:463-524 | The stretches behind an await only add, too, and none of them ends in SUCCEEDED |
| RunLedger.TerminalAbsorbing | src/solvio/agent_runtime/store.py:132-156 | No edge leaves SUCCEEDED, FAILED or CANCELLED, and none leads from a state to itself |
| RunLedger.EveryoneCanEnd | src/solvio/agent_runtime/store.py:132-156 | From every other state FAILED and CANCELLED are reachable in one edge, and INTERRUPTED from all but itself |
| RunLedger.LastWaiting | src/solvio/agent_runtime/store.py:968-973 | Finds the newest waiting row by (seq, attempt), and none exactly when no row waits |
| RunBudget.BooksAreHistory | src/solvio/agent_runtime/budget.py:174-195 | For every history of one account: what is booked under a digest is what was granted, and what was marked worthless |
| RunBudget.LoopBrake | src/solvio/agent_runtime/budget.py:174-187 | A digest is granted at most twice over any history, and exactly while grants plus worthless results stay below two and the limit per step is not reached; the refusal is the loop brake exactly when they do not |
| RunBudget.WastedOnceNeverAgain | src/solvio/agent_runtime/budget.py:189-195 | Once a granted attempt was marked worthless its digest is never granted again |
| RunBudget.BudgetLedger.Guard | src/solvio/agent_runtime/budget.py:174-187 | The guard in place: digest, refusal category, and the new books are those of the specification; a refusal books nothing |
| RunBudget.BudgetLedger.MarkLowValue | src/solvio/agent_runtime/budget.py:189-195 | Marks one digest and nothing else |
| RunBudget.BudgetLedger.NoteStep | src/solvio/agent_runtime/budget.py:141-142 | Counts one step and nothing else |
| RunBudget.BudgetLedger.NoteSpecialist | src/solvio/agent_runtime/budget.py:150-151 | Counts one specialist and nothing else |
| RunBudget.BudgetLedger.NotePlannerCall | src/solvio/agent_runtime/budget.py:162-163 | Counts one planner call and nothing else |
| RunBudget.BudgetLedger.NoteRevision | src/solvio/agent_runtime/budget.py:169-170 | Counts one revision and nothing else |
| AgentOrchestrator.AgentRunLedger.Transition | src/solvio/agent_runtime/store.py:814-854 | The only place where a run's state changes: by the table, or refused with nothing written; a category is written only when one is given |
| AgentOrchestrator.AgentRunLedger.CreateStep | src/solvio/agent_runtime/store.py:944-960 | Adds a pending row, or refuses exactly when (seq, attempt) is taken in this run |
| AgentOrchestrator.AgentRunLedger.UpdateStep | src/solvio/agent_runtime/store.py:975-1019 | Replaces one row of one run; an unknown row is not created |
| AgentOrchestrator.AgentRunLedger.SetRun | src/solvio/agent_runtime/store.py:912-940 | Replaces the run row and touches no other run |
| AgentOrchestrator.ApprovalQueue.Acquire | src/solvio/agent_runtime/steps.py:166-170 | Granted exactly when the slot is free or already this run's |
| AgentOrchestrator.ApprovalQueue.Release | src/solvio/agent_runtime/steps.py:172-174 | Frees the slot only for its holder |
| AgentOrchestrator.Orchestrator.Finish | src/solvio/agent_runtime/orchestrator.py:1053-1106 | In place, on ledger, context, budget and slot, and on no other run: frees the slot, moves the state by the table, remembers a refusal, is silent about an ended run; the same durable writes in the same order as the value-level stretch the theorems are about |
| AgentOrchestrator.Orchestrator.DoPlan | src/solvio/agent_runtime/orchestrator.py:354-384 | In place, on ledger, context, budget and slot, and on no other run: up to the planner call: no planner ends the run, an exhausted planner budget raises; the same durable writes in the same order as the value-level stretch the theorems are about |
| AgentOrchestrator.Orchestrator.AskPlanner | src/solvio/agent_runtime/planner.py:414-453 | In place, on ledger, context, budget and slot, and on no other run: one planning event: at most two calls, the second only after an answer that missed the schema, the cap asked in between, a provider error never asked again; the same durable writes in the same order as the value-level stretch the theorems are about |
| AgentOrchestrator.Orchestrator.PlanBack | src/solvio/agent_runtime/orchestrator.py:374-384 | In place, on ledger, context, budget and slot, and on no other run: the new plan from its first step; only out of PLANNING the run moves to RUNNING; the same durable writes in the same order as the value-level stretch the theorems are about |
| AgentOrchestrator.Orchestrator.Replan | src/solvio/agent_runtime/orchestrator.py:1023-1041 | In place, on ledger, context, budget and slot, and on no other run: the revision limit ends the run; otherwise the revision is counted in account and ledger before planning again; the same durable writes in the same order as the value-level stretch the theorems are about |
| AgentOrchestrator.Orchestrator.OpenBoundary | src/solvio/agent_runtime/orchestrator.py:1043-1051 | In place, on ledger, context, budget and slot, and on no other run: boundary written, then WAITING_USER, then the notice; the same durable writes in the same order as the value-level stretch the theorems are about |
| AgentOrchestrator.Orchestrator.AdvanceCreated | src/solvio/agent_runtime/orchestrator.py:269-308 | In place, on ledger, context, budget and slot, and on no other run: a build run gets its workspace first, unless the ledger already has one; the same durable writes in the same order as the value-level stretch the theorems are about |
| AgentOrchestrator.Orchestrator.RunSpecialist | src/solvio/agent_runtime/orchestrator.py:453-484 | In place, on ledger, context, budget and slot, and on no other run: budget, loop brake, scope check, row, RUNNING row, WAITING_SPECIALIST, workspace check, in this order; the same durable writes in the same order as the value-level stretch the theorems are about |
| AgentOrchestrator.Orchestrator.SpecialistBack | src/solvio/agent_runtime/orchestrator.py:484-524 | In place, on ledger, context, budget and slot, and on no other run: counts, books the outcome, back to RUNNING, then what follows from it; the same durable writes in the same order as the value-level stretch the theorems are about |
| AgentOrchestrator.Orchestrator.AfterSpecialist | src/solvio/agent_runtime/orchestrator.py:501-524 | In place, on ledger, context, budget and slot, and on no other run: quota ends the run, a failure is marked worthless and replanned unless optional, an unusable success is marked worthless; the same durable writes in the same order as the value-level stretch the theorems are about |
| AgentOrchestrator.Orchestrator.MaybeComplete | src/solvio/agent_runtime/orchestrator.py:543-572 | In place, on ledger, context, budget and slot, and on no other run: a goal met shortens the plan to this step, once; the same durable writes in the same order as the value-level stretch the theorems are about |
| AgentOrchestrator.Orchestrator.RefuseInvalid | src/solvio/agent_runtime/orchestrator.py:661-696 | In place, on ledger, context, budget and slot, and on no other run: the same flaw twice ends the run; once, it is skipped if optional and replanned otherwise; the same durable writes in the same order as the value-level stretch the theorems are about |
| AgentOrchestrator.Orchestrator.Settle | src/solvio/agent_runtime/orchestrator.py:698-731 | In place, on ledger, context, budget and slot, and on no other run: the five outcomes of a capability, their row states, and what the run does next; the same durable writes in the same order as the value-level stretch the theorems are about |
| AgentOrchestrator.Orchestrator.RunCapability | src/solvio/agent_runtime/orchestrator.py:581-605 | In place, on ledger, context, budget and slot, and on no other run: router, loop brake, row; up to the question whether to call; the same durable writes in the same order as the value-level stretch the theorems are about |
| AgentOrchestrator.Orchestrator.AskRouter | src/solvio/agent_runtime/orchestrator.py:590-624 | In place, on ledger, context, budget and slot, and on no other run: a flawed step never reaches the router; whoever finds the approval slot taken waits; the call is counted on its row; the same durable writes in the same order as the value-level stretch the theorems are about |
| AgentOrchestrator.Orchestrator.AskedBack | src/solvio/agent_runtime/orchestrator.py:620-636 | In place, on ledger, context, budget and slot, and on no other run: an approval request parks the run and keeps the slot; every other outcome frees the slot first; the same durable writes in the same order as the value-level stretch the theorems are about |
| AgentOrchestrator.Orchestrator.RunProposal | src/solvio/agent_runtime/orchestrator.py:896-917 | In place, on ledger, context, budget and slot, and on no other run: row, file, settled; a file that cannot be written raises; the same durable writes in the same order as the value-level stretch the theorems are about |
| AgentOrchestrator.Orchestrator.RunVerifyHint | src/solvio/agent_runtime/orchestrator.py:441-448 | In place, on ledger, context, budget and slot, and on no other run: a planned verify step is recorded as skipped; the same durable writes in the same order as the value-level stretch the theorems are about |
| AgentOrchestrator.Orchestrator.RunPlanned | src/solvio/agent_runtime/orchestrator.py:425-448 | In place, on ledger, context, budget and slot, and on no other run: dispatch by kind, with step number cursor + 1 and the plan revision as the attempt; the same durable writes in the same order as the value-level stretch the theorems are about |
| AgentOrchestrator.Orchestrator.NextPlanned | src/solvio/agent_runtime/orchestrator.py:421-449 | In place, on ledger, context, budget and slot, and on no other run: no plan or its end leads to VERIFYING; step limit and clock raise; a step that ends is counted; the same durable writes in the same order as the value-level stretch the theorems are about |
| AgentOrchestrator.Orchestrator.NextStep | src/solvio/agent_runtime/orchestrator.py:418-449 | In place, on ledger, context, budget and slot, and on no other run: INTERRUPTED is left for RUNNING first; the same durable writes in the same order as the value-level stretch the theorems are about |
| AgentOrchestrator.Orchestrator.Verify | src/solvio/agent_runtime/orchestrator.py:925-983 | In place, on ledger, context, budget and slot, and on no other run: uncertain before unsettled before success, over every row of the run; the same durable writes in the same order as the value-level stretch the theorems are about |
| AgentOrchestrator.Orchestrator.Harvest | src/solvio/agent_runtime/orchestrator.py:985-1016 | In place, on ledger, context, budget and slot, and on no other run: nothing to harvest succeeds, no workspace or a refused harvest fails with no_result; the same durable writes in the same order as the value-level stretch the theorems are about |
| AgentOrchestrator.Orchestrator.Settled | src/solvio/agent_runtime/orchestrator.py:226-267 | In place, on ledger, context, budget and slot, and on no other run: a finished step is counted; an exception ends the run with its category, or leaves the tick when polling; the same durable writes in the same order as the value-level stretch the theorems are about |
| AgentOrchestrator.Orchestrator.Advance | src/solvio/agent_runtime/orchestrator.py:226-267 | In place, on ledger, context, budget and slot, and on no other run: the cancel flag first, then by the state the tick has read; the same durable writes in the same order as the value-level stretch the theorems are about |
| AgentOrchestrator.Orchestrator.Poll | src/solvio/agent_runtime/orchestrator.py:825-839 | In place, on ledger, context, budget and slot, and on no other run: the pending row, else the newest waiting one, else back to RUNNING; the same durable writes in the same order as the value-level stretch the theorems are about |
| AgentOrchestrator.Orchestrator.ReadBack | src/solvio/agent_runtime/orchestrator.py:839-884 | In place, on ledger, context, budget and slot, and on no other run: pending waits; APPROVED is booked before the approved call; denied ends the run; everything else is lapsed; the same durable writes in the same order as the value-level stretch the theorems are about |
| AgentOrchestrator.Orchestrator.Lapsed | src/solvio/agent_runtime/orchestrator.py:868-884 | In place, on ledger, context, budget and slot, and on no other run: back to RUNNING, and to the user once the cap of questions is reached; the same durable writes in the same order as the value-level stretch the theorems are about |
| AgentOrchestrator.Orchestrator.RedeemedBack | src/solvio/agent_runtime/orchestrator.py:841-857 | In place, on ledger, context, budget and slot, and on no other run: an answer frees the slot and moves on; an exception leaves the tick with the slot held; the same durable writes in the same order as the value-level stretch the theorems are about |
| AgentOrchestrator.Orchestrator.Follow | src/solvio/agent_runtime/orchestrator.py:354-384 | In place, on ledger, context, budget and slot, and on no other run: which stretch follows which await; an answer to another question does nothing; the same durable writes in the same order as the value-level stretch the theorems are about |
| AgentOrchestrator.Orchestrator.TakeTurn | src/solvio/agent_runtime/orchestrator.py:204-220 | In place, on ledger, context, budget and slot, and on no other run: poll or advance, by the state the tick has read; the same durable writes in the same order as the value-level stretch the theorems are about |
| AgentOrchestrator.Orchestrator.Unsettled | src/solvio/agent_runtime/orchestrator.py:939-940 | The loop over the rows finds an unsettled one exactly when not all settled well, an uncertain one exactly when there is one |
| AgentOrchestrator.Orchestrator.NewestWaiting | src/solvio/agent_runtime/orchestrator.py:829-835 | The loop over the rows finds the newest waiting row |
| AgentRuntime.Runtime.Submit | src/solvio/agent_runtime/orchestrator.py:134-164 | In place, on the table of contexts, the ledger, the slot and the tick: a task taken on: a CREATED run and a context with the whole budget. The objects then stand exactly where the event of the protocol leads, after the same durable writes, and the invariant of the whole runtime holds |
| AgentRuntime.Runtime.BeginTick | src/solvio/agent_runtime/orchestrator.py:204-207 | In place, on the table of contexts, the ledger, the slot and the tick: the list of open runs is read once. The objects then stand exactly where the event of the protocol leads, after the same durable writes, and the invariant of the whole runtime holds |
| AgentRuntime.Runtime.Visit | src/solvio/agent_runtime/orchestrator.py:207-220 | In place, on the table of contexts, the ledger, the slot and the tick: one turn of the tick: skipped, polled or advanced, and where the coroutine then stands. The objects then stand exactly where the event of the protocol leads, after the same durable writes, and the invariant of the whole runtime holds |
| AgentRuntime.Runtime.Reply | src/solvio/agent_runtime/orchestrator.py:581-636 | In place, on the table of contexts, the ledger, the slot and the tick: an answered await: the stretch behind it runs on the context the coroutine holds, dropped from the table or not. The objects then stand exactly where the event of the protocol leads, after the same durable writes, and the invariant of the whole runtime holds |
| AgentRuntime.Runtime.Cancel | src/solvio/agent_runtime/orchestrator.py:1160-1169 | In place, on the table of contexts, the ledger, the slot and the tick: the flag in the context, then the end of the run, between any two stretches. The objects then stand exactly where the event of the protocol leads, after the same durable writes, and the invariant of the whole runtime holds |
| AgentRuntime.Runtime.Notified | src/solvio/agent_runtime/orchestrator.py:1087-1106 | In place, on the table of contexts, the ledger, the slot and the tick: the context of a cancelled run leaves the table under a running coroutine. The objects then stand exactly where the event of the protocol leads, after the same durable writes, and the invariant of the whole runtime holds |
| AgentRuntime.Runtime.Resume | src/solvio/agent_runtime/orchestrator.py:1171-1182 | In place, on the table of contexts, the ledger, the slot and the tick: only a run at its boundary, in two writes; the approval questions start over. The objects then stand exactly where the event of the protocol leads, after the same durable writes, and the invariant of the whole runtime holds |
| AgentRuntime.Runtime.Reconcile | src/solvio/agent_runtime/orchestrator.py:1188-1220 | In place, on the table of contexts, the ledger, the slot and the tick: every open run but those at a boundary is marked INTERRUPTED, orphans ended or reported. The objects then stand exactly where the event of the protocol leads, after the same durable writes, and the invariant of the whole runtime holds |
| AgentRuntime.Runtime.constructor | src/solvio/agent_runtime/orchestrator.py:109-128 | A process that starts after a death finds exactly what that death left: the ledger and nothing else |
| AgentRuntime.Runtime.Rebuild | src/solvio/agent_runtime/orchestrator.py:310-325 | The rebuilt context: the task's limits, steps and specialists counted again from the ledger, no plan, the cursor behind all rows |
| AgentSteps.CountIsNumber | src/solvio/agent_runtime/orchestrator.py:310-325 | What is counted again is the number of rows of the kind |
| AgentRuntime.Runtime.ContextFor | src/solvio/agent_runtime/orchestrator.py:226-229 | The context in the table, or a rebuilt one which then goes into it; no other context is touched |
| AgentRuntime.Runtime.ActiveRuns | src/solvio/agent_runtime/store.py:803-805 | Counts the open runs that are not parked, CREATED ones included |
| AgentRuntime.Runtime.OpenRuns | src/solvio/agent_runtime/store.py:794-801 | Lists the open runs in order |
| AgentRuntime.Runtime.EveryRun | src/solvio/agent_runtime/orchestrator.py:1188-1220 | The reconciliation loop: after q runs exactly the first q are reconciled, so a death inside it is a prefix |
| AgentRuntime.Runtime.ReconcileRun | src/solvio/agent_runtime/orchestrator.py:1196-1210 | One run of it: a refused transition is ignored, its rows are looked at all the same, no other run is touched |
| PendingStarts.AtMostOnce | src/solvio/agent_runtime/orchestrator.py:735-823 | Over any crashes and readings an order is attempted at most once, and once more for each time it was remembered again after having been taken; never before its approval was read as APPROVED; and if it is closed, not since it was last remembered |
| PendingStarts.RetakenRunsAgain | src/solvio/agent_runtime/store.py:858-884 | Every such renewal is one: an order remembered again after it was taken is attempted once more by the pass that reads it APPROVED |
| PendingStarts.ReadingDecides | src/solvio/agent_runtime/steps.py:308-324 | One reading: exactly a pending, unexpired or unreadable approval leaves the order waiting, exactly APPROVED takes it, everything else closes it unexecuted |
| PendingStarts.ApprovedStarts | src/solvio/agent_runtime/orchestrator.py:767-790 | An approved order whose origin still exists is attempted by the next pass |
| PendingStarts.RememberedTwiceRunsTwice | src/solvio/agent_runtime/store.py:858-884 | Remembered again under the same request id, an order is attempted again: the row is replaced |
| PendingStarts.AlwaysSound | src/solvio/agent_runtime/store.py:886-910 | The invariant of the deferred starts holds in every reachable state |
| PendingStarts.StartPoller.Remember | src/solvio/agent_runtime/store.py:858-884 | In place: the entry waits, whatever it was before |
| PendingStarts.StartPoller.PollAll | src/solvio/agent_runtime/orchestrator.py:735-790 | The loop in place: each listed order becomes what its reading makes of it, no other changes, and the invariant holds |
| MilestoneMachine.ReadyCheckExact | src/solvio/autopilot/machine.py:74-142 | The readiness check, on all inputs, by the facts: an ok test report, at least one criterion, every one proven, no open blocker or major finding, the verdict; the gap it names is the first that is missing, in this order |
| MilestoneMachine.MovesExactly | src/solvio/autopilot/machine.py:145-226 | All moves out of a working state and when each is made: on from building and fixing to testing, into the review only with a test report for the last commit, to READY only through the check, to BLOCKED with a reason, parked only behind an open boundary and not while testing; and what the milestone then is, field by field |
| MilestoneMachine.NoRedReady | src/solvio/autopilot/machine.py:182-198 | A transition to READY is made only from REVIEWING with all of that, whatever the verdict says |
| MilestoneMachine.TransitionKeeps | src/solvio/autopilot/machine.py:145-226 | Every transition keeps the ledger sound: origins remembered exactly while parked, block reason exactly while BLOCKED, a report for the last commit while (or parked from) REVIEWING, every measured criterion backed by a green report under a gate key, READY only on facts |
| MilestoneMachine.ParkIsFaithful | src/solvio/autopilot/machine.py:165-175 | Out of a park lead exactly two ways: back to the remembered working state (a human boundary only once all are answered), or to STOPPED; nothing else of the milestone changes |
| MilestoneMachine.ParkRoundTrip | src/solvio/autopilot/machine.py:229-241 | A park taken and left is the identity, apart from the answered boundary |
| MilestoneMachine.ParkExactly | src/solvio/autopilot/machine.py:229-241 | In every sound book: parked if and only if it is planned, built, reviewed or fixed; in every other state (also STOPPED by the owner) the move is refused with the reason stated, and the boundary opened before stays behind |
| MilestoneMachine.StaleReportIsAccepted | src/solvio/autopilot/machine.py:128-142 | The machine alone accepts a report about another commit; the comparison is the driver's |
| MilestoneMachine.UnmeasuredNeverReady | src/solvio/autopilot/lead.py:209-247 | A criterion to be measured under a key that is not one of the four gate keys keeps a milestone from READY for good |
| MilestoneMachine.CountMeansAll | src/solvio/autopilot/machine.py:84-90 | As many proven as there are means all are proven |
| LeadVerdict.Validate | src/solvio/autopilot/lead.py:127-247 | The loops over the lead's lists compute the specified check, with its caps and its first fault |
| LeadVerdict.JudgedExactly | src/solvio/autopilot/lead.py:127-247 | A text is judged if and only if it is legible (every word one of its vocabulary, every reference one that exists), and then verdict, action, task, severities and closings are what it says, at most twelve of each |
| LeadVerdict.AskedExactly | src/solvio/autopilot/lead.py:422-488 | On all inputs: which tier's text decides, and that the judgement is the one of that text, or the fault it has |
| LeadVerdict.VerdictIsHarmless | src/solvio/autopilot/lead.py:127-247 | Whatever the lead writes, a verdict that counts proves only known criteria that need no measurement and only with existing evidence, closes only open findings, escalates only with a catalogued event, names only a known builder, and carries at most twelve of each |
| LeadVerdict.ProofsAreLegitimate | src/solvio/autopilot/lead.py:209-247 | Exactly the entries about criteria that need no measurement survive, as they were written |
| LeadVerdict.Judge | src/solvio/autopilot/lead.py:422-488 | Every call is sent under a lease that was opened for it and is open, one lease a call, none is left open, the large tier falls back once, and the judgement and the number of calls are the specified ones |
| LeadVerdict.EscalationExactly | src/solvio/autopilot/lead.py:405-488 | On all inputs: the escalated question is judged if and only if the large tier has a token and its answer, where it got one, passes the check, or else the small tier judges; so escalation keeps a judgement of the small tier exactly then. At most two calls |
| LeadVerdict.EscalationCosts | src/solvio/autopilot/lead.py:405-436 | Two inputs on which escalating costs a judgement of the small tier: no token for the large tier, and a large answer that is refused |
| LeadVerdict.JudgementIsHarmless | src/solvio/autopilot/lead.py:422-558 | The verdict of either tier is harmless in that sense |
| LeadVerdict.Broker.OpenLease | src/solvio/autopilot/lead.py:490-514 | A new lease, no call yet |
| LeadVerdict.Broker.CloseLease | src/solvio/autopilot/lead.py:516-529 | Closes that lease and no other |
| LeadVerdict.Broker.Send | src/solvio/autopilot/lead.py:422-458 | Nothing is sent but under a lease that is open |
| BuilderChoice.QuotaWearsOff | src/solvio/autopilot/capacity.py:86-117 | After a quota hit without a reset time: exhausted for the cooldown, limited until the hit is forgotten or something worked again, then available; exactly so |
| BuilderChoice.SignalsExactly | src/solvio/autopilot/capacity.py:86-117 | On all signals: unavailable exactly when unreachable or not logged in, exhausted exactly while a known reset or the cooldown lies ahead, limited exactly until the hit is forgotten or something worked again |
| BuilderChoice.BeforeMeans | src/solvio/autopilot/capacity.py:245-256 | Before in the order of names is exactly: at the first place where they differ, the smaller character, or the end |
| BuilderChoice.ChooseBuilder | src/solvio/autopilot/capacity.py:237-256 | Nobody exactly when nobody usable is left; else the best of those that take the size, and only failing these the best usable one; a limited builder only where no available one of the same fit is left, and among equals the first by name |
| BuilderChoice.Decide | src/solvio/autopilot/routing.py:91-156 | What fits best depends on task and builders only (codex for small builds, claude else, where they exist), what is taken is the first of these that can execute, else the first by name, and each reason is given exactly when it made the difference |
| BuilderChoice.BestOf | src/solvio/autopilot/capacity.py:245-256 | The loop finds the one that beats every other, by availability first and then by name |
| MilestoneLedger.AutopilotLedger.Transition | src/solvio/autopilot/machine.py:145-226 | In place, with the owner acting before the write: the machine's move or its refusal on the row as it then is, journalled, sound |
| MilestoneLedger.AutopilotLedger.Park | src/solvio/autopilot/machine.py:229-241 | Boundary first, with the owner acting before and after it, then the move; a refused move leaves the boundary |
| MilestoneLedger.AutopilotLedger.Interleave | src/solvio/autopilot/machine.py:165-175 | Whatever the owner does in between (answers, stops), evidence, criteria, findings, phases and commit stay, and the state stays, becomes STOPPED, or leaves its park for the origin |
| MilestoneLedger.AutopilotLedger.SetProven | src/solvio/autopilot/driver.py:514-536 | A criterion is proven only with existing evidence, one to be measured only with a green report under a gate key |
| MilestoneLedger.ProofKeeps | src/solvio/autopilot/driver.py:514-560 | Proving a criterion under that condition keeps the ledger sound and the contract pinned |
| MilestoneLedger.CommitKeeps | src/solvio/autopilot/evidence.py:314-325 | The last commit may move only while nothing is reviewed on it |
| MilestoneLedger.OwnerKeeps | src/solvio/autopilot/machine.py:165-175 | Every act of the owner keeps the ledger sound |
| AutopilotDriver.FailuresCount | src/solvio/autopilot/driver.py:385-396 | The account of failures of a digest is the number of its phases that have failed |
| AutopilotDriver.LatestBuildIs | src/solvio/autopilot/driver.py:419-456 | The latest build is the last building phase in the chronicle, and there is none exactly without one |
| AutopilotDriver.Driver.Attempt | src/solvio/autopilot/driver.py:256-327 | One builder's attempt, booked: exactly when somebody else may try, and with what capacity left; the one phase it leaves and how it ended; the task, the commit, its evidence, what could not be published, and the finding of a credential, exactly |
| AutopilotDriver.Driver.NextBuilder | src/solvio/autopilot/driver.py:244-252 | The recorded route while untried and acceptable, else the best that is left; nobody only when nobody usable is left untried |
| AutopilotDriver.Driver.BuildPhase | src/solvio/autopilot/driver.py:203-327 | Every builder at most once, the recorded route first, at most as many attempts as adapters; ends in TESTING, BLOCKED or at a boundary, or with the one failed run, after a refusal in BUILDING, FIXING or STOPPED, and never in READY; the chronicle has one phase more per attempt, in order, each but the last one such that somebody else may try; quota hits never count as failed attempts |
| AutopilotDriver.Driver.BookBuild | src/solvio/autopilot/driver.py:317-327 | Phase, commit, evidence and publication are on record, exactly these, then TESTING |
| AutopilotDriver.Driver.StopForCredential | src/solvio/autopilot/driver.py:363-379 | A credential found at a checkpoint is a blocking finding and ends the phase at a human boundary; where the owner forestalls that, the milestone stays where it was built or is stopped |
| AutopilotDriver.Driver.Block | src/solvio/autopilot/driver.py:682-687 | Waits for the cooldown in BLOCKED |
| AutopilotDriver.Driver.Unblock | src/solvio/autopilot/driver.py:689-693 | Leaves the block for the state it came from |
| AutopilotDriver.Driver.RecordGate | src/solvio/autopilot/evidence.py:275-311 | Reuses a report of the same commit in the same environment, else measures and appends exactly one; nothing when it cannot be taken |
| AutopilotDriver.FreshEvidence | src/solvio/autopilot/evidence.py:275-311 | Only a test report of exactly this commit and environment is found, and none exactly when there is none |
| AutopilotDriver.Driver.TestPhase | src/solvio/autopilot/driver.py:402-414 | On to the review only with a report for exactly the last commit; a report about another commit carries no review; the phase and the report are on record, exactly |
| AutopilotDriver.Driver.BookFindings | src/solvio/autopilot/driver.py:514-536 | The loops open every reported finding and close exactly the named ones |
| AutopilotDriver.Driver.BookProofs | src/solvio/autopilot/driver.py:514-536 | The loop proves exactly the cited criteria |
| AutopilotDriver.Driver.BookMeasured | src/solvio/autopilot/driver.py:514-560 | The green gate proves exactly the criteria to be measured under its keys |
| AutopilotDriver.Driver.Apply | src/solvio/autopilot/driver.py:514-536 | A verdict booked: findings, proofs and measurements exactly as specified, on a milestone still under review or stopped |
| AutopilotDriver.Driver.Act | src/solvio/autopilot/driver.py:562-640 | READY exactly when the measurements allow it and the lead said READY, or FIX or BUILD without a new finding; otherwise a question, STOPPED, or repair and building with the lead's task, or its reasons where it names none, as what to do next |
| AutopilotDriver.Driver.NothingLeftIsReady | src/solvio/autopilot/driver.py:538-550 | "Nothing left to do" is exactly that the machine would accept READY |
| AutopilotDriver.Driver.ReviewPhase | src/solvio/autopilot/driver.py:417-505 | For arbitrary lead text: the judgement is the one of the text of the tier that answered, word, severities and all, and there is one exactly when that text is legible; READY exactly when, with the verdict booked, a green report for precisely the last commit in this environment exists, at least one criterion and all proven, nothing blocking open, and the verdict is READY or an empty FIX or BUILD (unless the owner stopped it). Criteria, findings, phase and the task taken from the text are then exactly the booked ones |
| ReadyExactly.ReadyAfterVerdict | src/solvio/autopilot/driver.py:538-550 | What that amounts to, exactly, in terms of the milestone before the verdict: the report green, each criterion proven before, cited, or measured, every open blocking finding closed, no new one opened |
| ReadyExactly.BlockingAfter | src/solvio/autopilot/driver.py:514-536 | Something blocks after the verdict exactly when an open blocking finding is not closed or a grave one is new |
| ReadyExactly.ProveListMeans | src/solvio/autopilot/driver.py:514-536 | After the proofs a criterion is proven exactly when it was or was cited; keys and kinds stay |
| ReadyExactly.GaugedMeans | src/solvio/autopilot/driver.py:553-560 | After the measurement a criterion is proven exactly when it was or is measured; keys and kinds stay |
| AutopilotDriver.Driver.BeginReview | src/solvio/autopilot/driver.py:419-456 | The fresh report for the last commit, the large tier exactly from the third round or in a loop, and the loop exactly at the threshold of failures of the latest build's digest |
| AutopilotDriver.Driver.BookRejection | src/solvio/autopilot/driver.py:467-486 | A lead that cannot be asked blocks, one that answers nonsense is a finding and a repair |
| AutopilotDriver.Driver.OneRound | src/solvio/autopilot/driver.py:178-200 | A round keeps the ledger sound and the contract pinned, another follows only if the milestone is neither ended nor parked and nothing was raised, and it makes the milestone READY only on the word the lead's own text of this very round says |
| AutopilotDriver.Driver.Reconcile | src/solvio/autopilot/driver.py:117-154 | Exactly the phases left running are marked interrupted |
| AutopilotDriver.Driver.Drive | src/solvio/autopilot/driver.py:157-176 | Over a whole run with arbitrary answers, and for every entry of its journal, so for a crash anywhere: the ledger stays sound (READY means a green report for the last commit, all criteria proven, nothing blocking); every word booked is the one the lead's text of its own round says, and READY is reached only if the last of these texts says READY, or FIX or BUILD with an empty list of findings; and a milestone with a criterion to be measured under a foreign key never is READY |
| SubmitProtocol.AtMostOneRemoteJob | src/solvio/background/manager.py:45-66 | However often a submission is sent, lost, answered late or resent after a crash: at most one remote job per local job |
| SubmitProtocol.DistinctJobsDistinctRemotes | src/solvio/background/manager.py:45-66 | Different local jobs never share a remote job |
| SubmitProtocol.HandleIsForever | src/solvio/background/store.py:119-127 | A handle once known is the right one and never changes |
| SubmitProtocol.AlwaysSound | src/solvio/background/manager.py:124-147 | The protocol's invariant, and that nothing known is forgotten, over any further history |
| SubmitProtocol.EndedUntilHeard | src/solvio/background/store.py:129-145 | An ended job changes its status exactly when a late answer, a stale refresh or a cancellation still arrives for it |
| SubmitProtocol.CancelledRunsExactly | src/solvio/background/manager.py:111-121 | A job cancelled locally can still run remotely, in some continuation, if and only if at that moment a sender had it read as pending, a request for it was on its way, or the node already had the key |
| SubmitProtocol.CancelledJobRuns | src/solvio/background/manager.py:111-121 | A history in which it does, and the late answer takes the cancellation back |
| SubmitProtocol.Find | src/solvio/background/manager.py:45-66 | The node finds a remembered key exactly when it has seen it |
| BackgroundManager.Manager.Submit | src/solvio/background/manager.py:45-66 | The row is durable before anything is sent, for that node, under a key no other job has, behind all others, which stay; what nobody confirms stays pending without a handle, and an error of the node is raised |
| BackgroundManager.Manager.Refresh | src/solvio/background/manager.py:68-88 | Nothing for a job without a handle or ended; else the node's status, REMOTE_UNKNOWN when it knows none, unchanged when unreachable |
| BackgroundManager.Manager.Cancel | src/solvio/background/manager.py:111-121 | Local without a handle, else the node's answer or CANCEL_REQUESTED |
| BackgroundManager.Manager.Reconcile | src/solvio/background/manager.py:124-147 | The pass goes through if and only if no open job's node answers with an error that is not unreachability (a refresh knows NOT_FOUND as an answer); then every open job has exactly the status its node makes of it, ended ones are untouched, and the four counters are exact. The first such error ends the pass with the jobs behind it as they were: a pending job whose node would accept stays pending if and only if it is behind one |
| BackgroundManager.TallyCounts | src/solvio/background/manager.py:124-147 | The four counters of a pass count jobs: those whose node was not reachable, those resent, those a refresh found unknown, and all others |
| BackgroundManager.AnErrorKeepsTheNextPending | src/solvio/background/manager.py:124-147 | Two unconfirmed submissions: the first one's node has an error, and the second stays pending although its own would accept |
| BackgroundManager.Manager.OpenJobs | src/solvio/background/store.py:181-188 | Exactly the jobs that have not ended, in ledger order |
| BackgroundManager.Manager.ReconcileOne | src/solvio/background/reconciliation.py:16-20 | One open job: pending is resent, everything else refreshed; its status after, its counter, and exactly when its node's error is raised |
| BackgroundManager.Manager.Call | src/solvio/background/manager.py:59-66 | One call to the node is exactly this stretch of the protocol: an answer gives the handle, unreachability leaves the ledger (and perhaps a remote job), an error is raised |
| PaymentSandbox.MoneyIsConserved | scripts/payment_sandbox.py:186-327 | In every reachable state: the refunded amount of a charge is the sum granted on it, within 0 and its amount and only on a succeeded one; created_charges counts the succeeded charges; an empty reference is exactly that of a failed charge |
| PaymentSandbox.AlwaysSound | scripts/payment_sandbox.py:83-134 | Over any interleaving of requests the books are sound, and what a key stood for it stands for |
| PaymentSandbox.StepFaithful | scripts/payment_sandbox.py:186-248 | No request changes reference, amount or currency of an existing charge; only a confirmation changes its status; refunds only grow |
| PaymentSandbox.ChargeIsIdempotent | scripts/payment_sandbox.py:186-248 | The same key again returns the same charge and books nothing but the attempt |
| PaymentSandbox.SerialisedOncePerKey | scripts/payment_sandbox.py:280-307 | If requests under a refund key never overlap, the key is granted at most once and exactly when it has a record |
| PaymentSandbox.OverlappingRefundsExactly | scripts/payment_sandbox.py:288-307 | Two overlapping requests under one refund key, exactly: the first is granted if and only if the charge has room for it, the second as well if and only if there is room for both |
| PaymentSandbox.OverlapFromTheStart | scripts/payment_sandbox.py:288-290 | A history from the opened sandbox in which one key is paid twice |
| PaymentSandbox.EmptyReferenceExactly | scripts/payment_sandbox.py:310-327 | Cancelling the empty reference "succeeds" if and only if the guard passes and some charge is declined or failed at the merchant; it answers with the first of these |
| PaymentSandbox.Lookup | scripts/payment_sandbox.py:280-307 | The first charge with a reference in the order they came in, and none exactly when no charge has it |
| PaymentSandbox.RolesOpen | scripts/payment_sandbox.py:104-151 | Who may what: only the charge role charges, it and the refund role give back and cancel, all but nobody quote and look up; unreachable comes before unauthorised |
| PaymentSandbox.QuoteOfOne | scripts/payment_sandbox.py:164-183 | One article costs its price times its number, the shipping, and the drift while prices drift; the sum is stored under the new reference |
| PaymentSandbox.QuotesAdd | scripts/payment_sandbox.py:164-183 | Baskets add up, with shipping and drift once |
| PaymentSandbox.ChargeBooks | scripts/payment_sandbox.py:186-248 | A charge under a new key behind a passing guard, at the quoted price: declined exactly while declining is played, failed at the merchant exactly while that is, to be confirmed exactly while that is, else succeeded; references are empty exactly for the first two and new otherwise; it counts as created exactly when it succeeded; every other request leaves the charges alone |
| PaymentSandbox.StatusHasACause | scripts/payment_sandbox.py:186-277 | Over every history the status of a charge is the one of the scenario played when it was booked, or it was to be confirmed and has been; so a succeeded charge was booked in none of the three scenarios, or confirmed |
| PaymentSandbox.ConfirmExactly | scripts/payment_sandbox.py:264-277 | A confirmation takes effect exactly when it is an administrator's and the charge waits for one |
| PaymentSandbox.RefundExactly | scripts/payment_sandbox.py:290-307 | A refund behind its wait is paid exactly when the charge has succeeded and the sum is positive and within what is left, to the last cent; the record, the charge and the history are then exactly these |
| PaymentSandbox.RefundReplays | scripts/payment_sandbox.py:280-290 | A refund under a key that has one returns the same record, marked as a replay, and moves nothing |
| PaymentSandbox.CancelExactly | scripts/payment_sandbox.py:310-327 | A cancellation takes the order and nothing else |
| SandboxService.Sandbox.HandleCharge | scripts/payment_sandbox.py:186-248 | The handler in place: the specified answer and books, sound and faithful |
| SandboxService.Sandbox.HandleSca | scripts/payment_sandbox.py:264-277 | The handler in place |
| SandboxService.Sandbox.RefundStart | scripts/payment_sandbox.py:280-290 | The refund handler up to its await |
| SandboxService.Sandbox.RefundFinish | scripts/payment_sandbox.py:290-307 | The refund handler behind its await; the key is not looked up again |
| SandboxService.Sandbox.HandleCancel | scripts/payment_sandbox.py:310-327 | The handler in place |
| SandboxService.Sandbox.HandleQuote | scripts/payment_sandbox.py:164-183 | The handler in place |
| Resampler.ProcessAll | src/solvio/audio/resample.py:19-58 | Over every split of the input into chunks the output is that of the whole input at once, and every sample of it is on the line between its neighbours |
| Resampler.Converter.Process | src/solvio/audio/resample.py:31-58 | A chunk puts out exactly what it adds to the output of everything so far, each sample the value of the line at its place, cut towards zero, within sixteen bits |
| Resampler.OutputValue | src/solvio/audio/resample.py:46-56 | The value of every output sample, without the arithmetic of the code: with a and b around position k * src / dst and m = a * (dst - f) + b * f for its fraction f, the sample v satisfies |v| * dst <= |m| < (|v| + 1) * dst and has no sign other than m |
| Resampler.OnASample | src/solvio/audio/resample.py:46-56 | A position that falls on a sample puts out that sample |
| Resampler.SameRateDelays | src/solvio/audio/resample.py:31-58 | At equal rates the output is the input, one sample later |
| Resampler.CountExact | src/solvio/audio/resample.py:40-58 | The output has exactly the positions before the end of the input: ceil(N * dst / src) |
| Resampler.OutputBetween | src/solvio/audio/resample.py:46-56 | Every output sample lies between its two neighbours in the input (after the leading zero), so in sixteen bits, with every index in range |
| Resampler.Prefix | src/solvio/audio/resample.py:31-58 | What has been put out does not depend on what comes later |
| Resampler.ChunkSample | src/solvio/audio/resample.py:46-56 | A sample computed inside a chunk is the one the whole stream has there |
| Resampler.Converter.Reset | src/solvio/audio/resample.py:27-29 | Back to the beginning of a stream |
| ResultFrame.RoundTrip | scripts/_test_worker.py:37-41 | What the worker writes is what the runner reads |
| ResultFrame.ReadExactly | scripts/run_tests.py:293-333 | A body is read exactly when the whole stream is the magic word, a number equal to its length, a newline and it |
| ResultFrame.NumbersExactly | scripts/run_tests.py:315-320 | Which text is a length, exactly, and which one: white space, a sign or none, digits with single underscores between them, white space |
| ResultFrame.PrefixRefused | scripts/run_tests.py:293-333 | Every proper prefix of a frame is refused |
| ResultFrame.ExtensionRefused | scripts/run_tests.py:293-333 | Every proper extension is refused as trailing |
| ResultFrame.TwoFramesRefused | scripts/run_tests.py:293-333 | Two frames in a row are refused |
| ResultFrame.ReadChannel | scripts/run_tests.py:293-333 | The reader in place: whatever chunks arrive, the verdict is on their concatenation |
| ResultFrame.DecimalBack | scripts/_test_worker.py:37-41 | A printed length is read back |
| TestGate.Gate | scripts/run_tests.py:483-550 | Exit 2 exactly without suites; 0 exactly when every suite is verified, the baseline is readable and, unfiltered, equals the source inventory; after an unfiltered 0 what was reported is what is recorded |
| TestGate.RunOne | scripts/run_tests.py:336-422 | A suite passes exactly when it is verified: manifest complete, identities duplicate-free and equal to the expected ones, all passed or skipped and none left unfinished, something executed, exit code 0, no coroutine left unawaited, no invalid definition |
| TestGate.Result.EnforceContract | scripts/run_tests.py:123-185 | The passes over the manifest leave no failure exactly when the entries are as expected; missing and unexpected are the two differences of identities, and everything is missing without a manifest to trust |
| TestGate.Result.Duplicates | scripts/run_tests.py:146-156 | The loop reports exactly the identities that occur more than once |
| TestGate.Result.Count | scripts/run_tests.py:157-176 | The loop's counts and sets are those of the manifest, every entry under exactly one count |
| TestGate.CountersCount | scripts/run_tests.py:90-98 | Bad and skipped are counted to the entry |
| TestGate.Result.Unverified | scripts/run_tests.py:101-120 | Without anything trustworthy every expected test is missing by name and the suite has failed |
| TestGate.Result.EnforceNonEmpty | scripts/run_tests.py:217-231 | Collecting or executing nothing is a failure |
| TestGate.CountsMean | scripts/run_tests.py:90-98 | No bad entry counted means none is there; fewer skipped than reported means something ran |
| TestGate.CheckBaseline | scripts/run_tests.py:435-470 | Unreadable is broken; else an unfiltered run reports exactly the difference in both directions |
| TestGate.TimedOutMayPass | scripts/run_tests.py:336-422 | A suite stopped for time passes if its process had already ended well with a full manifest |

## Left out

- SQLite, WAL, file modes, locks, launchd: ledgers are values with atomic writes; a crash falls between writes, never inside one.
- Sub-processes, git, sandbox profiles, HTTP, the provider broker, App Attest, hashing: outcomes are inputs, fresh ids never collide, digests are compared by what they are a digest of.
- Stopping and starting the loop inside one process, and the sleep between ticks; a restart is a death followed by reconciliation.
- A run whose task has vanished from the ledger, and everything a task row holds beyond its scope.
- Notes, findings, sources, summaries, reports, artefacts, events and provenance of arguments: they inform the planner and the user, who are inputs.
- The planner's prompt, tiers and leases, and the decoding of its reply; a plan enters as decoded, and the policy on it as a predicate. Lease discipline is modelled for the technical lead.
- The catalogue of capabilities and the list of blocked ones: their effect is part of the router's outcome.
- The order of writes inside one row update, and the wall clock: time limits and quota windows enter as values.
- The choice and the closing of a workspace after the end of a run.
- Adapter exceptions in the driver, apart from the ones it catches, end its process; that is a death.
- Each `transition` of the autopilot machine is one write; its source writes fields and state one after the other.
- The limits of 200 phases and 60 events the driver reads: which entries are cited is an input, the count of failures is over all phases.
- Stripping and case folding of the lead's strings and of JSON texts; lists and words enter as decoded.
- Routing by privacy class, result download and its digest, and attempt counters of background jobs.
- Health, lookup and statistics endpoints of the payment sandbox, and the bearer tokens behind the roles.
- Floating point in the resampler: positions are exact multiples of 1/dst, and an input has a whole number of samples.
- The interpreter's limit on the digits of an integer in the frame header; parsing of human-readable test output, which the verdict ignores.
- Temporary directories of suites and their disposal.
