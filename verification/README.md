# Refund-operations agents: verified model

A Dafny 4.11 model of the refund-operations agents: the case-resolution protocol and its store, the
billing and risk verdicts that feed it, the two timeline builders that order its event logs, and the
idempotency machinery its transports rely on. `dafny verify dfyconfig.toml` checks the whole project.

## What is modelled

**The case-resolution protocol** (`CaseModels`, `DecisionEngine`, `PeerVocabulary`, `StoreSpec`,
`StateStore`, `Protocol`, `ProtocolSafety`, `ProtocolFrame`, `ProtocolProgress`, `ProtocolTheorems`,
`FailedDelegation`, `FailedTask`, `CaseOutcomes`, `TicketCourse`, `ReaperSweep`, `EventHandlers`,
`EventLoops`, `Confluence`, `Rendezvous`). Five loops share one mutable store: intake, billing results,
risk results, generic task results and the reaper. Every handler is cut at its awaits; a suspended handler
is a continuation in the state, and any number of them may interleave in any order over unboundedly many
cases. `StateStore` is the store with its shared mutable case objects; `EventHandlers` is the code of each
handler segment over that store, each method proved equal to one step of `Protocol`, and `EventLoops` runs
the segments through any history. The theorems hold in every reachable state or along every run.

The environment the protocol is run in: `uuid5` is injective in correlation and capability (a datatype);
the ticket consumer handles one message at a time and a case's id is its correlation id; the clock never
goes back; a publish raises only inside a delegation, where it is caught. Results may be duplicated,
reordered, early, late or missing.

**The verdict pipeline** (`RulesEngine`, `Scoring`, `RiskBands`, `Approval`). From billing facts and risk
signals to the published decision. Money is whole cents, time whole microseconds, scores whole tenths,
confidences and ratios reals.

**Event timelines** (`EventLog`, `CausalForest`, `Trace`, `TraceOrder`, `AuditTimeline`, `AuditChains`).
Breadth-first `trace_case` and depth-first `_causal_sort` over the same, possibly cyclic, causation. Event
ids are assumed distinct.

**Idempotency** (`Lru`, `Compaction`, `Idempotency`, `Discovery`, `AgentRuntime`, `HandlerRuns`, `LlmCache`,
`LlmEndings`) and **topic names** (`Topics`). Topics are sequences of records, publishing an append, the model
provider an arbitrary function from call numbers to replies.

## Where the code differs from what is said of it

- The decision claim is described as at most once; the delegation-failure branch emits without it.
  `ProtocolTheorems.DelegationFailureDecidesTwice` gives a run with two decisions;
  `FailedDelegation.DecidedTwiceExactly` says exactly when there are two: when somebody has settled the
  case by the time the failed branch saves its status.
- The decision table documents an escalation reason `peer_failure`; both `failed` properties are fixed
  to false, so it never comes out of the table (`DecisionEngine.EscalationReasonsExactly`). A failed
  slot surfaces as a missing analysis.
- The timeout scenarios expect an escalated case to reach the status `escalated`. After a policy escalation,
  a timeout's included, it stays `decided` (`FailedTask.FailedTaskEscalatesAtOnce`);
  `CaseOutcomes.StatusTellsDecision` says which decision each status stands for.
- The trace is described as topologically ordered. That fails when an event with a cause stands in for a
  missing root, and among orphans whose timestamps contradict causation;
  `TraceOrder.MutualCausesMisordered` and `TraceOrder.EarlyEffectMisordered` give the inputs,
  `TraceOrder.TraceExtendsCausationExactly` says when it holds.
- The fraud policy text gives smaller weights than the scoring code for several rules; the model follows
  the code.
- Heavy usage turns any denial into a partial finding, an expired refund window included
  (`RulesEngine.FindingExactly`), and a zero payment with a reversal is approved with a negative amount
  (`RulesEngine.ZeroPaymentReversed`).
- A task for a capability without a handler is answered but never marked processed, so a duplicate of it
  is answered again rather than skipped (`AgentRuntime.UnhandledAnsweredTwice`);
  `AgentRuntime.SkippedExactly` says when a delivery is skipped.
- Grounding is enforced on repaired replies only: a first reply that fits the schema is accepted, cached
  and served ungrounded (`LlmCache.MissExactly`).

## Model

| member | source | states |
|---|---|---|
| `ProtocolTheorems.DecisionsExactly` | apps/agents/customer_resolution/event_handlers.py:359-415 | in every reachable state a case has at most two decided events, and two exactly when one is the unguarded emit of a failed delegation and the other comes from a claimant; a direct response is alone |
| `ProtocolTheorems.AtMostOneDecision` | apps/agents/customer_resolution/event_handlers.py:520-580 | along every run in which no publish of a delegation raises, a case is decided at most once, whatever is duplicated, reordered, late or lost |
| `ProtocolTheorems.SettledExactly` | apps/agents/customer_resolution/state_store.py:244-263 | a case without a failed delegation is settled exactly when its decision is out, or one claimant (never two) still owes it, or its direct response is out and its closing status is saved |
| `ProtocolTheorems.DelegationFailureDecidesTwice` | apps/agents/customer_resolution/event_handlers.py:395-415 | for every refund ticket there is a run that decides it twice: the claim does not guard the delegation-failure branch |
| `ProtocolTheorems.FailureAfterClaimDoubles` | apps/agents/customer_resolution/event_handlers.py:395-415 | a delegation that fails after a claimant settled the case always leaves two decisions, out or owed |
| `FailedDelegation.DecidedTwiceExactly` | apps/agents/customer_resolution/event_handlers.py:395-415 | a case whose delegation failed has two decisions, out or owed, in every run from the save of its escalation on, exactly when somebody had settled it by that save, and otherwise one |
| `FailedDelegation.AtTheSave` | apps/agents/customer_resolution/event_handlers.py:395-415 | when the escalation is about to be saved, the case is settled exactly when a claimant has published its decision or owes it, so two are out or owed exactly then |
| `FailedDelegation.FailureOnUnsettledIsAlone` | apps/agents/customer_resolution/event_handlers.py:395-415 | if nobody has settled the case by the save, however much ran since the emission, that escalation is the only decision in every continuation of the run |
| `ProtocolTheorems.StoreConsistent` | apps/agents/customer_resolution/state_store.py:89-193 | in every reachable state both indexes agree with the case map, and pending tasks belong to the case's own two |
| `ProtocolTheorems.PendingDisjoint` | apps/agents/customer_resolution/a2a_handlers.py:247-254 | different cases never share a pending task |
| `ProtocolTheorems.CasesOnlyAdvance` | apps/agents/customer_resolution/event_handlers.py:338-384 | along every run versions never drop, a settled case stays settled, and the status rank drops only through a failed delegation |
| `ProtocolTheorems.VerdictExplained` | apps/agents/customer_resolution/event_handlers.py:536-569 | a peer-driven decision is never a direct response; one other than an escalation was computed from both findings, still on the case, with nothing pending |
| `ProtocolTheorems.FailedSlotEscalates` | apps/agents/customer_resolution/state_store.py:265-293 | once a slot failed before its finding came, every decision of every later run is an escalation; a failed billing slot stays empty, and a failed risk slot unless an elevated-risk escalation filled it |
| `FailedTask.FailedTaskEscalatesAtOnce` | apps/agents/customer_resolution/event_handlers.py:503-580 | on any waiting case of a reachable state, a failed result of either of its pending tasks, handled to its end, adds exactly one decision, an escalation for a missing analysis or a timeout, even with the other peer pending; the status is then decided |
| `ProtocolTheorems.WaitingIsForSomebody` | apps/agents/customer_resolution/models.py:302-310 | a case whose status is waiting has a peer yet to answer and none that failed |
| `CaseOutcomes.ReasonsExactly` | apps/agents/customer_resolution/event_handlers.py:359-742 | in every reachable state a decision has a reason exactly when it escalates; peer_failure is exactly a failed delegation's, elevated_risk exactly the risk handler's, a direct response exactly the intake's |
| `CaseOutcomes.StatusTellsDecision` | apps/agents/customer_resolution/event_handlers.py:372-742 | at rest and short of a failed delegation, a case is escalated exactly after an elevated-risk escalation, closed exactly after a direct response, decided exactly after any other decision, policy escalations included |
| `CaseOutcomes.EscalatedRiskIsOnFile` | apps/agents/customer_resolution/event_handlers.py:720-742 | a case escalated for elevated risk keeps, for good, the adverse finding that escalated it |
| `TicketCourse.TicketAnswered` | apps/agents/customer_resolution/event_handlers.py:359-375 | whatever else the store holds, a new ticket without need of review gets one direct response and is closed |
| `TicketCourse.TicketDelegated` | apps/agents/customer_resolution/event_handlers.py:377-393 | whatever else the store holds, a new refund ticket ends with both tasks pending and indexed, under a deadline of fifteen seconds, undecided |
| `ProtocolTheorems.PendingDecisionEscalates` | apps/agents/customer_resolution/models.py:344-356 | a decision computed while a peer is pending escalates, as a timeout exactly when the deadline has passed, which for the reaper it always has |
| `ProtocolTheorems.NeverStuck` | apps/agents/customer_resolution/state_store.py:317-332 | an undecided delegated case has a deadline, and waits for a peer or is about to be claimed |
| `ProtocolTheorems.QuiescentCases` | apps/agents/customer_resolution/state_store.py:317-332 | with nothing in flight, an unsettled case is pending under a deadline, so the reaper finds it once that has passed |
| `ReaperSweep.SweepSettlesTimedOut` | apps/agents/customer_resolution/reaper.py:58-86 | whatever interleaves with it, a sweep over n cases that is resumed 4n + 1 times has settled every case timed out at its start, for good |
| `ReaperSweep.SweepDecidesEverything` | apps/agents/customer_resolution/reaper.py:58-86 | a sweep begun at rest after all deadlines leaves every case with a published decision once the system is at rest again |
| `ReaperSweep.SweepEnds` | apps/agents/customer_resolution/reaper.py:58-86 | resumed often enough, whatever interleaves, every sweep comes to its end: four resumptions a case and one more |
| `ReaperSweep.SweepAloneComesToRest` | apps/agents/customer_resolution/reaper.py:58-86 | left to itself, a sweep begun at rest over n cases is at rest again after 4n + 1 resumptions |
| `ReaperSweep.SettledAtRestIsDecided` | apps/agents/customer_resolution/event_handlers.py:536-569 | with nothing in flight, every settled case has its decision published |
| `ReaperSweep.ListedExactly` | apps/agents/customer_resolution/state_store.py:317-332 | a sweep lists exactly the undecided delegated cases with a peer still to answer after the deadline |
| `ProtocolSafety.StepInv` | apps/agents/customer_resolution/event_handlers.py:272-761 | every step of every loop keeps the protocol invariant |
| `ProtocolSafety.CompletedTaskResultIgnored` | apps/agents/customer_resolution/event_handlers.py:442-474 | a completed generic task result never changes anything |
| `ProtocolSafety.KnownTicketSkipped` | apps/agents/customer_resolution/event_handlers.py:309-317 | a redelivered ticket changes nothing once its case exists and the intake is idle |
| `ProtocolFrame.OtherCasesUntouched` | apps/agents/customer_resolution/event_handlers.py:272-761 | a step on one case leaves every other case and its decisions unchanged |
| `ProtocolFrame.RunClimbs` | apps/agents/customer_resolution/event_handlers.py:338-384 | along a run each case only climbs: version, settledness and, without a failed delegation, rank |
| `ProtocolProgress.ReachableProgress` | apps/agents/customer_resolution/event_handlers.py:536-569 | in every reachable state a claimed case has its decision out or owed, and a ready one has someone about to claim it |
| `EventHandlers.ResolutionLoops.IntakeTicket` | apps/agents/customer_resolution/event_handlers.py:272-317 | case creation and the duplicate check, on shared objects, are the protocol's ticket step |
| `EventHandlers.ResolutionLoops.IntakeClassify` | apps/agents/customer_resolution/event_handlers.py:338-340 | classification writes triage and status on the object and saves it: the protocol's step |
| `EventHandlers.ResolutionLoops.IntakeRoute` | apps/agents/customer_resolution/event_handlers.py:359-384 | routing a classified ticket to a direct response or to a delegation with a deadline is the protocol's step |
| `EventHandlers.ResolutionLoops.IntakeCloseDirect` | apps/agents/customer_resolution/event_handlers.py:372-375 | closing after a direct response is the protocol's step |
| `EventHandlers.ResolutionLoops.DelegateRegisterBilling` | apps/agents/customer_resolution/a2a_handlers.py:247-253 | minting both task ids and registering the first is the protocol's step |
| `EventHandlers.ResolutionLoops.DelegateRegisterRisk` | apps/agents/customer_resolution/a2a_handlers.py:252-254 | registering the second task, still before any publish, is the protocol's step |
| `EventHandlers.ResolutionLoops.DelegatePublish` | apps/agents/customer_resolution/a2a_handlers.py:256-291 | each publish of the delegation, or its failure and the escalation after it, is the protocol's step |
| `EventHandlers.ResolutionLoops.IntakeSaveEscalated` | apps/agents/customer_resolution/event_handlers.py:414-415 | saving the escalated status after a failed delegation is the protocol's step |
| `EventHandlers.ResolutionLoops.BillingResultHandler` | apps/agents/customer_resolution/event_handlers.py:583-642 | accepting a billing result up to its first suspension is the protocol's step |
| `EventHandlers.ResolutionLoops.RiskResultHandler` | apps/agents/customer_resolution/event_handlers.py:663-720 | accepting a risk result, and choosing between attaching and escalating at once, is the protocol's step |
| `EventHandlers.ResolutionLoops.ResultHandler` | apps/agents/customer_resolution/event_handlers.py:423-509 | accepting a generic task result is the protocol's step |
| `EventHandlers.ResolutionLoops.AttachBillingFinding` | apps/agents/customer_resolution/event_handlers.py:644-647 | attaching a billing finding is the protocol's step |
| `EventHandlers.ResolutionLoops.AttachRiskFinding` | apps/agents/customer_resolution/event_handlers.py:750-753 | attaching a risk finding is the protocol's step |
| `EventHandlers.ResolutionLoops.FailPeerTask` | apps/agents/customer_resolution/event_handlers.py:503-509 | marking a slot failed is the protocol's step, which makes the case ready and leads to an escalation at once (`FailedTask.FailedTaskEscalatesAtOnce`) |
| `EventHandlers.ResolutionLoops.ClaimPolicyDecision` | apps/agents/customer_resolution/event_handlers.py:536-538 | the claim that guards a policy decision is the protocol's step |
| `EventHandlers.ResolutionLoops.EmitPolicyDecision` | apps/agents/customer_resolution/event_handlers.py:544-566 | computing and emitting a policy decision is the protocol's step |
| `EventHandlers.ResolutionLoops.EmitRiskEscalation` | apps/agents/customer_resolution/event_handlers.py:726-740 | emitting the elevated-risk escalation is the protocol's step |
| `EventHandlers.ResolutionLoops.CheckAfterDomainResult` | apps/agents/customer_resolution/event_handlers.py:649-655 | the readiness check after a domain result is the protocol's step |
| `EventHandlers.ResolutionLoops.AttachGenericResult` | apps/agents/customer_resolution/event_handlers.py:476-502 | attaching a generic result, or failing its slot when it does not parse, is the protocol's step |
| `EventHandlers.ResolutionLoops.CheckAfterTaskResult` | apps/agents/customer_resolution/event_handlers.py:511-517 | the readiness check after a generic result, which does not look at the status, is the protocol's step |
| `EventHandlers.ResolutionLoops.FinishPolicyDecision` | apps/agents/customer_resolution/event_handlers.py:568-569 | saving the decided status is the protocol's step |
| `EventHandlers.ResolutionLoops.ClaimRiskEscalation` | apps/agents/customer_resolution/event_handlers.py:720-725 | the claim that guards a risk escalation is the protocol's step |
| `EventHandlers.ResolutionLoops.FinishRiskEscalation` | apps/agents/customer_resolution/event_handlers.py:741-742 | saving the escalated status is the protocol's step |
| `EventHandlers.ResolutionLoops.ReaperList` | apps/agents/customer_resolution/reaper.py:58-63 | the reaper's list holds exactly the timed-out cases |
| `EventHandlers.ResolutionLoops.ReaperNext` | apps/agents/customer_resolution/reaper.py:65-84 | the reaper's move to the next case is the protocol's step |
| `EventLoops.Perform` | apps/agents/customer_resolution/event_handlers.py:272-761 | whichever loop goes on next, over the shared objects, makes exactly one step of the protocol |
| `EventLoops.Serve` | apps/agents/customer_resolution/event_handlers.py:272-761 | from nothing and through any history of messages, ticks and resumptions, the objects are in a reachable state: at most two decided events a case, at most one while no publish of a delegation raises |
| `StateStore.InMemoryCaseStateStore.GetOrCreate` | apps/agents/customer_resolution/state_store.py:98-133 | an existing case is found by correlation or id; otherwise one is filed under both |
| `StateStore.InMemoryCaseStateStore.Save` | apps/agents/customer_resolution/state_store.py:150-172 | a stale expected version changes nothing; otherwise the object is filed and versioned |
| `StateStore.InMemoryCaseStateStore.Transition` | apps/agents/customer_resolution/state_store.py:174-184 | a legal transition moves status and version; an illegal one or an unknown case changes nothing |
| `StateStore.InMemoryCaseStateStore.AddPendingTask` | apps/agents/customer_resolution/state_store.py:186-193 | the task becomes pending and indexed |
| `StateStore.InMemoryCaseStateStore.ApplyResult` | apps/agents/customer_resolution/state_store.py:195-242 | the finding is attached and its task released only on an unsettled case with that task pending |
| `StateStore.InMemoryCaseStateStore.ClaimDecision` | apps/agents/customer_resolution/state_store.py:244-263 | the claim succeeds on an unsettled case only, and settles it |
| `StateStore.InMemoryCaseStateStore.MarkSlotFailed` | apps/agents/customer_resolution/state_store.py:265-293 | the slot fails and its task is released unless the case is terminal (`StoreSpec.FailureReleasesTask`), and the case is ready at once (`FailedTask.FailedTaskEscalatesAtOnce`) |
| `StateStore.InMemoryCaseStateStore.ListTimedOutCases` | apps/agents/customer_resolution/state_store.py:317-332 | the list holds exactly the undecided delegated cases past their deadline, once each |
| `StateStore.InMemoryCaseStateStore.GetByCorrelationId` | apps/agents/customer_resolution/state_store.py:138-142 | the case filed under the correlation, or nothing |
| `StateStore.InMemoryCaseStateStore.GetByTaskId` | apps/agents/customer_resolution/state_store.py:144-148 | the case that owns the task, or nothing |
| `StateStore.InMemoryCaseStateStore.SetDeadline` | apps/agents/customer_resolution/state_store.py:311-315 | the deadline of a known case is set; an unknown case changes nothing |
| `StoreSpec.ClaimSucceedsOnce` | apps/agents/customer_resolution/state_store.py:244-263 | a claim succeeds exactly on an unsettled case; after it, whatever operations the handlers run in between, no claim of the case succeeds and no result attaches |
| `StoreSpec.ResultAppliesOnce` | apps/agents/customer_resolution/state_store.py:195-293 | a task's result is attached at most once, and never after its slot failed |
| `StoreSpec.LostUpdatePrevented` | apps/agents/customer_resolution/state_store.py:150-172 | of two saves that carry the version they were read at, the second fails until it is redone on the new version |
| `StoreSpec.CreatedOnce` | apps/agents/customer_resolution/state_store.py:98-133 | a case asked for again by its correlation is found as it was left |
| `StoreSpec.SavedIsFound` | apps/agents/customer_resolution/state_store.py:150-172 | a saved case is found under its id and its correlation, as saved, with the next version |
| `StoreSpec.FailureReleasesTask` | apps/agents/customer_resolution/state_store.py:265-293 | a failed task is waited for no longer, every other task as before, and nothing changes on a case that is over |
| `StoreSpec.TransitionHappensOnce` | apps/agents/customer_resolution/state_store.py:174-184 | a transition that succeeds leaves the status asked for and cannot be repeated; one that does not changes nothing |
| `StoreSpec.MovesAtMostSix` | apps/agents/customer_resolution/state_store.py:174-184 | of any sequence of transition() calls on a case at most six succeed, and the version counts them |
| `CaseModels.TransitionChainsAreShort` | apps/agents/customer_resolution/models.py:45-93 | the transition table is acyclic: no chain of transitions is longer than six, none revisits a status |
| `CaseModels.LongestTransitionChain` | apps/agents/customer_resolution/models.py:45-93 | six is attained |
| `CaseModels.TransitionsExactly` | apps/agents/customer_resolution/models.py:45-93 | the transition table by its columns: from where each status can be reached |
| `DecisionEngine.OutcomesExactly` | apps/agents/customer_resolution/decision_engine.py:118-286 | each outcome of the decision table, both ways, without the order of its rows |
| `DecisionEngine.EscalationReasonsExactly` | apps/agents/customer_resolution/decision_engine.py:144-286 | each escalation reason, both ways; peer_failure is never one of them |
| `DecisionEngine.ConfidenceIsWeakestLink` | apps/agents/customer_resolution/decision_engine.py:49-71 | the confidence bar is met exactly when triage, billing and risk each meet it |
| `Confluence.OrdersAgreeExactly` | apps/agents/customer_resolution/event_handlers.py:710-761 | both arrival orders publish the same outcome and reason, except exactly when risk is adverse and billing ineligible |
| `Rendezvous.InterleavingsAgree` | apps/agents/customer_resolution/event_handlers.py:583-761 | however deliveries of one billing and one risk payload interleave, duplicates and other cases included, the case has at most one decision, that of one of the two orders, and the one verdict unless risk is adverse and billing ineligible |
| `Confluence.BillingThenRiskDecides` | apps/agents/customer_resolution/event_handlers.py:644-761 | billing first, then risk, publishes one decision: the risk escalation when risk is adverse and billing is not ineligible, else the table's |
| `Confluence.RiskThenBillingDecides` | apps/agents/customer_resolution/event_handlers.py:644-761 | risk first, then billing, publishes one decision: the risk escalation when risk is adverse, else the table's |
| `PeerVocabulary.EligibilityExactly` | apps/agents/customer_resolution/event_handlers.py:79-93 | what each eligibility stands for, both ways, heavy usage included |
| `PeerVocabulary.LevelExactly` | apps/agents/customer_resolution/event_handlers.py:140-193 | what each risk level stands for, both ways, unknown words read as scores |
| `RulesEngine.FindingExactly` | apps/agents/billing_entitlement/rules_engine.py:107-406 | the finding the decision engine sees, both ways, from the billing facts; heavy usage turns any denial, an expired window included, into a partial finding |
| `RulesEngine.BoundariesExactly` | apps/agents/billing_entitlement/rules_engine.py:90-99 | otherwise clean facts are approved exactly before day thirty-one and up to four fifths of usage, with less confidence exactly on the last day and at the usage threshold |
| `RulesEngine.ApprovedAmountExactly` | apps/agents/billing_entitlement/rules_engine.py:107-406 | the eligible amount is zero unless approved, and the whole payment exactly when nothing was reversed |
| `RulesEngine.ZeroPaymentReversed` | apps/agents/billing_entitlement/rules_engine.py:107-406 | a zero payment with a reversal is approved with a negative amount |
| `Scoring.AssessSignals` | apps/agents/risk_fraud/scoring.py:52-418 | the gates, the list of fired rules, the summing loop and the special endings come to one assessment |
| `Scoring.ComputeScore` | apps/agents/risk_fraud/scoring.py:435-484 | the accumulating path equals the capped sum of the points of all rules and lies within bounds |
| `Scoring.FireRules` | apps/agents/risk_fraud/scoring.py:215-288 | the cascade of rules, with its own branches and contributions, fires a list that adds up to the points of the other path, and fires none exactly when there are none |
| `Scoring.ScoreIsMonotone` | apps/agents/risk_fraud/scoring.py:426-484 | score and level never drop when any signal gets worse, appears, or the requested amount grows |
| `Scoring.ClearedExactly` | apps/agents/risk_fraud/scoring.py:52-418 | risk is neither adverse nor flagged exactly when signals exist, off the blocklist, not high-value, not contradictory, scoring below one half |
| `Scoring.ChargebackNeverCleared` | apps/agents/risk_fraud/scoring.py:406-418 | a customer with any chargeback is never cleared |
| `RiskBands.BandsExactly` | apps/agents/risk_fraud/scoring.py:215-484 | elevated, high and borderline scores from the number of strong and weak signals alone, with no weights |
| `RiskBands.AssessmentExactly` | apps/agents/risk_fraud/scoring.py:52-418 | each action, the level, the review flag and the confidence, both ways, from the signals |
| `Approval.VerdictApprovesExactly` | apps/agents/customer_resolution/decision_engine.py:144-286 | billing facts and risk signals lead to an approval, in either order, exactly when triage is confident and every gate of both peers is passed |
| `Approval.ApprovedExactly` | apps/agents/customer_resolution/event_handlers.py:583-761 | on a fresh delegation with both results delivered once, the one published decision approves exactly when triage is confident and every gate is passed |
| `Approval.ApprovedInFull` | apps/agents/billing_entitlement/rules_engine.py:107-406 | an approved refund of a positive payment, never negatively reversed, is the whole payment |
| `Trace.TraceCase` | apps/agents/customer_resolution/trace.py:70-177 | one numbered step for each envelope of the case and no other, in the order reached then orphaned; each step's parent is the event its causation names, failing that the first task request that carries it as task id, failing that none |
| `Trace.ParentExactly` | apps/agents/customer_resolution/trace.py:97-115 | the parent the trace works with is the cause read off the envelopes: their ids, types, task ids and causations |
| `Trace.IndexRequests` | apps/agents/customer_resolution/trace.py:103-108 | a task id is indexed to the first event that requests it, whose type holds the word task_request (`Trace.ParentExactly`) |
| `Trace.BreadthFirstSearch` | apps/agents/customer_resolution/trace.py:140-153 | the queue loop with its visited set terminates on any causation, cycles included, and visits in first-in first-out order until the queue is empty |
| `Trace.BreadthFirstUnique` | apps/agents/customer_resolution/trace.py:140-153 | first-in first-out until empty determines the order |
| `Trace.NextVisit` | apps/agents/customer_resolution/trace.py:145-153 | the queue never holds an event twice, so what is taken from it is never already visited |
| `TraceOrder.ReachedExactly` | apps/agents/customer_resolution/trace.py:140-158 | the reached block is exactly what a root leads to, the orphan block exactly the rest, by time |
| `TraceOrder.TracePermutes` | apps/agents/customer_resolution/trace.py:91-158 | every event of the case appears once |
| `TraceOrder.CausesFirst` | apps/agents/customer_resolution/trace.py:118-153 | roots lead by time; every other reached event follows its cause; effects stand in the order of their causes, those of one cause by time |
| `TraceOrder.CauseListedFirst` | apps/agents/customer_resolution/trace.py:97-158 | an event is listed after its cause, as its envelope names it, whenever the cause is earlier |
| `TraceOrder.ResultAfterRequest` | apps/agents/customer_resolution/trace.py:97-115 | a result whose causation is a task id has the first request of that task as its parent and is listed after it |
| `TraceOrder.UncausedLead` | apps/agents/customer_resolution/trace.py:118-138 | events without a causation lead the trace, by time |
| `TraceOrder.EarliestLeads` | apps/agents/customer_resolution/trace.py:118-138 | without any, an earliest event leads |
| `TraceOrder.NearestFirst` | apps/agents/customer_resolution/trace.py:140-153 | causal distance from the roots never drops along the reached block |
| `TraceOrder.TraceExtendsCausationExactly` | apps/agents/customer_resolution/trace.py:91-158 | the whole trace lists causes before effects exactly when no event with a cause stood in for a root and every unreachable effect is stably no earlier than its cause |
| `TraceOrder.MutualCausesMisordered` | apps/agents/customer_resolution/trace.py:118-158 | two events that cause each other are listed with one before its cause: the claimed order fails |
| `TraceOrder.EarlyEffectMisordered` | apps/agents/customer_resolution/trace.py:155-158 | below an event whose cause is lost, an effect with an earlier timestamp is listed before its cause: the claimed order fails |
| `TraceOrder.TraceExtendsCausation` | apps/agents/customer_resolution/trace.py:91-158 | with times that increase along resolved causes, task ids included, the whole trace is a linear extension of causation |
| `EventLog.StableSort` | apps/agents/customer_resolution/trace.py:136-138 | events with one timestamp keep their input order |
| `EventLog.SortedOrderExactly` | apps/agents/customer_resolution/trace.py:155-158 | one event precedes another in sorted order exactly when it is earlier, or as old and earlier in the input |
| `CausalForest.EndlessExactlyCyclic` | packages/testing/audit_timeline.py:270-274 | some event never reaches a root exactly when the parent relation has a cycle |
| `CausalForest.GroupByParent` | packages/testing/audit_timeline.py:271-274 | the grouping loop files every event under its parent, in input order |
| `CausalForest.SortSiblings` | packages/testing/audit_timeline.py:276-278 | sorting each list leaves every sibling group by time |
| `AuditTimeline.CausalSorter.Walk` | packages/testing/audit_timeline.py:282-287 | the recursive walk without a visited set terminates on every log and appends the preorder |
| `AuditTimeline.CausalSort` | packages/testing/audit_timeline.py:262-294 | the walk from the top, then the stragglers by time; what that means for raw causations is stated by `AuditChains.CauseThenItsOwn` |
| `AuditChains.CauseThenItsOwn` | packages/testing/audit_timeline.py:270-287 | a walked event stands behind the event its causation names, and everything between them leads back to that event along causations |
| `AuditChains.SubtreeDirectlyFollows` | packages/testing/audit_timeline.py:282-287 | each walked event is directly followed by exactly the events whose causations lead back to it |
| `AuditChains.EffectsEarliestFirst` | packages/testing/audit_timeline.py:276-287 | events that name one cause, and those that name none inside the log, are walked earliest first |
| `AuditChains.OutsideIsWalked` | packages/testing/audit_timeline.py:270-274 | an event whose causation is outside the log is walked |
| `AuditChains.StragglersExactlyCircular` | packages/testing/audit_timeline.py:289-292 | something is left over exactly when causations form a cycle inside the log |
| `AuditTimeline.CausalSortPermutes` | packages/testing/audit_timeline.py:262-294 | the timeline holds every event once |
| `AuditTimeline.WalkedExactly` | packages/testing/audit_timeline.py:282-287 | the walk visits exactly the events whose causes lead to one without a cause in the log |
| `AuditTimeline.SubtreesContiguous` | packages/testing/audit_timeline.py:282-287 | each visited event is directly followed by exactly its descendants |
| `AuditTimeline.SiblingsByTime` | packages/testing/audit_timeline.py:276-287 | effects of one cause, and events without one, are visited earliest first |
| `AuditTimeline.StragglersExactlyCyclic` | packages/testing/audit_timeline.py:289-292 | something is left over exactly when causation has a cycle |
| `Topics.TopicRoundTripExactly` | packages/testing/audit_timeline.py:66-87 | parsing an endpoint topic returns the agent id exactly when the environment has no agent segment and the id no task segment, or the environment happens to spell the id itself |
| `Topics.EndpointsDistinct` | packages/contracts/topics.py:55-56 | agents of one environment never share an endpoint topic |
| `Topics.EndpointTopicIs` | packages/contracts/topics.py:55-56 | the endpoint topic, spelt out |
| `Topics.PayloadWins` | packages/testing/audit_timeline.py:66-73 | a target in the payload wins over the topic, target_agent_id over agent_id over target |
| `Topics.JoinOfSplit` | packages/testing/audit_timeline.py:74-84 | joining what was split gives the string back |
| `Topics.SplitOfJoin` | packages/testing/audit_timeline.py:74-84 | splitting what was joined from dot-free segments gives the segments back |
| `Lru.LRUCache.Contains` | src/agent_foundation/idempotency.py:19-23 | a hit moves its id to the recent end; a miss changes nothing |
| `Lru.LRUCache.Add` | src/agent_foundation/idempotency.py:25-29 | the id becomes the most recent; the oldest goes when the cache overflows |
| `Lru.CacheIsRecentEnd` | src/agent_foundation/idempotency.py:14-29 | after any history the cache is the last maxsize distinct ids by last touch, in that order |
| `Lru.PresentExactly` | src/agent_foundation/idempotency.py:14-29 | an id is present exactly when it was added and fewer than maxsize distinct others were touched since; the bound is never exceeded |
| `Lru.TouchProtectsExactly` | src/agent_foundation/idempotency.py:14-29 | an add, and a lookup that hits as well, keeps its key through exactly fewer than maxsize distinct later adds |
| `Idempotency.IdempotencyTracker.Initialize` | src/agent_foundation/idempotency.py:45-94 | replaying a readable prefix of the topic adds its parsable ids in order |
| `Idempotency.IdempotencyTracker.IsDuplicate` | src/agent_foundation/idempotency.py:96-99 | the answer is presence in the cache, after a first-use rebuild |
| `Idempotency.IdempotencyTracker.MarkProcessed` | src/agent_foundation/idempotency.py:101-122 | the cache remembers at once, the topic only if the write goes through |
| `Idempotency.RebuildSurvivesCompaction` | src/agent_foundation/idempotency.py:64-94 | rebuilding from any partial compaction gives the same ids in the same recency order |
| `Idempotency.RememberedAfterRestart` | src/agent_foundation/idempotency.py:64-94 | after a restart an id counts as processed exactly when it was persisted and fewer than maxsize distinct others were since |
| `Idempotency.DuplicateExactly` | src/agent_foundation/idempotency.py:96-99 | the first answer of a restarted tracker comes from the topic: a duplicate exactly when a record of the id is there and fewer than maxsize distinct others follow; an initialised tracker does not read the topic again |
| `Compaction.CompactedReplay` | src/agent_foundation/idempotency.py:64-94 | dropping superseded records changes neither the ids of a log nor the order of their last records |
| `Discovery.DiscoverAgents` | src/agent_foundation/runtime/discovery.py:64-82 | the loop computes the latest card per agent |
| `Discovery.LatestExactly` | src/agent_foundation/runtime/discovery.py:64-82 | an agent is discovered exactly when some record holds its card, and with the last one |
| `Discovery.DiscoverySurvivesCompaction` | src/agent_foundation/runtime/discovery.py:64-82 | any partial compaction of a log keyed by agent yields the same map |
| `AgentRuntime.Runtime.HandleMessage` | src/agent_foundation/runtime/runtime.py:224-414 | one delivery: its effects and what it does to the cache, for every message and handler outcome; how often the handler runs in it and where is stated by `HandlerRuns.OneMoreRunExactly` and `HandlerRuns.RunStandsBetween` |
| `AgentRuntime.Runtime.RunTask` | src/agent_foundation/runtime/runtime.py:379-408 | the handler's outcome becomes one terminal result; a handler that returns nothing fails |
| `AgentRuntime.Runtime.Serve` | src/agent_foundation/runtime/runtime.py:200-213 | the serve loop over any deliveries |
| `AgentRuntime.OneCourse` | src/agent_foundation/payloads/task.py:41-72 | each delivery does exactly one of: nothing, one rejected result, one skip audit, acceptance with one terminal result; every result satisfies the validator and answers its task |
| `AgentRuntime.RunsAgainExactly` | src/agent_foundation/runtime/runtime.py:314-414 | a task whose handler ran is run again exactly when at least maxsize distinct other tasks were touched since, even if no persist ever succeeded |
| `AgentRuntime.SkippedExactly` | src/agent_foundation/runtime/runtime.py:314-332 | an acceptable delivery is skipped exactly when its id was marked processed and fewer than maxsize distinct others were touched since |
| `AgentRuntime.UnhandledAnsweredTwice` | src/agent_foundation/runtime/runtime.py:333-349 | two deliveries of a task without a handler are both answered |
| `HandlerRuns.OneMoreRunExactly` | src/agent_foundation/runtime/runtime.py:314-414 | a delivery runs the handler at most once, and once exactly when it is acceptable, handled and not remembered |
| `HandlerRuns.RunsFarApart` | src/agent_foundation/runtime/runtime.py:314-414 | between two runs of the handler for one task at least maxsize other tasks were delivered |
| `HandlerRuns.AtMostOncePerTask` | src/agent_foundation/runtime/runtime.py:314-414 | over any run with fewer than maxsize other tasks, the handler runs exactly once for a task that is wanted at all, and never otherwise |
| `HandlerRuns.RunStandsBetween` | src/agent_foundation/runtime/runtime.py:328-408 | the run stands directly between the accepted audit and the published result of its own task |
| `HandlerRuns.AuditFollowsResult` | src/agent_foundation/runtime/runtime.py:379-408 | a published result is directly followed by the audit of its status, and that is the end |
| `HandlerRuns.AnsweredExactly` | src/agent_foundation/runtime/runtime.py:224-414 | a result is completed, with the handler's own output, exactly when the handler ran and returned one; each error has its one reason |
| `LlmCache.InvokeStructured` | src/agent_foundation/llm/structured.py:44-81 | the retry loop is the bounded repair of its specification |
| `LlmCache.RepairExactly` | src/agent_foundation/llm/structured.py:44-81 | repair stops at the first reply that fits the schema and is grounded, at an exception, or after 1 + max_repairs calls |
| `LlmCache.ResultStore.Get` | src/agent_foundation/llm/store.py:20-24 | a hit returns what was last put under the key and refreshes it |
| `LlmCache.ResultStore.Store` | src/agent_foundation/llm/store.py:26-30 | the value is filed as the most recent; the oldest goes when the cache overflows |
| `LlmCache.LLMRuntime.Respond` | src/agent_foundation/llm/runtime.py:130-277 | a request is served from the cache, or reasoned, and only an accepted reply is put; which reply is accepted is stated by `LlmEndings.EndingsExactly` |
| `LlmCache.MissExactly` | src/agent_foundation/llm/runtime.py:181-277 | a miss takes 1 to 2 + max_repairs calls; a model value fits the schema and is the last reply's, anything else that is returned is the fallback; an ungrounded value passes exactly as a first reply |
| `LlmEndings.EndingsExactly` | src/agent_foundation/llm/runtime.py:181-277 | each ending of a miss, both ways, read off the replies: the model's value, the fallback, an exception that propagates |
| `LlmEndings.EndsWithoutRepair` | src/agent_foundation/llm/runtime.py:181-277 | a first reply that fits the schema is the answer, after one call; a first exception gives the fallback with its failure; nothing but rejected texts gives it for invalid output, after 2 + max_repairs calls |
| `LlmEndings.RepairEndsAt` | src/agent_foundation/llm/structured.py:44-81 | after an unfit first reply, the first grounded fitting reply is the answer and the first exception before one propagates, each with its number of calls |
| `LlmEndings.AnsweredThenServed` | src/agent_foundation/llm/runtime.py:133-277 | over any run, a model answer is served from the cache, at no call, to later requests with its key while fewer than maxsize other keys are asked for |
| `LlmCache.ServedIsGenuine` | src/agent_foundation/llm/runtime.py:133-146 | over any run, what the cache serves is the schema-valid model output last put under the key, at no provider call |
| `LlmCache.CalledExactly` | src/agent_foundation/llm/runtime.py:133-146 | the provider is called exactly when nothing was put under the key or at least maxsize distinct other keys were touched since |

## Left out

- Kafka clients, topic creation, HTTP and AgentCore entry points, the command line and the Streamlit views: input and output plumbing.
- The environment variable that overrides the case deadline: the model has its default of fifteen seconds.
- Observability (spans, scores, heartbeats, trace propagation): fail-open wrappers with no effect on results.
- LLM providers, the prompt registry, configuration and pricing: foreign calls and lookups; the provider is an oracle.
- LLM triage and drafting, customer response text, rationales, evidence lists, summaries and PII redaction: strings that drive no verdict; triage is an arbitrary input of the intake step.
- Parking buffers (`park_billing_result`, `park_risk_result`): written and never read.
- Publishes that raise outside a delegation, tracker faults and malformed UUIDs: excluded by the environment; the source lets most of them propagate out of the handler.
- `normalize_billing_result` and `normalize_risk_result` as dictionary parsers: the model starts from parsed payloads and keeps their vocabulary mapping.
- Overlapping intake runs: two consumers of the ticket topic are not modelled.
- `Consumer.run`: the same deduplication loop as the agent runtime, over event ids.
- Other state-store backends: only the in-memory store is part of this model.
- `TimelineEntry` labels, the synthetic terminal entry and rendering of the audit timeline: formatting after the sort.
- `find_capable` and the order of discovered agents: a filter, and a dictionary order that compaction may change.
- Rounding of binary floats in the risk score: contributions and thresholds are tenths, sums exact.
- EventHandlers.ResolutionLoops.ReaperList: any order of the listed cases is allowed; the source's is the insertion order of a dictionary.
- ProtocolFrame.RunClimbs: the rank order is the one the handlers keep; they assign statuses directly, so the transition table itself is a law of `transition` only.
- Idempotency.RebuildSurvivesCompaction: assumes that a record that parses is only superseded by one with the same id, as trackers write them; a foreign record under the same key could hide it.
- Discovery.DiscoverySurvivesCompaction: assumes cards keyed by their agent and superseded by cards only, as agents publish them.
- AuditTimeline.CausalSorter.Walk: terminates on every log here; the source's `_walk` raises once a chain of causes is longer than Python's recursion limit.
- Trace.TraceCase: event ids within a case are assumed distinct; with repeated ids the source drops the repetitions it reaches.
- LlmCache.LLMRuntime.Respond: token usage, latency, model id and prompt references are not part of a result, and persistence of results, whose failure changes nothing, is not modelled.
