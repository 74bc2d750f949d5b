# Casework and payment-memory guard: a verified model

The service keeps, for each tenant, one sealed workspace: tasks in a dependency graph, risk cases, baselines,
decisions, reports, handoffs, an audit chain, an idempotency table and one dictionary of artifacts. Every command is one
locked transaction that loads the workspace, edits it in place, seals it and saves it. A second component remembers
observations about payment targets in a hash chain per subject and binds decisions and finalizations to it, and a
limiter guards its endpoints.

This project models both and proves what they promise. Dafny 4.11 checks it with `dafny verify dfyconfig.toml`.

## How the model is built

- `models.dfy` holds the records. A digest is the content it is taken of, so two digests are equal exactly when their
  contents are; a scope key is its scope; identifiers are naturals, of which only equality and order matter; a sorted
  list of distinct keys is a set. Flags the service sets to one constant (`authority`, `executable`) are not repeated.
- `graph.dfy`, `core.dfy`, `source_state.dfy`, `source_guard.dfy` and `evidence_desk.dfy` hold the rules: closures,
  policy, basis, expiry, evidence, obligations. Each rule is a function, and beside it stand the loops that compute it,
  proved to return exactly that function.
- `commands.dfy` gives the effect of each command on a workspace value, and `envelope.dfy` the shared transaction. A call
  carries what the transaction reads outside the workspace: one reading of the clock, one fresh identifier, the registry
  of principals and the connector configuration, which may differ from call to call.
- `service.dfy` and `store.dfy` are the service as it runs: a loaded workspace whose dictionaries are fields that the
  methods update, and a store of sealed workspaces. Every method is tied to the corresponding function, and
  `CaseworkStore.HandleIsOneStep` ties a transaction on the store to one step of a run.
- `safety.dfy`, `integrity.dfy`, `lifecycle.dfy`, `artifacts.dfy`, `verdicts.dfy`, `blast_radius.dfy`, `recovery.dfy`,
  `runs.dfy` and `resolution_runs.dfy` prove what every command keeps and what holds on every run: any calls, by any
  actors, in any order, accepted or refused, under any configurations and any clock.
- The files named `*_laws.dfy` spell out the rules and the commands on the fields of the records: what counts as evidence
  and as a cause, when each command takes effect, exactly what it stores and answers, and why it is refused.
  `baseline_runs.dfy` carries the owner's limits over whole runs.
- `evidence_binding.dfy`, `acquisition.dfy` and `acquisition_runs.dfy` model evidence acquisition as a transition system:
  collectors reserve inside the lock, fetch outside it and complete later, interleaved with all other commands, with
  crashes at any point and a clock that does not go back.
- `report_stability.dfy` proves that a report survives being stored in the state it was computed from, and
  `report_runs.dfy` that it survives being handed off, accepted and everything else that spares its case.
- `guard_*.dfy` and `guard.dfy` model the hash-chained memory, `rate_limit.dfy` the limiter (over the reals). The limiter's
  class is named for a fixed window; the code slides its window, and so does the model. Its window bound is proved of
  any sequence of the states that `Limiter.Allow` promises.

A stored READY status is not claimed to be a live proof. `BlastRadius.ReadyOutlivesItsProof` shows how it stops being one:
deciding an ancestor again, even to the same verdict, changes the basis of everything that depends on it.

## Model

| member | source | states |
|---|---|---|
| DependencyGraph.AncestorsExact | src/proofops_casework/core.py:81-103 | A closure that is returned lists exactly the tasks reachable upwards, once each, every parent before its child, ending in the task itself |
| DependencyGraph.AncestorsReturnsIff | src/proofops_casework/core.py:86-99 | The walk returns normally if and only if the reachable part of the graph is complete and acyclic; otherwise it raises |
| DependencyGraph.AncestorWalk.Walk | src/proofops_casework/core.py:83-99 | The recursive walk over the visited and visiting sets and the ordered list, updated in place, computes the specified walk |
| DependencyGraph.AncestorsOf | src/proofops_casework/core.py:81-103 | Running the in-place walk from empty collections returns the specified closure or error |
| DependencyGraph.Propagate | src/proofops_casework/core.py:106-115 | The level-by-level fixed point stops with exactly the tasks from which a seed can be reached |
| DependencyGraph.DownstreamIsClosureMeets | src/proofops_casework/core.py:81-115 | The downward fixed point and the upward closures agree: a task is downstream of the seeds if and only if its closure meets them |
| DependencyGraph.GraphExtended | src/proofops_casework/service.py:216-229 | A new task with existing parents leaves the graph well formed and every existing closure as it was |
| Safety.AffectedExact | src/proofops_casework/core.py:106-115 | A task is affected by a scope if and only if the scope occurs in its transitive closure |
| CasePolicy.AffectedTasks | src/proofops_casework/core.py:106-115 | The fixed-point loop over stored tasks returns the affected tasks of a scope |
| CasePolicy.PolicyMeaning | src/proofops_casework/core.py:178-210 | On the stored fields: READY exactly when no case about a closure scope is open, every closure task has a baseline with expiry after the instant and limit at least its amount, every proper ancestor is READY and untainted on a stored, unexpired READY decision about itself and its present basis, and the task is untainted or explicitly reviewed; DENY exactly when a case is open there |
| CasePolicy.PolicyReasons | src/proofops_casework/core.py:192-210 | With no open case, BASELINE_MISSING, BASELINE_EXPIRED and LIMIT_EXCEEDED are given exactly as the fields of the first task in closure order that its baseline does not carry say; with none, DEPENDENCY_REVIEW_REQUIRED exactly for an ancestor without a live proof, and EXPLICIT_RECONSIDERATION_REQUIRED exactly for an unreviewed taint alone |
| PolicyLaws.CausesSay | src/proofops_casework/core.py:186-198 | The causal references are exactly every case about a closure scope, open or resolved, under its present version, and, unless a case is open, every baseline consulted up to the first fault |
| CasePolicy.PolicyResult | src/proofops_casework/core.py:178-210 | The loops over cases, baselines and parents return the specified verdict, reasons, causal references and blockers |
| CasePolicy.LimitOverIsMinimum | src/proofops_casework/core.py:236-250 | The computed expiry is the least of the default, the closure's baseline expiries and the ancestors' proof expiries, and it is attained |
| CasePolicy.ComputeReadyExpiry | src/proofops_casework/core.py:236-250 | The loop over the closure returns the specified expiry, or refuses a basis that has already expired |
| PolicyLaws.ValiditySays | src/proofops_casework/core.py:213-233 | A proof is valid exactly if the current decision is stored, unexpired, on the present basis, with the task's status, and the policy now gives its verdict and its reasons; each reason against it is reported exactly when it holds |
| PolicyLaws.StepSays | src/proofops_casework/core.py:260-269 | Each step of the checklist is given exactly for what stands in the way on the fields: an open case, else a baseline that does not carry a closure task, else an ancestor without a live proof, else the task's own taint or invalid proof |
| CasePolicy.ComputeRecoveryPlan | src/proofops_casework/core.py:253-276 | The checklist has one row for each task of the closure in closure order, with its validity and next step |
| CasePolicy.BuildInvestigationBasis | src/proofops_casework/core.py:163-175 | The basis of an investigation is built from the case, the bases of every affected task, the active precedents and the current source heads, or refused with the error of the first affected task, in order, that has no basis |
| PolicyLaws.BasisCommits | src/proofops_casework/core.py:118-140 | Two workspaces give a task the same basis if and only if they agree on its closure's intents and parents, on the ancestors' statuses and current decisions, and on the baselines, cases and resolution links of its scopes |
| PolicyLaws.InvestigationSays | src/proofops_casework/core.py:143-175 | The basis of an investigation holds the case, the bases of exactly the tasks that depend on its scope, exactly the lessons of other cases of its scope and kind that are still resolved as they were when the lesson was kept, and the current heads |
| ProofValidity.ReadyDownwardClosed | src/proofops_casework/core.py:197-233 | If the policy says READY for a task, every ancestor is READY without review and its stored proof is valid and preparable |
| ProofValidity.PreparableNeedsNoReview | src/proofops_casework/core.py:253-276 | A preparable task has a recovery plan in which every step is NO_REVIEW_NEEDED |
| ProofValidity.PreparedIsPreparable | src/proofops_casework/service.py:522-543 | A successful review preparation implies that the task is preparable at that instant |
| ProofValidity.ExpirySoundAndTight | src/proofops_casework/core.py:236-250 | For a READY task the expiry never raises, the policy stays READY on the unchanged state at every earlier instant, and when the expiry falls short of ten minutes the policy is no longer READY at that instant |
| ProofValidity.ReadyUntilExpiry | src/proofops_casework/service.py:177-210 | After a READY decision is recorded, the policy on the recorded state is READY at every instant before the decision's expiry |
| ProofValidity.VerdictAfterDecision | src/proofops_casework/service.py:177-210 | Recording a decision does not change the verdict it records: re-evaluating at the same instant gives the same verdict and reasons |
| ProofValidity.FreshDecisionValid | src/proofops_casework/service.py:177-210 | Every fresh decision, of any verdict, is a valid current proof right after it is made |
| Recovery.ReconsiderProgresses | src/proofops_casework/service.py:232-242 | Reconsidering the next task in closure order makes it READY and leaves the proofs of the earlier ones valid |
| Recovery.RecoveryIsComplete | src/proofops_casework/core.py:253-276 | With no open case in the closure and baselines that suffice to a horizon, reconsidering the tasks in closure order is accepted every time and leaves all of them READY and preparable at every instant before the horizon |
| BlastRadius.BaselineReachesExactly | src/proofops_casework/service.py:157-175 | Setting a baseline changes the basis of exactly the affected tasks of its scope |
| BlastRadius.RaiseReachesExactly | src/proofops_casework/service.py:244-282 | Opening, ingesting or reopening a case changes the basis of exactly the affected tasks of its scope |
| BlastRadius.ResolveReachesExactly | src/proofops_casework/service.py:472-520 | Resolving a case changes the basis of exactly the affected tasks of its scope |
| BlastRadius.DecidingReachesExactly | src/proofops_casework/core.py:118-140 | A new decision on a task changes the basis of exactly the other tasks whose closure contains it |
| BlastRadius.ReadyOutlivesItsProof | src/proofops_casework/core.py:213-233 | After an ancestor is decided again, even to the same verdict, a dependent keeps its stored status while its proof is reported invalid because its basis changed |
| SourceState.NoConflictsIffAgree | src/proofops_casework/source_state.py:48-88 | No conflict is reported if and only if any two receipts about one resource agree on every field both state other than the update time and the confirmation count |
| SourceState.ConflictsSay | src/proofops_casework/source_state.py:48-88 | The reported conflicts are exactly the fields of a resource, other than those two, with more than one stated value, each with exactly the sources that state it and exactly their values |
| SourceState.CollectConflicts | src/proofops_casework/source_state.py:48-88 | The nested loops that tabulate claims return exactly the specified conflicts |
| SourceState.CollectHeads | src/proofops_casework/source_state.py:13-25 | The loop over artifacts returns the current head of every source, or an error exactly when two current heads name one source |
| EvidenceLaws.HeadsSay | src/proofops_casework/source_state.py:13-25 | The heads exist exactly when no two stored heads of the case at its present version name one source, and are then exactly those stored |
| SourceState.CollectReceipts | src/proofops_casework/source_state.py:91-130 | The loop over heads sorts them into accepted receipts and rejected sources with the first applicable reason |
| EvidenceLaws.AcceptedIffStands | src/proofops_casework/source_state.py:91-130 | A receipt is accepted exactly if its head was observed, it is bound to the case, version, source and head, its specification is the configured one for the tenant and subject, an observed request agrees with it, its times fit the configured time to live, it has not expired and its root is intact |
| SourceGuard.CollectObligations | src/proofops_casework/source_guard.py:9-36 | The loop over artifacts returns the least floor above every stored contribution to the case |
| EvidenceLaws.ObligationsSay | src/proofops_casework/source_guard.py:9-36 | A source, a number of groups or a policy is owed exactly if some stored guard, request, head, receipt or bundle of the case owes it |
| EvidenceLaws.EffectiveSays | src/proofops_casework/source_guard.py:44-61 | The policy is refused as removed exactly if one is owed and none configured, as weakened exactly if it drops a remembered source or asks for fewer groups than remembered, and otherwise adds to what is owed |
| EvidenceLaws.RememberSays | src/proofops_casework/source_guard.py:64-74 | Remembering stores exactly the floor in force with the added sources, and every source ever configured, under the guard of the case, and touches nothing else |
| SourceGuard.RememberPolicyRetains | src/proofops_casework/source_guard.py:64-74 | Remembering any policy with any sources weakens no case's obligations, and the case then owes the policy and the sources |
| EvidenceDesk.BuildContext | src/proofops_casework/source_service.py:45-86 | The evidence context, with its review signals, is computed from obligations, receipts and conflicts as specified, with removed and weakened policies refused |
| EvidenceLaws.ContextSays | src/proofops_casework/source_service.py:45-86 | The context is complete exactly if no head is rejected, no required source is missing, the accepted receipts agree and there are enough groups; it lists exactly the accepted receipts, the other heads as rejected, and the required sources without a receipt as missing |
| EvidenceLaws.GroupsAreCounted | src/proofops_casework/source_service.py:52-54 | The number of groups is the size of the set of groups of the counted receipts, so two receipts of one group count once |
| EvidenceLaws.SignalsSay | src/proofops_casework/source_service.py:61-72 | A signal is given exactly for a receipt that states an open issue or a reverted transaction, a missing or rejected source, or a conflict, under the least of its sources |
| EvidenceLaws.ReportGateSays | src/proofops_casework/source_service.py:88-105 | A report passes exactly if neither policy nor obligations ask for sources, or it quotes evidence exactly once, the present context, which is complete |
| EvidenceLaws.ResolutionGateSays | src/proofops_casework/source_service.py:107-114 | A resolution passes exactly if no sources are asked for, or it names the bundle of the present, complete context |
| EvidenceDesk.CompleteIffUnblocked | src/proofops_casework/source_service.py:55-72 | Evidence is complete if and only if it has enough independence groups and no signal of a missing, rejected or conflicting source |
| EvidenceDesk.CompleteContextCovers | src/proofops_casework/source_service.py:52-60 | A complete context has an accepted, unexpired receipt bound to this case version for every obliged source, no rejected source, no disagreement, and enough independence groups |
| Envelope.ValidateWorkspace | src/proofops_casework/core.py:49-78 | The loading checks, made by their loops in their order, pass if and only if the seal matches and audit chain, revision, histories, decisions and reports are intact |
| EnvelopeLaws.LoadsIff | src/proofops_casework/core.py:49-78 | A sealed workspace loads if and only if its seal, the numbering and hashes of its audit, the length of the audit, the versions of every history up to the present record, and the names and roots of decisions and reports are right, field by field |
| EnvelopeLaws.ReplaySays | src/proofops_casework/service.py:83-96 | A used key changes nothing: its stored response is repeated, marked as replayed, for the same command and session, a prepared review only while it still stands, and anything else is a conflict |
| CommandLaws.AcceptedIff | src/proofops_casework/service.py:58-130 | A command takes effect exactly when its actor has the role and sees the task, case or scope it names, its key is new, the revision or investigation basis it expects is the present one, there is room, and its own conditions hold |
| EnvelopeLaws.RefusedInOrder | src/proofops_casework/service.py:97-108 | An authorized command under a new key is refused for its expected revision before a second start, and for a second start before the revision limit |
| CommandLaws.RecordSays | src/proofops_casework/service.py:112-130 | An accepted command appends exactly one event, with the actor, request, instant, outcome and previous hash, and keeps the response under its key |
| Integrity.ChainCommits | src/proofops_casework/core.py:51-59 | Two audit chains of equal length with the same last hash record the same events |
| Integrity.IntactAuditsAgree | src/proofops_casework/core.py:49-61 | Two valid workspaces at one revision with the same last event hash have the same audit |
| Integrity.ChangeKeepsRecords | src/proofops_casework/service.py:157-543 | Every command keeps case and baseline histories, decisions and reports intact and only adds to them |
| Integrity.NextKeepsIntact | src/proofops_casework/service.py:112-130 | Every call leaves a workspace that passes the loading checks and extends the one it found |
| Safety.ChangeKeepsSafe | src/proofops_casework/service.py:149-520 | Every command keeps tasks safe: READY is untainted, and every open case a task reaches is among its taints under the case's present version |
| CommandLaws.SetBaselineSays | src/proofops_casework/service.py:157-175 | An accepted baseline puts exactly the commanded limit and expiry in force at the next version, for that scope alone, and taints and suspends exactly the tasks that depend on work in it |
| CommandLaws.BaselineAnswers | src/proofops_casework/service.py:171-175 | The owner is told the version that was set and exactly the tasks that depend on work in the scope |
| CommandLaws.DecisionIs | src/proofops_casework/service.py:177-210 | A decision records the policy's verdict, reasons, causes and blockers on the present basis for at most ten minutes, becomes current, is escalated exactly if it is not READY, and changes no other task |
| CommandLaws.DecisionTaints | src/proofops_casework/service.py:198-206 | A READY review clears every taint; any other decision keeps them all and adds exactly the open cases in the closure under their present versions |
| CommandLaws.RegisteredIff | src/proofops_casework/service.py:212-229 | A registration takes effect exactly if fewer than 250 tasks are stored, no parent is named twice, and every parent is visible and of the same subject |
| CommandLaws.RegisterSays | src/proofops_casework/service.py:216-229 | The new task has the asked intent and the asked parents, sorted, and a current decision of its own; every other task is as it was |
| CommandLaws.EvaluateSays | src/proofops_casework/service.py:232-242 | Every visible task is decided anew, explicitly exactly when it is reconsidered; the answer names the decision it supersedes and the taints that remain |
| CommandLaws.PrepareSays | src/proofops_casework/service.py:522-543 | A review is prepared exactly for the current decision of a visible task, both READY, unexpired, on the present basis, while the policy without review is still READY |
| CommandLaws.OpenSays | src/proofops_casework/service.py:244-260 | A case is opened exactly if fewer than 500 are stored and its policy can be noted, at version 1, as reported, by its opener, tainting and suspending exactly the tasks that depend on its scope |
| CommandLaws.IngestIs | src/proofops_casework/incident_ingress.py:63-78 | A signed incident opens its case exactly as an operator would, with its own taint, and keeps its receipt beside it |
| CommandLaws.CaseAnswers | src/proofops_casework/service.py:255-260 | Whoever opens a case is told which one and exactly the tasks that depend on work in its scope |
| CommandLaws.ReopenSays | src/proofops_casework/service.py:263-282 | A case is reopened exactly if it is visible and resolved and its policy can be noted, at its next version, by its reopener, with resolution cleared and history kept |
| CommandLaws.ReopenAnswers | src/proofops_casework/service.py:277-281 | Whoever reopens a case is told which one and exactly the tasks that depend on work in its scope |
| Lifecycle.ResolutionRestsOn | src/proofops_casework/service.py:475-486 | An accepted resolution closes an open case by an accepted handoff for its present version, by a reviewer who did not open it, on a report by another author whose basis is the present one |
| ReviewLaws.DraftIff | src/proofops_casework/service.py:294-325 | An investigation drafts exactly of an open case whose basis can be taken and whose evidence is complete if sources are asked for |
| ReviewLaws.DraftSays | src/proofops_casework/service.py:294-402 | A draft names the case as it is, exactly the open cases and tasks its scope reaches, the precedents if they were looked up, and in its trace exactly what was read |
| ReviewLaws.InvestigateSays | src/proofops_casework/service.py:404-420 | A draft is stored exactly if it is about its case and quotes nothing or the evidence that is still present, with its bundle if it quotes any |
| ReviewLaws.ValidIffUsable | src/proofops_casework/service.py:424-434 | A report is valid exactly if it is about the open case at its present version, on the present investigation basis, and quotes exactly the present evidence if sources are asked for |
| ReviewLaws.HandoffSays | src/proofops_casework/service.py:436-455 | A handoff is made exactly by the author of a usable report, to another reviewer of the tenant who sees the case and did not open it |
| ReviewLaws.AcceptSays | src/proofops_casework/service.py:457-470 | A handoff is accepted exactly by the reviewer it names, while its report is usable and its version present |
| ReviewLaws.ResolveIff | src/proofops_casework/service.py:472-496 | A case is resolved exactly after an accepted review by an actor who neither opened nor investigated it, of a report that is still usable, naming the present bundle if sources are asked for, while its policy can be noted |
| ReviewLaws.ResolveSays | src/proofops_casework/service.py:487-520 | A resolution stores the next version of the case, its lesson and, for a sourced report, the link; it taints exactly the tasks that depend on the scope, denied exactly while another open case reaches them, and leaves the rest alone |
| ReviewLaws.MarkSays | src/proofops_casework/service.py:504-510 | A resolution marks exactly the tasks that depend on the scope for reconsideration, denied exactly while another open case is about a scope they depend on |
| ReviewLaws.ResolveAnswers | src/proofops_casework/service.py:511-520 | The resolver is told the case as stored, exactly the tasks that were marked, and the lesson that was kept |
| RefusalLaws.ResolveRefusal | src/proofops_casework/service.py:472-490 | A resolution is refused only with a code whose condition holds: out of sight, not an accepted independent review, stale, not usable, or not the present bundle |
| RefusalLaws.HandoffRefusal | src/proofops_casework/service.py:436-448 | A handoff is refused only with a code whose condition holds |
| RefusalLaws.RegisterRefusal | src/proofops_casework/service.py:213-224 | A registration is refused only with a code whose condition holds |
| RefusalLaws.PrepareRefusal | src/proofops_casework/service.py:522-536 | Preparing a review is refused only with a code whose condition holds |
| RefusalLaws.ReopenRefusal | src/proofops_casework/service.py:266-272 | Reopening is refused only with a code whose condition holds |
| RefusalLaws.DraftRefusal | src/proofops_casework/service.py:316-325 | A draft is refused only with a code whose condition holds |
| RefusalLaws.InvestigateRefusal | src/proofops_casework/service.py:404-410 | Committing an investigation is refused only with a code whose condition holds |
| RefusalLaws.AcceptRefusal | src/proofops_casework/service.py:457-465 | Accepting a handoff is refused only with a code whose condition holds |
| Lifecycle.ChangeKeepsLawful | src/proofops_casework/service.py:244-520 | Every command keeps every handoff made by the author of a stored report on its case and version, and every case history alternating between open and resolved, with every resolved entry explained by an accepted handoff of a report on the version before, by a reviewer who is neither its author nor the opener |
| ArtifactGrowth.ChangeGrows | src/proofops_casework/source_guard.py:9-74 | No command removes an artifact, stores one under another's key, or lowers what any case owes its sources |
| Runs.NextKeepsInv | src/proofops_casework/service.py:58-130 | Every call keeps the invariant of reachable workspaces |
| Runs.RunNeverFailsIntegrity | src/proofops_casework/core.py:49-175 | On every run the loading checks pass and no closure, basis of a task or basis of an investigation raises |
| Runs.RunIsSafe | src/proofops_casework/service.py:149-282 | On every run a READY task has no taint and no open case in its closure, and an open case a task reaches is among its taints |
| BaselineRuns.BaselineInForce | src/proofops_casework/service.py:157-175 | On every run what the owner sets for a scope is in force, with exactly that limit, expiry, actor and event, until the owner next sets that very scope |
| BaselineRuns.EveryBaselineWasSet | src/proofops_casework/service.py:157-175 | Every baseline in force at any point of a run was set by the last accepted call to set its scope |
| BaselineRuns.RunReadyWithinLimits | src/proofops_casework/core.py:192-200 | At every point of every run, whatever a stored READY task depends on is within the limit now stored for its scope |
| BaselineRuns.AboveTheLimitIsNeverReady | src/proofops_casework/core.py:192-200 | From the moment a limit is set until its scope is set again, a task that depends on work of the scope above it is stored READY at no point, and the policy says READY of it at no instant, reviewed or not |
| Runs.RunExtends | src/proofops_casework/service.py:112-130 | Between any two points of a run, audit and histories grow only at the end and stored decisions and reports never change |
| Runs.RunObligationsGrow | src/proofops_casework/source_guard.py:1-80 | Between any two points of a run, whatever configurations the calls saw, no case's obligations shrink |
| Runs.RecoveryOnlyByReview | src/proofops_casework/service.py:232-242 | A task once tainted by a case and READY later was in between reconsidered by a reviewer, successfully, while that case was resolved |
| Runs.CommitsIffAccepted | src/proofops_casework/service.py:92-130 | A call advances the revision if and only if it is accepted, and otherwise leaves the workspace exactly as it was |
| Runs.AcceptedOnce | src/proofops_casework/service.py:83-105 | Two calls that took effect on one run have different keys, and different expected revisions if both state one |
| Runs.RetryReplays | src/proofops_casework/service.py:83-96 | A retry under a used key never changes anything, and is answered with the stored response exactly when it is the same request, still visible, and for a prepared review still preparable |
| Runs.HandoffResolvesOnce | src/proofops_casework/service.py:472-484 | Two resolutions that took effect on one run never used the same handoff |
| ResolutionRuns.ReportWasCommitted | src/proofops_casework/service.py:380-422 | Every report stored at any point of a run was committed by an investigation of its case, on the investigation basis found at the commit |
| ResolutionRuns.ResolvedOnCommittedBasis | src/proofops_casework/service.py:404-486 | If one call committed a report and a later one resolves by a handoff of it, the investigation basis of the case is the same at both |
| ResolutionRuns.EveryResolutionIsTraced | src/proofops_casework/service.py:404-498 | Every resolved entry of every case history, at any point of any run, was made by a call that took effect, by a reviewer who accepted the handoff, did not open the case and is not the author of the report, on the very investigation basis on which an earlier call committed that report |
| Runs.RunCasesLawful | src/proofops_casework/service.py:263-282 | On every run a case version is odd exactly while the case is open, and every entry of its history is lawful: opened, or resolved through a report, by a reviewer who is neither its author nor the opener |
| Runs.ResolutionMeetsObligations | src/proofops_casework/source_service.py:107-114 | A resolution of a case with obligations named exactly the bundle of that instant, which covers every obliged source, agrees and has enough groups |
| EvidenceBinding.HeadsUnambiguous | src/proofops_casework/source_state.py:13-25 | With artifacts under their own keys the duplicate-head error cannot occur, and the current heads are those stored under the case's source keys |
| EvidenceBinding.JudgedPlainly | src/proofops_casework/source_state.py:91-130 | With sound evidence and a clock that has not gone back, a receipt is refused only as not observed, policy changed or expired, and exactly as head state, configuration and expiry say |
| Acquisition.StepSound | src/proofops_casework/source_service.py:161-264 | Every step of every collector, every other command and every crash keeps requests, heads, receipts, budgets and logs consistent and alters no stored receipt |
| AcquisitionLaws.ReserveIff | src/proofops_casework/source_service.py:174-196 | A reservation is granted exactly if the case is open as it was seen and either a usable receipt of the requested resource is at hand and no refresh was asked for, or fewer reads than allowed were spent; it is refused for budget exactly if neither |
| AcquisitionLaws.CommittedReservation | src/proofops_casework/source_service.py:180-196 | An accepted reservation is answered from the cache exactly if no refresh was asked for and the evidence of that instant holds an accepted receipt of that source for that very resource, and then with it; otherwise a pending request for that resource is stored and becomes the head |
| AcquisitionLaws.FinishIff | src/proofops_casework/source_service.py:222-230 | A read is completed exactly if its request is stored and pending and its case visible |
| AcquisitionLaws.FinishSays | src/proofops_casework/source_service.py:222-249 | A completed read records how it ended, keeps a receipt of the reserved case, source and resource exactly if something was observed, and moves the head exactly if its request still leads |
| RefusalLaws.ReserveRefusal | src/proofops_casework/source_service.py:174-188 | A reservation is refused only with a code whose condition holds |
| RefusalLaws.FinishRefusal | src/proofops_casework/source_service.py:222-230 | Completing a read is refused only because its request is not pending or its case is out of sight |
| AcquisitionRuns.LatestReservationWins | src/proofops_casework/source_service.py:190-196 | At every point of every run the head of a case and source names the most recently committed reservation |
| AcquisitionRuns.OvertakenReadKeepsHead | src/proofops_casework/source_service.py:226-246 | Completing a read that is not the latest leaves the head exactly as it was |
| AcquisitionRuns.FetchFollowsReservation | src/proofops_casework/source_service.py:198-216 | Every fetch is made for a committed, pending reservation that was not fetched before |
| AcquisitionRuns.FetchedOnce | src/proofops_casework/source_service.py:198-216 | No idempotency key of an actor fetches twice on a run |
| AcquisitionRuns.ReadsWithinBudget | src/proofops_casework/source_service.py:184-187 | On every run the reads spent by a case on a source stay within the largest budget that any configuration in use allowed |
| AcquisitionRuns.OnlyThreeRejections | src/proofops_casework/source_state.py:91-130 | On every run the evidence of a case is never ambiguous and the binding, freshness and corruption rejections do not occur |
| AcquisitionRuns.FreshReadIsAccepted | src/proofops_casework/source_service.py:222-249 | A completed read that leads an unchanged open case is accepted from its commit exactly until its time to live ends |
| AcquisitionRuns.AcceptedUntilExpiry | src/proofops_casework/source_state.py:91-130 | An accepted receipt is accepted at every later point with the same head and case version, exactly until it expires |
| ReportStability.FloorFixpoint | src/proofops_casework/source_guard.py:9-61 | The floor a context was computed under is unchanged by storing that context's own bundle |
| ReportStability.DraftIsDrafted | src/proofops_casework/service.py:380-402 | A drafted report is by its investigator and about its case, at the open version in its basis, and quotes exactly the evidence that was read, or none |
| ReportStability.StoringKeepsContextAndBasis | src/proofops_casework/service.py:404-420 | Storing a report with its evidence changes neither the evidence context at any instant nor the investigation basis |
| ReportStability.ContextLater | src/proofops_casework/source_service.py:45-86 | Complete evidence stays exactly as it is until its first receipt expires and differs from then on |
| ReportRuns.SparedReportsRead | src/proofops_casework/service.py:424-469 | While every call that takes effect only drafts about other cases, hands off, accepts or prepares, each stored report of a case stays valid, or refused with the same error, at every instant and under every configuration |
| ReportRuns.ReportStaysValid | src/proofops_casework/service.py:424-469 | On a run, a report committed with evidence is valid at every later point up to which its case is spared, its own handoff and acceptance included, exactly until its first quoted receipt expires, and refused as stale from then on |
| ReportRuns.PlainReportStaysValid | src/proofops_casework/service.py:424-469 | On a run, without policy or obligations a committed report is valid at every instant and every later point up to which its case is spared |
| Service.LiveWorkspace.InvalidateScope | src/proofops_casework/service.py:149-155 | Taints and suspends exactly the affected tasks and returns them |
| Service.LiveWorkspace.NotePolicy | src/proofops_casework/source_guard.py:64-74 | Stores the joined floor and the remembered configured sources, or refuses and changes nothing |
| Service.LiveWorkspace.MakeDecision | src/proofops_casework/service.py:177-210 | Makes the decision of the policy the task's current one, with its taints, escalation and status, or refuses and changes nothing |
| Service.LiveWorkspace.RegisterTask | src/proofops_casework/service.py:216-229 | Registers a task below visible parents of its subject and decides it, with every refusal in order |
| Service.LiveWorkspace.EvaluateTask | src/proofops_casework/service.py:235-241 | Decides a visible task anew, explicitly or not, and reports what it superseded and which taints remain |
| Service.LiveWorkspace.PrepareReviewOf | src/proofops_casework/service.py:525-542 | Stores the review of a current, live, READY decision, or refuses |
| Service.LiveWorkspace.SetBaselineIn | src/proofops_casework/service.py:162-174 | Stores the next version of a baseline, with the limit and expiry that `CommandLaws.SetBaselineSays` spells out, and its history, and suspends the affected tasks |
| Service.LiveWorkspace.OpenRiskCase | src/proofops_casework/service.py:248-260 | Opens a case at version 1, notes its policy and suspends the affected tasks |
| Service.LiveWorkspace.IngestSigned | src/proofops_casework/incident_ingress.py:63-78 | Opens a case as the other way in does and stores the incident's receipt |
| Service.LiveWorkspace.ReopenRiskCase | src/proofops_casework/service.py:266-280 | Reopens a resolved case at its next version, appends to its history and suspends the affected tasks |
| Service.LiveWorkspace.StoreReport | src/proofops_casework/service.py:404-420 | Stores a draft whose evidence is still current, with its bundle |
| Service.LiveWorkspace.CheckReport | src/proofops_casework/service.py:424-434 | Accepts a report only while its case version, basis, desk and evidence are current, with every refusal in order |
| Service.LiveWorkspace.HandOff | src/proofops_casework/service.py:438-453 | Hands a valid report of the actor's own to an independent reviewer |
| Service.LiveWorkspace.AcceptHandoffOf | src/proofops_casework/service.py:460-469 | Lets the named reviewer accept a handoff whose report is still valid |
| Service.LiveWorkspace.MarkForReview | src/proofops_casework/service.py:504-510 | Re-reading the policy from the half-edited workspace marks every affected task as if each were read before any was marked |
| Service.LiveWorkspace.ResolveRiskCase | src/proofops_casework/service.py:475-520 | Resolves a case through review, evidence gate, link, history, policy, marks and lesson, with every refusal in order |
| Service.LiveWorkspace.ReserveSourceRead | src/proofops_casework/source_service.py:174-196 | Answers from a usable receipt of the same resource or reserves a read within the budget and makes it the head, as `AcquisitionLaws.ReserveSays` spells out |
| Service.LiveWorkspace.FinishSourceRead | src/proofops_casework/source_service.py:222-249 | Completes a pending read against the present workspace, moving the head only if the request still leads |
| Service.LiveWorkspace.Apply | src/proofops_casework/service.py:112-114 | Dispatches a checked command to the method that edits the workspace, within a frame that leaves revision, audit and responses alone |
| Service.LiveWorkspace.Commit | src/proofops_casework/service.py:115-127 | Advances the revision, extends the audit chain and keeps the response under the key |
| CaseworkStore.CaseworkService.Mutate | src/proofops_casework/service.py:58-130 | One transaction on any store answers and saves as specified: every refusal and every replay leaves the store as it was |
| CaseworkStore.HandleIsOneStep | src/proofops_casework/service.py:58-130 | On a sound store a transaction is one step of its tenant's run; no integrity check fails, other tenants are untouched, and the store stays sound |
| CaseworkStore.RefusedWritesNothing | src/proofops_casework/service.py:67-113 | A refused transaction, whatever the store holds, writes nothing |
| CaseworkStore.CaseworkService.InvestigateCase | src/proofops_casework/service.py:294-422 | An investigation is drafted on the checked store as seen and committed on the store as other clients left it; a stored response is returned without drafting |
| CaseworkStore.PlanSays | src/proofops_casework/service.py:294-322 | An investigation goes on to commit exactly if the case is visible, its key is new, the workspace is at the revision it states and a draft can be made; a used key is answered from its stored response |
| CaseworkStore.CaseworkService.RetryOnConflict | src/proofops_casework/incident_ingress.py:79-86 | Four tries, each stating the revision it read: the answer of the first that does not conflict, or contention |
| CaseworkStore.ContentionMeansBusy | src/proofops_casework/source_service.py:250-264 | Contention is reported only if another client committed in every one of the four windows |
| CaseworkStore.CollisionWritesNothing | src/proofops_casework/incident_ingress.py:79-86 | A try that conflicts writes nothing, so the command takes effect at most once |
| GuardMemory.RootCommits | src/proofops_memoryguard/proof.py:33-47 | Two valid subjects with equal version and root have equal observation sequences |
| GuardMemory.ValidateSubject | src/proofops_memoryguard/proof.py:33-47 | The loop over observations accepts exactly the subjects whose version, chain and root are intact |
| GuardMemory.ProofRootCommits | src/proofops_memoryguard/proof.py:50-97 | Two valid decisions with one proof root decide the same action with the same verdict on the same memory |
| GuardMemory.InMemoryAdapter.CommitObservation | src/proofops_memoryguard/adapters/memory_fake.py:33-46 | Replaces a subject only if its stored version is the one the caller read |
| GuardPolicy.ClassificationPartitions | src/proofops_memoryguard/policy.py:116-164 | Every supplied field is accepted with the value it reads as or quarantined, never both; nothing else is quarantined but free text; an untrusted source or a vendor's note contributes nothing; and a plain acceptance is reported exactly when nothing is quarantined |
| GuardPolicy.Classify | src/proofops_memoryguard/policy.py:116-164 | The loop and the branches after it return the specified classification |
| GuardLaws.AcceptedIs | src/proofops_memoryguard/policy.py:69-145 | A fact is accepted exactly if its field is one of those allowed for the kind, its value reads as the fact, within the stated bounds, and the source is not the caller |
| GuardLaws.NotesSay | src/proofops_memoryguard/policy.py:116-164 | Each reason code is given exactly when what it names is so: which field is malformed or unknown, which instruction the text matches, an unverified source, a vendor's note, or nothing quarantined |
| GuardPolicy.DecideMeaning | src/proofops_memoryguard/policy.py:179-239 | On the stored payloads: DENY exactly when an accepted revocation or dispute of a source that the mode admits names the target; READY exactly when none does and some accepted approval of such a source names target, chain and method, has not expired if it states an expiry, and states a maximum of at least the amount |
| GuardPolicy.DecideReasons | src/proofops_memoryguard/policy.py:183-239 | A denial names its ground, a revocation before a dispute; READY rests on the last remembered approval alone; anything else on nothing |
| GuardPolicy.DenialLists | src/proofops_memoryguard/policy.py:183-208 | A denial lists exactly the observations that name the target on its ground |
| GuardPolicy.DecidePolicy | src/proofops_memoryguard/policy.py:179-239 | The selections over the observations return the specified decision with its causes in order |
| GuardPolicy.DenialPersists | src/proofops_memoryguard/policy.py:182-208 | A denial for a target and mode stands after any further observations, at any later time |
| GuardPolicy.UntrustedIsInert | src/proofops_memoryguard/policy.py:144-176 | An observation from a caller-supplied source, or a vendor's note, changes no decision |
| Guard.MemoryGuard.ObserveOne | src/proofops_memoryguard/module.py:86-158 | Refuses, recognises a repetition, or appends one observation to its subject's chain, as specified |
| GuardLaws.RepetitionSays | src/proofops_memoryguard/module.py:100-123 | A used key is answered from what it stored first if kind, source, mode, facts, quarantine, notes and text are the same, and is a conflict otherwise; nothing is remembered |
| GuardLaws.NewObservationSays | src/proofops_memoryguard/module.py:124-158 | A new key appends exactly one observation to its own subject, linked to the one before it, with its classification, and advances version and root |
| Guard.MemoryGuard.DecideOne | src/proofops_memoryguard/module.py:174-237 | Stores a decision bound to the memory version and root it was made on |
| GuardLaws.DraftSays | src/proofops_memoryguard/module.py:191-237 | A decision carries the policy's verdict, reasons and causes, whether a cause came from another session, the number and root of the observations, and the instant after which it expires, and is intact |
| GuardLaws.IntactDecisionSays | src/proofops_memoryguard/proof.py:50-97 | A decision is intact exactly if it is about its own subject and session and its intent hash and proof root are of its own fields |
| Guard.MemoryGuard.FinalizeOne | src/proofops_memoryguard/module.py:239-358 | Finalizes as specified, with every refusal in order, storing only what the branches store |
| GuardLaws.FinalizableIff | src/proofops_memoryguard/module.py:243-264 | A decision can be finalized exactly while it is stored and intact, before its expiry, under its policy, and, if READY, while its subject is intact at the very version and root it was made on |
| GuardLaws.ExistingSays | src/proofops_memoryguard/module.py:266-303 | An existing record refuses another transaction exactly if it is verified, or pending and verified against one, and is otherwise returned as it is unless it waits and a transaction is named |
| GuardLaws.OutcomeSays | src/proofops_memoryguard/module.py:305-358 | A named transaction is answered with the anchor's verification, kept exactly while pending or verified and never executable; without one there is a plan to confirm, or a failure of READY, or a local finalization of anything else |
| GuardLaws.FinalizationSays | src/proofops_memoryguard/module.py:239-358 | A finalization changes only the record of its own decision, to what the call saved, and nothing if it is refused |
| GuardLaws.InspectSays | src/proofops_memoryguard/module.py:360-377 | An inspection answers exactly for an intact decision with a record of its own verdict and proof root |
| GuardFinality.FinalizeProgresses | src/proofops_memoryguard/module.py:264-358 | One call only moves the record forward, keeps its bound transaction, and never answers with something executable |
| GuardFinality.FinalityIsMonotone | src/proofops_memoryguard/module.py:239-358 | Over any sequence of calls the record moves only from none through CONFIRMATION_REQUIRED and PENDING to VERIFIED or from none to a terminal local record, and its bound transaction never changes, if the anchor echoes the transaction |
| GuardRuns.ReadySawWhatIsCurrent | src/proofops_memoryguard/module.py:253-264 | A READY decision that is finalized at any later point of a run saw exactly the observations its subject then has |
| GuardRuns.DenialPersistsOnRun | src/proofops_memoryguard/policy.py:179-208 | Once a subject's target is denied in a mode, every later decision about it on the run is a denial |
| GuardRuns.RunKeeps | src/proofops_memoryguard/module.py:86-358 | Between any two points of a run observations are only appended, decisions kept and records only moved forward |
| GuardRuns.RecordsOnlyAdvance | src/proofops_memoryguard/module.py:239-358 | Over a run of all operations the stored record of a decision only moves forward and its bound transaction never changes |
| GuardRuns.ObservingTwiceIsOnce | src/proofops_memoryguard/module.py:99-123 | Repeating an observation appends nothing and is answered with the observation already stored |
| GuardRuns.InspectFindsTheRecord | src/proofops_memoryguard/module.py:360-377 | On a run an inspection is never refused for integrity: it returns the record of that very decision, which is not executable, and is refused only where there is no decision or no record |
| GuardRuns.InspectReturnsLastStored | src/proofops_memoryguard/module.py:253-377 | On a run an inspection returns exactly what the last storing finalization of the decision stored, whatever was done in between |
| GuardRuns.InspectionsAdvance | src/proofops_memoryguard/module.py:360-377 | Once an inspection has found a record every later one finds one, moved only forward, and the same one once it is terminal |
| RateLimit.WindowHoldsAtMostLimit | src/proofops_memoryguard/rate_limit.py:44-51 | Admissions kept a window apart at distance `limit` leave at most `limit` of them in any window, wherever it starts |
| RateLimit.AnyWindowHoldsAtMostLimit | src/proofops_memoryguard/rate_limit.py:29-51 | Of any calls in a row, by any keys, during which a key is not lost as the oldest, at most `limit` let it in within any one window |
| RateLimit.LostOnlyAsOldest | src/proofops_memoryguard/rate_limit.py:33-43 | A call costs a key its unexpired bucket only if the calling key is new, the limiter is full of unexpired buckets and that one is the oldest; it costs no other |
| RateLimit.OthersAfter | src/proofops_memoryguard/rate_limit.py:29-51 | A call leaves the buckets of other keys as they are, adds none, and drops none unless the calling key is new and the limiter full |
| RateLimit.RoomSays | src/proofops_memoryguard/rate_limit.py:33-43 | Making room keeps exactly the buckets with an admission still in the window, unchanged, but for the one whose last admission is oldest if they are still too many |
| RateLimit.RetrySuffices | src/proofops_memoryguard/rate_limit.py:47-49 | At any instant not before the announced seconds a full bucket has room again |
| RateLimit.AdmittedIffWaited | src/proofops_memoryguard/rate_limit.py:44-49 | A full bucket has room after a delay if and only if the delay reaches the instant its oldest admission leaves the window |
| RateLimit.NextCallAfterRefusal | src/proofops_memoryguard/rate_limit.py:29-51 | The next call of a refused key, whatever other keys did in between, is let in after the announced seconds, and while its bucket is kept exactly from the instant its oldest admission leaves the window |
| RateLimit.Limiter.Allow | src/proofops_memoryguard/rate_limit.py:29-51 | Makes room only for a new key and only when full, by dropping the expired buckets and, if that is not enough, the one oldest bucket; leaves every other bucket alone; admits exactly when fewer than `limit` admissions remain in the window; and announces the wait of a refusal |
| RateLimit.Limiter.MakeRoom | src/proofops_memoryguard/rate_limit.py:33-43 | Makes room for a new key by dropping expired buckets and, if that is not enough, exactly the one whose last admission is oldest |

## Left out

- Service.LiveWorkspace.RegisterTask: after a refusal it promises nothing about the loaded copy, which is thrown away; that the store is unchanged is stated by `CaseworkStore.RefusedWritesNothing`. The same holds for the other commands.
- CaseworkStore.CaseworkService.InvestigateCase: leaves out model planning with its attempt records, receipts and suppressed tools, because the planner only chooses whether precedents are looked up, which is an input.
- RateLimit.Limiter.MakeRoom: when several buckets are equally old it evicts any of them, where the code takes the first in dictionary order.
- SHA-256, Keccak, canonical JSON, Unicode normalisation and regular expressions: digests are injective, truncated ones included; how a supplied value reads under each format, and whether identifiers are well formed, are inputs.
- Client idempotency keys of the forms that the service derives for itself (`done_…`, `incident_…`): derived keys are a separate constructor; acquisition is modelled for keys of every form.
- Several clock readings inside one locked section: one reading stands for them. The instant a fetch finished is separate.
- The random identifiers of one command: one fresh identifier stands for them, used at most once for each kind of record.
- Anchoring, partner reviews, missions, dossiers, exports and catalogs: single-branch checks, or consequences of the envelope's idempotence.
- The result counts of a trace: they are computed from fields that are modelled.
- Legacy evidence bundles without recorded obligations and lessons without a case version: the service no longer writes them.
- Adapters that map a requested resource to a canonical one, and their network reads: a fetch is an arbitrary result, an observation or an error.
- HMAC checking, timestamps and body validation of an incoming incident: only its transaction and its retry loop are modelled.
- The store's files, locks, seals on disk and uncertain writes: the store is a map from tenants to sealed workspaces and a transaction is atomic.
- The 8 MB capacity limit of a stored workspace; the limits on tasks, cases and revisions are modelled.
- HTTP, tokens, settings, web pages, the agent workflow, the on-chain contract and deployment.
