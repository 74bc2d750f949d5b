/**
 The records of one tenant's workspace. A digest is modelled by the very content it
 is taken of, which makes it injective: two digests are equal iff their contents are.
 A sorted list of distinct keys is modelled by the set of those keys.
 */
module CaseworkModels {
  import opened Common

  // ----- Principals, scopes and intents -----

  datatype Role = Owner | Investigator | Reviewer | Viewer

  datatype Actor = Actor(actorId: Id, tenantId: Id, role: Role, subjects: set<Id>)

  datatype Scope = Scope(subject: Id, chain: Id, target: Id, entry: Id)

  datatype Intent = Intent(scope: Scope, amount: nat)

  // ----- Baselines, cases and tasks -----

  datatype Baseline = Baseline(scope: Scope, version: nat, limit: nat, expiresAt: Time, actorId: Id, eventSeq: nat)

  datatype RiskKind = Dispute | Revocation

  datatype CaseStatus = Open | Resolved

  datatype Resolution = PlainlyResolved | FalsePositiveVerified | RemediationVerified

  datatype RiskCase = RiskCase(
    caseId: Id, scope: Scope, kind: RiskKind, version: nat, status: CaseStatus,
    openedBy: Id, openedSeq: nat, evidence: Digest,
    resolution: Option<Resolution>, resolvedBy: Option<Id>, resolvedSeq: Option<nat>)

  // The keys of a task's taints, and the causal references of a decision.
  datatype Token =
    | CaseToken(caseId: Id, version: nat)
    | ResolutionToken(caseId: Id, version: nat)
    | BaselineToken(scope: Scope, version: nat)

  datatype TaintReason = BaselineChanged | NewRisk | RiskReopened | SignedIncident | OpenRisk | ReconsiderRequired

  datatype Verdict = Ready | Deny | NeedsHuman

  datatype Status = Of(verdict: Verdict) | Suspended

  datatype Task = Task(
    taskId: Id, intent: Intent, dependsOn: seq<Id>,
    taints: map<Token, TaintReason>, status: Status, current: Option<Id>)

  // ----- Decisions -----

  datatype Reason =
    | OpenRiskRecalled
    | BaselineMissing
    | BaselineExpired
    | LimitExceeded
    | DependencyReviewRequired
    | ExplicitReconsiderationRequired
    | CurrentPolicyPassed
    | HumanConfirmationStillRequired

  datatype TaskEntry = TaskEntry(intent: Intent, dependsOn: seq<Id>, parentDecision: Option<Id>, parentStatus: Option<Status>)

  // What a decision about a task depends on.
  datatype TaskBasis = TaskBasis(
    tasks: map<Id, TaskEntry>, baselines: map<Scope, Baseline>,
    cases: map<Id, RiskCase>, links: map<Key, ResolutionProof>)

  datatype Tool = HumanReviewPrepare | OperatorEscalationCreate

  datatype DecisionBody = DecisionBody(
    decisionId: Id, taskId: Id, verdict: Verdict, reasons: seq<Reason>,
    causal: set<Token>, blockers: set<Id>, action: (Id, Intent), basis: TaskBasis,
    revision: nat, session: Id, createdAt: Time, expiresAt: Time, tool: Tool)

  datatype Decision = Decision(body: DecisionBody, proofRoot: DecisionBody)

  // ----- Sources, receipts and evidence -----

  datatype SourceSpec = SourceSpec(
    sourceId: Id, tenantId: Id, subjects: set<Id>, group: Id,
    ttl: nat, maxAttempts: nat, settings: Id)

  datatype SourcePolicy = SourcePolicy(tenantId: Id, scope: Scope, required: set<Id>, minGroups: nat)

  datatype Config = Config(specs: map<Id, SourceSpec>, policies: seq<SourcePolicy>)

  // A resource name: what remains after case folding, and its spelling.
  datatype Resource = Resource(folded: Id, spelling: Id)

  datatype FieldName = State | TransactionSucceeded | Named(name: Id)

  datatype Field = UpdatedAt | Confirmations | Stable(name: FieldName)

  // The two values that call for review, and every other.
  datatype FactValue = IsOpen | IsFalse | Plain(value: Id)

  datatype Observation = Observation(facts: map<Field, FactValue>, payload: Id, provenance: Id)

  datatype FetchResult = Fetched(observation: Observation) | Failed(code: Id)

  datatype FetchState = Pending | Observed | FetchFailed | Stale

  // The idempotency keys a command can carry: a client's own, or one derived by the service.
  datatype IdemKey = Client(key: Id) | Done(request: RequestId) | Delivery(sourceId: Id, delivery: Id)

  datatype RequestId = RequestId(actorId: Id, key: IdemKey)

  datatype SourceHead = SourceHead(
    caseId: Id, caseVersion: nat, sourceId: Id, requestId: RequestId,
    state: FetchState, receiptId: Option<Id>)

  datatype SourceRequest = SourceRequest(
    requestId: RequestId, caseId: Id, caseVersion: nat, sourceId: Id, spec: SourceSpec,
    resource: Resource, state: FetchState, reservedAt: Time, actorId: Id,
    finishedAt: Option<Time>, error: Option<Id>, receiptId: Option<Id>)

  datatype Receipt = Receipt(
    receiptId: Id, caseId: Id, caseVersion: nat, sourceId: Id, spec: SourceSpec, group: Id,
    resource: Resource, fetchedAt: Time, expiresAt: Time, observation: Observation)

  // What a case requires of its sources.
  datatype Floor = Floor(required: set<Id>, minGroups: nat, configured: bool)

  datatype Conflict = Conflict(resource: Id, field: Field, sources: set<Id>, values: set<FactValue>)

  datatype RejectReason =
    | NotObserved
    | ReceiptBindingInvalid
    | PolicyChanged
    | RequestBindingInvalid
    | FreshnessInvalid
    | Expired
    | ReceiptCorrupt

  // What a reviewer is pointed to in the evidence of a case.
  datatype ReviewSignal =
    | IssueRemainsOpen(sourceId: Id)
    | TransactionReverted(sourceId: Id)
    | MissingRequiredSource(sourceId: Id)
    | SourceRejected(sourceId: Id, reason: RejectReason)
    | SourcesConflict(sourceId: Id, conflict: Conflict)

  // The evidence of one case at one instant.
  datatype Context = Context(
    caseId: Id, caseVersion: nat, required: set<Id>, missing: set<Id>, groups: nat, complete: bool,
    conflicts: set<Conflict>, resolutionRequiresSources: bool, floor: Floor,
    policy: Option<SourcePolicy>, receipts: map<Id, Receipt>, rejected: map<Id, RejectReason>,
    signals: set<ReviewSignal>)

  datatype Digest = Opaque(value: Id) | BundleRoot(context: Context)

  // ----- Investigations, handoffs and lessons -----

  datatype Lesson = Lesson(
    scope: Scope, kind: RiskKind, caseId: Id, caseVersion: nat, resolvedSeq: nat,
    reportId: Id, resolution: Resolution, reviewerId: Id, evidence: Digest)

  // What a report about a case depends on.
  datatype InvestigationBasis = InvestigationBasis(
    riskCase: RiskCase, affected: map<Id, TaskBasis>,
    precedents: map<Id, Lesson>, external: map<Id, SourceHead>)

  datatype TraceEvent =
    | CaseInspect(cases: set<Id>)
    | DependenciesTrace(tasks: set<Id>)
    | EvidenceInspect(output: Context)
    | PrecedentLookup(lessons: set<Id>)

  datatype ReportBody = ReportBody(
    reportId: Id, caseId: Id, caseVersion: nat, investigatorId: Id, basis: InvestigationBasis,
    caseRefs: set<Id>, affected: set<Id>, precedents: set<Id>, trace: seq<TraceEvent>)

  datatype Report = Report(body: ReportBody, root: ReportBody)

  datatype Handoff = Handoff(
    handoffId: Id, reportId: Id, caseId: Id, caseVersion: nat,
    reviewerId: Id, investigatorId: Id, accepted: bool)

  datatype ResolutionProof = ResolutionProof(
    caseId: Id, caseVersion: nat, reportId: Id, reportRoot: ReportBody,
    handoffId: Id, evidence: Digest, reviewerId: Id, eventSeq: nat)

  // ----- Artifacts -----

  datatype Key =
    | HeadKey(caseId: Id, sourceId: Id)
    | RequestKey(requestId: RequestId)
    | ReceiptKey(receiptId: Id)
    | GuardKey(caseId: Id)
    | BundleKey(reportId: Id)
    | LinkKey(caseId: Id, version: nat)
    | EscalationKey(taskId: Id, decisionId: Id)
    | ReviewKey(taskId: Id, decisionId: Id)
    | IncidentKey(incidentId: Id)

  datatype Artifact =
    | HeadArtifact(head: SourceHead)
    | RequestArtifact(request: SourceRequest)
    | ReceiptArtifact(receipt: Receipt, root: Receipt)
    | GuardArtifact(caseId: Id, floor: Floor, configuredSources: set<Id>)
    | BundleArtifact(reportId: Id, caseId: Id, reportRoot: ReportBody, bundle: Context)
    | LinkArtifact(proof: ResolutionProof)
    | EscalationArtifact(decision: DecisionBody)
    | ReviewArtifact(taskId: Id, decisionId: Id, proofRoot: DecisionBody)
    | IncidentArtifact(caseId: Id, sourceId: Id, actorId: Id, receivedAt: Time, payload: Id)

  // ----- Commands, responses and the audit chain -----

  // A command's name together with the payload that identifies it.
  datatype Command =
    | Bootstrap
    | SetBaseline(scope: Scope, limit: nat, expiresAt: Time)
    | RegisterTask(intent: Intent, dependsOn: seq<Id>)
    | Evaluate(taskId: Id)
    | Reconsider(taskId: Id)
    | OpenCase(scope: Scope, kind: RiskKind, evidence: Digest)
    | IngestIncident(sourceId: Id, delivery: Id, scope: Scope, kind: RiskKind, evidence: Digest, payload: Id)
    | ReopenCase(caseId: Id, evidence: Digest)
    | QuarantineNote(scope: Scope, textHash: Id)
    | Investigate(caseId: Id)
    | HandoffReport(caseId: Id, reportId: Id, reviewerId: Id)
    | AcceptHandoff(handoffId: Id)
    | Resolve(caseId: Id, handoffId: Id, resolution: Resolution, evidence: Digest)
    | PrepareReview(taskId: Id, decisionId: Id)
    | ReserveSource(caseId: Id, sourceId: Id, resource: Resource, forceRefresh: bool)
    | FinishSource(caseId: Id, requestId: RequestId, fetched: FetchResult)

  datatype Outcome =
    | Initialized
    | BaselineSet(scope: Scope, version: nat, affected: set<Id>)
    | Registered(task: Task, decision: Decision)
    | Decided(decision: Decision, supersedes: Option<Id>, taintsRemaining: set<Token>)
    | CaseOpened(riskCase: RiskCase, affected: set<Id>)
    | Quarantined(textHash: Id)
    | Reported(report: Report)
    | HandedOff(handoff: Handoff)
    | CaseResolved(riskCase: RiskCase, affected: set<Id>, lessonId: Id)
    | ReviewPrepared(taskId: Id, decisionId: Id, proofRoot: DecisionBody)
    | Reserved(requestId: RequestId)
    | CacheHit(requestId: RequestId, receipt: Receipt)
    | Finished(requestId: RequestId, state: FetchState, stored: Option<Receipt>)

  datatype Fingerprint = Fingerprint(command: Command, actorId: Id, session: Id)

  // The hash of an event is the event itself, so the chain is a nested value.
  datatype EventHash = Genesis | EventHash(event: Event)

  datatype Event = Event(
    sequence: nat, at: Time, actorId: Id, role: Role,
    request: Fingerprint, outcome: Outcome, previous: EventHash)

  datatype AuditEntry = AuditEntry(event: Event, hash: EventHash)

  datatype Response = Response(outcome: Outcome, revision: nat, eventHash: EventHash, replayed: bool)

  datatype Completed = Completed(request: Fingerprint, response: Response)

  // ----- The aggregate -----

  datatype Workspace = Workspace(
    tenantId: Id,
    revision: nat,
    baselines: map<Scope, Baseline>,
    baselineHistory: map<Scope, seq<Baseline>>,
    cases: map<Id, RiskCase>,
    caseHistory: map<Id, seq<RiskCase>>,
    tasks: map<Id, Task>,
    decisions: map<Id, Decision>,
    reports: map<Id, Report>,
    handoffs: map<Id, Handoff>,
    lessons: map<Id, Lesson>,
    artifacts: map<Key, Artifact>,
    audit: seq<AuditEntry>,
    completed: map<(Id, IdemKey), Completed>)

  function EmptyWorkspace(tenantId: Id): Workspace {
    Workspace(tenantId, 0, map[], map[], map[], map[], map[], map[], map[], map[], map[], map[], [], map[])
  }

  // A workspace as the store keeps it, with the root it was sealed with.
  datatype Sealed = Sealed(body: Workspace, root: Workspace)
}
