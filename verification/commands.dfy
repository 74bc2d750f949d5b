/** What each command does to the workspace it is given, and the envelope every command shares. */
module Commands {
  import opened Common
  import opened CaseworkModels
  import opened DependencyGraph
  import opened SourceState
  import opened SourceGuard
  import opened EvidenceDesk
  import opened CasePolicy

  const MAX_TASKS := 250
  const MAX_CASES := 500
  const MAX_REVISION := 5000

  // What a command reads outside the workspace: the clock, one fresh identifier,
  // the registry of principals and the present connector configuration.
  datatype Env = Env(at: Time, newId: Id, actors: map<Id, Actor>, desk: Option<Config>)

  // What a command brings along from work done outside the lock.
  datatype Carried =
    | Nothing
    | Draft(report: ReportBody, external: Option<Context>)
    | Reservation(caseVersion: nat, spec: SourceSpec)
    | Fetch(caseVersion: nat, spec: SourceSpec, resource: Resource, finished: Time)

  datatype Call = Call(
    actor: Actor, key: IdemKey, session: Id, expected: nat,
    command: Command, carried: Carried, env: Env)

  datatype Changed = Changed(state: Workspace, outcome: Outcome)

  // ----- Permissions -----

  predicate Operator(actor: Actor) {
    actor.role == Owner || actor.role == Investigator
  }

  predicate Permitted(actor: Actor, command: Command) {
    match command
    case Bootstrap => actor.role == Owner
    case SetBaseline(scope, _, _) => actor.role == Owner && scope.subject in actor.subjects
    case RegisterTask(intent, _) => Operator(actor) && intent.scope.subject in actor.subjects
    case Evaluate(_) => Operator(actor) || actor.role == Reviewer
    case Reconsider(_) => actor.role == Reviewer
    case OpenCase(scope, _, _) => Operator(actor) && scope.subject in actor.subjects
    case IngestIncident(_, _, scope, _, _, _) => Operator(actor) && scope.subject in actor.subjects
    case ReopenCase(_, _) => Operator(actor)
    case QuarantineNote(scope, _) => Operator(actor) && scope.subject in actor.subjects
    case Investigate(_) => actor.role == Investigator
    case HandoffReport(_, _, _) => actor.role == Investigator
    case AcceptHandoff(_) => actor.role == Reviewer
    case Resolve(_, _, _, _) => actor.role == Reviewer
    case PrepareReview(_, _) => Operator(actor) || actor.role == Reviewer
    case ReserveSource(_, _, _, _) => Operator(actor)
    case FinishSource(_, _, _) => Operator(actor)
  }

  predicate SeesTask(w: Workspace, actor: Actor, t: Id) {
    t in w.tasks && w.tasks[t].intent.scope.subject in actor.subjects
  }

  predicate SeesCase(w: Workspace, actor: Actor, c: Id) {
    c in w.cases && w.cases[c].scope.subject in actor.subjects
  }

  // The subject checks made before a stored response is returned.
  function Precheck(w: Workspace, actor: Actor, command: Command): Result<()> {
    match command
    case Evaluate(t) => if SeesTask(w, actor, t) then Ok(()) else Err(TaskNotFound)
    case Reconsider(t) => if SeesTask(w, actor, t) then Ok(()) else Err(TaskNotFound)
    case PrepareReview(t, _) => if SeesTask(w, actor, t) then Ok(()) else Err(TaskNotFound)
    case ReopenCase(c, _) => if SeesCase(w, actor, c) then Ok(()) else Err(CaseNotFound)
    case Investigate(c) => if SeesCase(w, actor, c) then Ok(()) else Err(CaseNotFound)
    case HandoffReport(c, _, _) => if SeesCase(w, actor, c) then Ok(()) else Err(CaseNotFound)
    case Resolve(c, _, _, _) => if SeesCase(w, actor, c) then Ok(()) else Err(CaseNotFound)
    case ReserveSource(c, _, _, _) => if SeesCase(w, actor, c) then Ok(()) else Err(CaseNotFound)
    case FinishSource(c, _, _) => if SeesCase(w, actor, c) then Ok(()) else Err(CaseNotFound)
    case AcceptHandoff(h) =>
      if h !in w.handoffs || w.handoffs[h].reviewerId != actor.actorId then Err(HandoffNotFound)
      else if SeesCase(w, actor, w.handoffs[h].caseId) then Ok(()) else Err(CaseNotFound)
    case _ => Ok(())
  }

  // ----- Tasks and decisions -----

  function Invalidate(tasks: map<Id, Task>, impacted: set<Id>, token: Token, reason: TaintReason): map<Id, Task> {
    map k | k in tasks ::
      if k in impacted then tasks[k].(taints := tasks[k].taints[token := reason], status := Suspended) else tasks[k]
  }

  function BlockerTokens(cases: map<Id, RiskCase>, blockers: set<Id>): set<Token>
    requires blockers <= cases.Keys
  {
    set b | b in blockers :: CaseToken(b, cases[b].version)
  }

  function BlockerTaints(cases: map<Id, RiskCase>, blockers: set<Id>): map<Token, TaintReason>
    requires blockers <= cases.Keys
  {
    map token | token in BlockerTokens(cases, blockers) :: OpenRisk
  }

  function ExpiryFor(w: Workspace, t: Id, at: Time, verdict: Verdict): Result<Time> {
    if verdict == Ready then ReadyExpiry(w, t, at, at + TEN_MINUTES) else Ok(at + TEN_MINUTES)
  }

  function DecisionFor(w: Workspace, t: Id, call: Call, v: Verdicts, basis: TaskBasis, expiry: Time): Decision
    requires t in w.tasks
  {
    var body := DecisionBody(
      call.env.newId, t, v.verdict, v.reasons, v.causal, v.blockers,
      (call.actor.tenantId, w.tasks[t].intent), basis, w.revision + 1, call.session,
      call.env.at, expiry, if v.verdict == Ready then HumanReviewPrepare else OperatorEscalationCreate);
    Decision(body, body)
  }

  function DecidedTask(w: Workspace, t: Id, decision: Decision, explicit: bool): Task
    requires t in w.tasks && decision.body.blockers <= w.cases.Keys
  {
    var task := w.tasks[t];
    task.(
      taints := if explicit && decision.body.verdict == Ready then map[]
                else task.taints + BlockerTaints(w.cases, decision.body.blockers),
      status := Of(decision.body.verdict),
      current := Some(decision.body.decisionId))
  }

  function RecordDecision(w: Workspace, t: Id, decision: Decision, explicit: bool): Workspace
    requires t in w.tasks && decision.body.blockers <= w.cases.Keys
  {
    var id := decision.body.decisionId;
    w.(decisions := w.decisions[id := decision],
       artifacts := if decision.body.verdict == Ready then w.artifacts
                    else w.artifacts[EscalationKey(t, id) := EscalationArtifact(decision.body)],
       tasks := w.tasks[t := DecidedTask(w, t, decision, explicit)])
  }

  // The decision the policy makes about a task now.
  function DecisionOf(w: Workspace, t: Id, call: Call, explicit: bool): (r: Result<Decision>)
    requires t in w.tasks
    ensures r.Ok? ==> r.value.body.blockers <= w.cases.Keys
  {
    var v :- PolicyOf(w, t, call.env.at, explicit);
    var basis :- BasisOf(w, t);
    var expiry :- ExpiryFor(w, t, call.env.at, v.verdict);
    Ok(DecisionFor(w, t, call, v, basis, expiry))
  }

  datatype DecisionMade = DecisionMade(state: Workspace, decision: Decision)

  /** Evaluates the policy now and makes the outcome the task's current decision. */
  function Decide(w: Workspace, t: Id, call: Call, explicit: bool): Result<DecisionMade>
    requires t in w.tasks
  {
    var decision :- DecisionOf(w, t, call, explicit);
    Ok(DecisionMade(RecordDecision(w, t, decision, explicit), decision))
  }

  function CheckParents(w: Workspace, actor: Actor, subject: Id, parents: seq<Id>): Result<()> {
    if parents == [] then Ok(())
    else if !SeesTask(w, actor, parents[0]) then Err(TaskNotFound)
    else if w.tasks[parents[0]].intent.scope.subject != subject then Err(CrossSubjectDependency)
    else CheckParents(w, actor, subject, parents[1..])
  }

  function WithTask(w: Workspace, call: Call, intent: Intent, dependsOn: seq<Id>): Workspace {
    w.(tasks := w.tasks[call.env.newId := Task(call.env.newId, intent, Sort(dependsOn), map[], Of(NeedsHuman), None)])
  }

  function RegisterChange(w: Workspace, call: Call, intent: Intent, dependsOn: seq<Id>): Result<Changed> {
    if |w.tasks| >= MAX_TASKS then Err(TaskCapacityReached)
    else if !NoDuplicates(dependsOn) then Err(DuplicateDependency)
    else
      var _ :- CheckParents(w, call.actor, intent.scope.subject, dependsOn);
      var made :- Decide(WithTask(w, call, intent, dependsOn), call.env.newId, call, false);
      Ok(Changed(made.state, Registered(made.state.tasks[call.env.newId], made.decision)))
  }

  function EvaluateChange(w: Workspace, call: Call, t: Id, explicit: bool): Result<Changed> {
    if !SeesTask(w, call.actor, t) then Err(TaskNotFound)
    else
      var made :- Decide(w, t, call, explicit);
      Ok(Changed(made.state, Decided(made.decision, w.tasks[t].current, made.state.tasks[t].taints.Keys)))
  }

  function PrepareChange(w: Workspace, call: Call, t: Id, d: Id): Result<Changed> {
    if !SeesTask(w, call.actor, t) then Err(TaskNotFound)
    else if d !in w.decisions || w.decisions[d].body.taskId != t || w.tasks[t].current != Some(d) then
      Err(DecisionSuperseded)
    else
      var v :- PolicyOf(w, t, call.env.at, false);
      var body := w.decisions[d].body;
      if w.tasks[t].status != Of(Ready) || body.verdict != Ready || v.verdict != Ready
         || body.expiresAt <= call.env.at || BasisOf(w, t) != Ok(body.basis)
      then Err(StaleOrBlockedReview)
      else
        var root := w.decisions[d].proofRoot;
        Ok(Changed(w.(artifacts := w.artifacts[ReviewKey(t, d) := ReviewArtifact(t, d, root)]),
                   ReviewPrepared(t, d, root)))
  }

  // ----- Baselines and cases -----

  function NextBaseline(w: Workspace, call: Call, scope: Scope, limit: nat, expiresAt: Time): Baseline {
    var version := if scope in w.baselines then w.baselines[scope].version + 1 else 1;
    Baseline(scope, version, limit, expiresAt, call.actor.actorId, w.revision + 1)
  }

  function History<K(==), V>(m: map<K, seq<V>>, k: K): seq<V> {
    if k in m then m[k] else []
  }

  function WithBaseline(w: Workspace, baseline: Baseline): Workspace {
    w.(baselines := w.baselines[baseline.scope := baseline],
       baselineHistory := w.baselineHistory[baseline.scope := History(w.baselineHistory, baseline.scope) + [baseline]])
  }

  ghost function SetBaselineChange(w: Workspace, call: Call, scope: Scope, limit: nat, expiresAt: Time): Result<Changed>
  {
    var baseline := NextBaseline(w, call, scope, limit, expiresAt);
    var impacted := Affected(w.tasks, scope);
    var token := BaselineToken(scope, baseline.version);
    Ok(Changed(
      WithBaseline(w, baseline).(tasks := Invalidate(w.tasks, impacted, token, BaselineChanged)),
      BaselineSet(scope, baseline.version, impacted)))
  }

  function WithCase(w: Workspace, riskCase: RiskCase): Workspace {
    w.(cases := w.cases[riskCase.caseId := riskCase],
       caseHistory := w.caseHistory[riskCase.caseId := History(w.caseHistory, riskCase.caseId) + [riskCase]])
  }

  // Records the new version of a case, remembers its policy and suspends the work it reaches.
  ghost function RaiseCase(w: Workspace, call: Call, riskCase: RiskCase, reason: TaintReason): Result<Changed> {
    var noted :- Remember(WithCase(w, riskCase), call.env.desk, riskCase.caseId, {});
    var impacted := Affected(w.tasks, riskCase.scope);
    var token := CaseToken(riskCase.caseId, riskCase.version);
    Ok(Changed(noted.(tasks := Invalidate(w.tasks, impacted, token, reason)), CaseOpened(riskCase, impacted)))
  }

  function NewCase(w: Workspace, call: Call, scope: Scope, kind: RiskKind, evidence: Digest): RiskCase {
    RiskCase(call.env.newId, scope, kind, 1, Open, call.actor.actorId, w.revision + 1, evidence, None, None, None)
  }

  ghost function OpenChange(w: Workspace, call: Call, scope: Scope, kind: RiskKind, evidence: Digest,
                            reason: TaintReason)
    : Result<Changed>
  {
    if |w.cases| >= MAX_CASES then Err(CaseCapacityReached)
    else RaiseCase(w, call, NewCase(w, call, scope, kind, evidence), reason)
  }

  ghost function IngestChange(w: Workspace, call: Call, source: Id, scope: Scope, kind: RiskKind, evidence: Digest,
                              payload: Id)
    : Result<Changed>
  {
    var raised :- OpenChange(w, call, scope, kind, evidence, SignedIncident);
    var record := IncidentArtifact(call.env.newId, source, call.actor.actorId, call.env.at, payload);
    Ok(raised.(state := raised.state.(artifacts := raised.state.artifacts[IncidentKey(call.env.newId) := record])))
  }

  function ReopenedCase(w: Workspace, call: Call, c: Id, evidence: Digest): RiskCase
    requires c in w.cases
  {
    w.cases[c].(
      status := Open, version := w.cases[c].version + 1, openedBy := call.actor.actorId, openedSeq := w.revision + 1,
      evidence := evidence, resolution := None, resolvedBy := None, resolvedSeq := None)
  }

  ghost function ReopenChange(w: Workspace, call: Call, c: Id, evidence: Digest): Result<Changed> {
    if !SeesCase(w, call.actor, c) then Err(CaseNotFound)
    else if w.cases[c].status != Resolved then Err(CaseAlreadyOpen)
    else RaiseCase(w, call, ReopenedCase(w, call, c, evidence), RiskReopened)
  }

  // ----- Investigation, handoff and resolution -----

  ghost function AffectedScopes(w: Workspace, scope: Scope): set<Scope> {
    set k, a | k in Affected(w.tasks, scope) && ClosureOf(w.tasks, k).Ok? && a in ClosureOf(w.tasks, k).value ::
      w.tasks[a].intent.scope
  }

  ghost function CaseRefsOf(w: Workspace, c: Id): set<Id>
    requires c in w.cases
  {
    var related := Blockers(w.cases, AffectedScopes(w, w.cases[c].scope));
    if related == {} then {c} else related
  }

  // The evidence a draft quotes: none without sources, and only when it is complete and agrees.
  function ExternalFor(w: Workspace, c: Id, env: Env): Result<Option<Context>>
    requires c in w.cases
  {
    var external :- if env.desk.Some? then ReportContext(w, env.desk.value, c, env.at) else Ok(None);
    if external.Some? && external.value.conflicts != {} then Err(SourceConflict)
    else if external.Some? && !external.value.complete then Err(SourceCoverageRequired)
    else Ok(external)
  }

  function TraceFor(refs: set<Id>, impacted: set<Id>, external: Option<Context>, withPrecedents: bool,
                    precedents: set<Id>): seq<TraceEvent>
  {
    [CaseInspect(refs), DependenciesTrace(impacted)]
    + (if external.Some? then [EvidenceInspect(external.value)] else [])
    + (if withPrecedents then [PrecedentLookup(precedents)] else [])
  }

  ghost function BodyFor(w: Workspace, actor: Actor, c: Id, id: Id, basis: InvestigationBasis,
                         external: Option<Context>, withPrecedents: bool): ReportBody
    requires c in w.cases
  {
    var refs, impacted, precedents := CaseRefsOf(w, c), Affected(w.tasks, w.cases[c].scope), ActivePrecedents(w, c);
    ReportBody(id, c, w.cases[c].version, actor.actorId, basis, refs, impacted,
               if withPrecedents then precedents else {}, TraceFor(refs, impacted, external, withPrecedents, precedents))
  }

  /** The report an investigation drafts from the workspace it read, outside the lock. */
  ghost function DraftReport(w: Workspace, actor: Actor, c: Id, env: Env, withPrecedents: bool): Result<Carried>
    requires c in w.cases
  {
    if w.cases[c].status != Open then Err(CaseNotOpen)
    else
      var _ :- RequireDesk(w.artifacts, c, env.desk, false);
      var basis :- InvestigationBasisOf(w, c);
      var external :- ExternalFor(w, c, env);
      Ok(Draft(BodyFor(w, actor, c, env.newId, basis, external, withPrecedents), external))
  }

  function WithReport(w: Workspace, draft: Carried): Workspace
    requires draft.Draft?
  {
    var body := draft.report;
    w.(reports := w.reports[body.reportId := Report(body, body)],
       artifacts := if draft.external.None? then w.artifacts
                    else w.artifacts[BundleKey(body.reportId) :=
                      BundleArtifact(body.reportId, body.caseId, body, draft.external.value)])
  }

  function InvestigateChange(w: Workspace, call: Call, c: Id): Result<Changed> {
    var draft := call.carried;
    if !draft.Draft? || c !in w.cases || draft.report.caseId != c then Err(StaleInvestigation)
    else
      var _ :- if draft.external.None? then Ok(())
               else if call.env.desk.None? then Err(SourceGuardUnavailable)
               else ValidateReport(w, call.env.desk.value, c, draft.report, call.env.at);
      Ok(Changed(WithReport(w, draft), Reported(Report(draft.report, draft.report))))
  }

  /** A report is usable while its case version, its whole basis and its evidence are still current. */
  ghost function ValidReport(w: Workspace, desk: Option<Config>, c: Id, reportId: Id, at: Time): Result<Report>
    requires c in w.cases
  {
    if reportId !in w.reports || w.reports[reportId].body.caseId != c then Err(ReportNotFound)
    else
      var body := w.reports[reportId].body;
      if body.caseVersion != w.cases[c].version || w.cases[c].status != Open then Err(StaleInvestigation)
      else
        var basis :- InvestigationBasisOf(w, c);
        if body.basis != basis then Err(StaleInvestigation)
        else
          var _ :- RequireDesk(w.artifacts, c, desk, EvidenceEvents(body.trace) != []);
          var _ :- if desk.None? then Ok(()) else ValidateReport(w, desk.value, c, body, at);
          Ok(w.reports[reportId])
  }

  predicate IndependentReviewer(w: Workspace, call: Call, c: Id, reviewerId: Id)
    requires c in w.cases
  {
    && reviewerId in call.env.actors
    && var reviewer := call.env.actors[reviewerId];
    && reviewer.tenantId == call.actor.tenantId && reviewer.role == Reviewer
    && w.cases[c].scope.subject in reviewer.subjects
    && reviewer.actorId != call.actor.actorId && reviewer.actorId != w.cases[c].openedBy
  }

  ghost function HandoffChange(w: Workspace, call: Call, c: Id, reportId: Id, reviewerId: Id): Result<Changed> {
    if !SeesCase(w, call.actor, c) then Err(CaseNotFound)
    else
      var report :- ValidReport(w, call.env.desk, c, reportId, call.env.at);
      if !IndependentReviewer(w, call, c, reviewerId) then Err(IndependentReviewerRequired)
      else if report.body.investigatorId != call.actor.actorId then Err(ReportOwnerMismatch)
      else
        var handoff := Handoff(call.env.newId, reportId, c, w.cases[c].version,
                               call.env.actors[reviewerId].actorId, call.actor.actorId, false);
        Ok(Changed(w.(handoffs := w.handoffs[call.env.newId := handoff]), HandedOff(handoff)))
  }

  ghost function AcceptChange(w: Workspace, call: Call, h: Id): Result<Changed> {
    if h !in w.handoffs || w.handoffs[h].reviewerId != call.actor.actorId then Err(HandoffNotFound)
    else
      var handoff := w.handoffs[h];
      if !SeesCase(w, call.actor, handoff.caseId) then Err(CaseNotFound)
      else
        var _ :- ValidReport(w, call.env.desk, handoff.caseId, handoff.reportId, call.env.at);
        if handoff.caseVersion != w.cases[handoff.caseId].version then Err(StaleHandoff)
        else
          var accepted := handoff.(accepted := true);
          Ok(Changed(w.(handoffs := w.handoffs[h := accepted]), HandedOff(accepted)))
  }

  predicate AcknowledgedReview(w: Workspace, call: Call, c: Id, h: Id)
    requires c in w.cases
  {
    && h in w.handoffs
    && var handoff := w.handoffs[h];
    && handoff.caseId == c && handoff.accepted && handoff.reviewerId == call.actor.actorId
    && call.actor.actorId != w.cases[c].openedBy && call.actor.actorId != handoff.investigatorId
  }

  function ResolvedCase(w: Workspace, call: Call, c: Id, resolution: Resolution): RiskCase
    requires c in w.cases
  {
    w.cases[c].(
      status := Resolved, version := w.cases[c].version + 1, resolution := Some(resolution),
      resolvedBy := Some(call.actor.actorId), resolvedSeq := Some(w.revision + 1))
  }

  function ProofOf(w: Workspace, call: Call, riskCase: RiskCase, report: Report, h: Id,
                   evidence: Digest): ResolutionProof
  {
    ResolutionProof(riskCase.caseId, riskCase.version, report.body.reportId, report.root, h, evidence,
                    call.actor.actorId, w.revision + 1)
  }

  function PutLink(artifacts: map<Key, Artifact>, proof: ResolutionProof): map<Key, Artifact> {
    artifacts[LinkKey(proof.caseId, proof.caseVersion) := LinkArtifact(proof)]
  }

  // Binds the review and the evidence bundle of a sourced report into future bases.
  function WithLink(w: Workspace, call: Call, riskCase: RiskCase, report: Report, h: Id, evidence: Digest): Workspace {
    if BundleKey(report.body.reportId) !in w.artifacts then w
    else w.(artifacts := PutLink(w.artifacts, ProofOf(w, call, riskCase, report, h, evidence)))
  }

  // What a resolution leaves of an affected task: tainted, and denied while another case is open.
  function ResolvedTask(w: Workspace, k: Id, token: Token, at: Time): Task
    requires k in w.tasks
  {
    var v := PolicyOf(w, k, at, false);
    var status := if v.Ok? && v.value.verdict == Deny then Of(Deny) else Of(NeedsHuman);
    w.tasks[k].(taints := w.tasks[k].taints[token := ReconsiderRequired], status := status)
  }

  function ResolvedTasks(w: Workspace, impacted: set<Id>, token: Token, at: Time): map<Id, Task> {
    map k | k in w.tasks :: if k in impacted then ResolvedTask(w, k, token, at) else w.tasks[k]
  }

  function LessonOf(sequence: nat, call: Call, resolved: RiskCase, c: Id, report: Report, resolution: Resolution,
                    evidence: Digest): Lesson
  {
    Lesson(resolved.scope, resolved.kind, c, resolved.version, sequence,
           report.body.reportId, resolution, call.actor.actorId, evidence)
  }

  // The workspace once a resolution's review is bound, its case stored and its policy noted.
  function NotedResolution(w: Workspace, call: Call, c: Id, h: Id, report: Report, resolution: Resolution,
                           evidence: Digest): Result<Workspace>
    requires c in w.cases
  {
    var resolved := ResolvedCase(w, call, c, resolution);
    Remember(WithCase(WithLink(w, call, resolved, report, h, evidence), resolved), call.env.desk, c, {})
  }

  ghost function ClosedOut(w: Workspace, call: Call, c: Id, resolved: RiskCase, report: Report,
                           resolution: Resolution, evidence: Digest): Changed
  {
    var impacted := Affected(w.tasks, resolved.scope);
    Changed(
      w.(tasks := ResolvedTasks(w, impacted, ResolutionToken(c, resolved.version), call.env.at),
         lessons := w.lessons[call.env.newId := LessonOf(w.revision + 1, call, resolved, c, report, resolution, evidence)]),
      CaseResolved(resolved, impacted, call.env.newId))
  }

  // A completed resolution is the noted one, with its tasks marked and its lesson kept.
  ghost function CompleteResolution(w: Workspace, call: Call, c: Id, h: Id, report: Report, resolution: Resolution,
                                    evidence: Digest)
    : Result<Changed>
    requires c in w.cases
  {
    var noted :- NotedResolution(w, call, c, h, report, resolution, evidence);
    Ok(ClosedOut(noted, call, c, ResolvedCase(w, call, c, resolution), report, resolution, evidence))
  }

  ghost function ResolveChange(w: Workspace, call: Call, c: Id, h: Id, resolution: Resolution,
                               evidence: Digest): Result<Changed>
  {
    if !SeesCase(w, call.actor, c) then Err(CaseNotFound)
    else if !AcknowledgedReview(w, call, c, h) then Err(AcknowledgedReviewRequired)
    else
      var report :- ValidReport(w, call.env.desk, c, w.handoffs[h].reportId, call.env.at);
      if w.handoffs[h].caseVersion != w.cases[c].version then Err(StaleHandoff)
      else
        var _ :- if call.env.desk.None? then Ok(())
                 else ResolutionGate(w, call.env.desk.value, c, evidence, call.env.at);
        CompleteResolution(w, call, c, h, report, resolution, evidence)
  }

  // ----- Evidence acquisition -----

  function Requests(artifacts: map<Key, Artifact>, c: Id, sourceId: Id): set<Key> {
    set k | k in artifacts && artifacts[k].RequestArtifact?
      && artifacts[k].request.caseId == c && artifacts[k].request.sourceId == sourceId
  }

  predicate Cached(receipts: Receipts, sourceId: Id, resource: Resource) {
    sourceId in receipts.accepted && receipts.accepted[sourceId].resource == resource
  }

  function WithRequest(w: Workspace, call: Call, c: Id, resource: Resource): Workspace
    requires c in w.cases && call.carried.Reservation?
  {
    var id := RequestId(call.actor.actorId, call.key);
    var source := call.carried.spec.sourceId;
    var request := SourceRequest(id, c, w.cases[c].version, source, call.carried.spec, resource,
                                 Pending, call.env.at, call.actor.actorId, None, None, None);
    var head := SourceHead(c, w.cases[c].version, source, id, Pending, None);
    w.(artifacts := w.artifacts[RequestKey(id) := RequestArtifact(request)][HeadKey(c, source) := HeadArtifact(head)])
  }

  // Answers from a usable receipt of the same resource, or spends one read of the budget.
  function Reserve(w: Workspace, call: Call, c: Id, resource: Resource, force: bool): Result<Changed>
    requires c in w.cases && call.carried.Reservation? && call.env.desk.Some?
  {
    var spec := call.carried.spec;
    var id := RequestId(call.actor.actorId, call.key);
    var receipts :- CurrentReceipts(w, c, call.env.at, call.env.desk.value.specs);
    if Cached(receipts, spec.sourceId, resource) && !force then
      Ok(Changed(w, CacheHit(id, receipts.accepted[spec.sourceId])))
    else if |Requests(w.artifacts, c, spec.sourceId)| >= spec.maxAttempts then Err(SourceReadBudgetExhausted)
    else Ok(Changed(WithRequest(w, call, c, resource), Reserved(id)))
  }

  /** Reserves a read before it is made: the new request becomes the source's head. */
  function ReserveChange(w: Workspace, call: Call, c: Id, resource: Resource, force: bool): Result<Changed> {
    if !SeesCase(w, call.actor, c) then Err(CaseNotFound)
    else if !call.carried.Reservation? || call.env.desk.None? then Err(SourceNotAllowed)
    else if w.cases[c].status != Open || w.cases[c].version != call.carried.caseVersion then Err(SourceCaseChanged)
    else
      var noted :- Remember(w, call.env.desk, c, {call.carried.spec.sourceId});
      Reserve(noted, call, c, resource, force)
  }

  function HeadAt(w: Workspace, c: Id, sourceId: Id): Option<SourceHead> {
    if HeadKey(c, sourceId) in w.artifacts && w.artifacts[HeadKey(c, sourceId)].HeadArtifact?
    then Some(w.artifacts[HeadKey(c, sourceId)].head) else None
  }

  predicate IsPending(w: Workspace, id: RequestId) {
    && RequestKey(id) in w.artifacts && w.artifacts[RequestKey(id)].RequestArtifact?
    && w.artifacts[RequestKey(id)].request.state == Pending
  }

  predicate Leads(w: Workspace, c: Id, sourceId: Id, id: RequestId) {
    HeadAt(w, c, sourceId).Some? && HeadAt(w, c, sourceId).value.requestId == id
  }

  function FinishedState(w: Workspace, call: Call, c: Id, id: RequestId, fetched: FetchResult): FetchState
    requires c in w.cases && call.carried.Fetch?
  {
    if w.cases[c].version != call.carried.caseVersion || w.cases[c].status != Open
       || !Leads(w, c, call.carried.spec.sourceId, id) then Stale
    else if fetched.Failed? then FetchFailed
    else Observed
  }

  function ReceiptFor(call: Call, c: Id, observation: Observation): Receipt
    requires call.carried.Fetch?
  {
    var f := call.carried;
    Receipt(call.env.newId, c, f.caseVersion, f.spec.sourceId, f.spec, f.spec.group, f.resource,
            f.finished, f.finished + f.spec.ttl * SECOND, observation)
  }

  function StoredReceipt(call: Call, c: Id, fetched: FetchResult): Option<Receipt>
    requires call.carried.Fetch?
  {
    if fetched.Fetched? then Some(ReceiptFor(call, c, fetched.observation)) else None
  }

  function WithReceipt(artifacts: map<Key, Artifact>, receipt: Option<Receipt>): map<Key, Artifact> {
    if receipt.None? then artifacts
    else artifacts[ReceiptKey(receipt.value.receiptId) := ReceiptArtifact(receipt.value, receipt.value)]
  }

  /** Completes the reserved read against the present workspace; only the leading request moves the head. */
  function FinishChange(w: Workspace, call: Call, c: Id, id: RequestId, fetched: FetchResult): Result<Changed> {
    if !call.carried.Fetch? || !IsPending(w, id) then Err(SourceRequestNotPending)
    else if !SeesCase(w, call.actor, c) then Err(CaseNotFound)
    else
      var source := call.carried.spec.sourceId;
      var state := FinishedState(w, call, c, id, fetched);
      var receipt := StoredReceipt(call, c, fetched);
      var receiptId := if receipt.Some? then Some(receipt.value.receiptId) else None;
      var request := w.artifacts[RequestKey(id)].request.(
        state := state, finishedAt := Some(call.carried.finished),
        error := if fetched.Failed? then Some(fetched.code) else None, receiptId := receiptId);
      var stored := WithReceipt(w.artifacts[RequestKey(id) := RequestArtifact(request)], receipt);
      var led := if !Leads(w, c, source, id) then stored
                 else
                   var head := HeadAt(w, c, source).value;
                   stored[HeadKey(c, source) := HeadArtifact(head.(
                     state := state, receiptId := if receipt.Some? then receiptId else head.receiptId))];
      Ok(Changed(w.(artifacts := led), Finished(id, state, receipt)))
  }

  // ----- Dispatch -----

  /** The effect of a command that passed every check of the envelope. */
  ghost function Change(w: Workspace, call: Call): Result<Changed> {
    match call.command
    case Bootstrap => Ok(Changed(w, Initialized))
    case SetBaseline(scope, limit, expiresAt) => SetBaselineChange(w, call, scope, limit, expiresAt)
    case RegisterTask(intent, dependsOn) => RegisterChange(w, call, intent, dependsOn)
    case Evaluate(t) => EvaluateChange(w, call, t, false)
    case Reconsider(t) => EvaluateChange(w, call, t, true)
    case OpenCase(scope, kind, evidence) => OpenChange(w, call, scope, kind, evidence, NewRisk)
    case IngestIncident(source, _, scope, kind, evidence, payload) =>
      IngestChange(w, call, source, scope, kind, evidence, payload)
    case ReopenCase(c, evidence) => ReopenChange(w, call, c, evidence)
    case QuarantineNote(_, textHash) => Ok(Changed(w, Quarantined(textHash)))
    case Investigate(c) => InvestigateChange(w, call, c)
    case HandoffReport(c, reportId, reviewerId) => HandoffChange(w, call, c, reportId, reviewerId)
    case AcceptHandoff(h) => AcceptChange(w, call, h)
    case Resolve(c, h, resolution, evidence) => ResolveChange(w, call, c, h, resolution, evidence)
    case PrepareReview(t, d) => PrepareChange(w, call, t, d)
    case ReserveSource(c, _, resource, force) => ReserveChange(w, call, c, resource, force)
    case FinishSource(c, id, fetched) => FinishChange(w, call, c, id, fetched)
  }
}
