/** The service as it runs: a loaded workspace edited in place by each command, and the store around it. */
module Service {
  import opened Common
  import opened CaseworkModels
  import opened DependencyGraph
  import opened SourceState
  import opened SourceGuard
  import opened EvidenceDesk
  import opened CasePolicy
  import opened Commands
  import opened Envelope
  import opened Safety
  import opened Integrity

  // A command's answer and the workspace it leaves are those of its specification.
  ghost predicate Answers(spec: Result<Changed>, r: Result<Outcome>, now: Workspace) {
    match spec
    case Err(e) => r == Err(e)
    case Ok(changed) => r == Ok(changed.outcome) && now == changed.state
  }

  // A denial looks only at cases and closures, so editing taints and statuses on the way does not change it.
  lemma DenialSame(a: Workspace, b: Workspace, t: Id, at: Time)
    requires SameShape(a.tasks, b.tasks) && a.cases == b.cases && t in a.tasks
    ensures var v, u := PolicyOf(a, t, at, false), PolicyOf(b, t, at, false);
      (v.Ok? && v.value.verdict == Deny) <==> (u.Ok? && u.value.verdict == Deny)
  {
    ShapeFrame(a.tasks, b.tasks);
    if ClosureOf(a.tasks, t).Ok? {
      PolicyMeaning(a, t, at, false);
      PolicyMeaning(b, t, at, false);
    }
  }

  lemma TaintedShape(a: map<Id, Task>, b: map<Id, Task>, k: Id, token: Token)
    requires SameShape(a, b) && k in b
    ensures SameShape(a, b[k := b[k].(taints := b[k].taints[token := ReconsiderRequired])])
  {
  }

  function MarkedStatus(w: Workspace, k: Id, at: Time): Status
    requires k in w.tasks
  {
    var v := PolicyOf(w, k, at, false);
    if v.Ok? && v.value.verdict == Deny then Of(Deny) else Of(NeedsHuman)
  }

  lemma MarkedSame(a: Workspace, b: Workspace, k: Id, token: Token, at: Time)
    requires SameShape(a.tasks, b.tasks) && a.cases == b.cases && k in a.tasks
    ensures MarkedStatus(b, k, at) == ResolvedTask(a, k, token, at).status
  {
    DenialSame(a, b, k, at);
  }

  method ReadStatus(w: Workspace, k: Id, token: Token, at: Time, ghost before: Workspace) returns (status: Status)
    requires SameShape(before.tasks, w.tasks) && before.cases == w.cases && k in before.tasks
    ensures status == ResolvedTask(before, k, token, at).status
  {
    var v := PolicyResult(w, k, at, false);
    MarkedSame(before, w, k, token, at);
    status := if v.Ok? && v.value.verdict == Deny then Of(Deny) else Of(NeedsHuman);
  }

  lemma {:induction false} ParentsStep(w: Workspace, actor: Actor, subject: Id, parents: seq<Id>, i: nat)
    requires i < |parents|
    ensures CheckParents(w, actor, subject, parents[i..]) ==
      if !SeesTask(w, actor, parents[i]) then Err(TaskNotFound)
      else if w.tasks[parents[i]].intent.scope.subject != subject then Err(CrossSubjectDependency)
      else CheckParents(w, actor, subject, parents[i + 1..])
  {
    assert parents[i..][1..] == parents[i + 1..];
  }

  // Every blocker of a denial joins the taints.
  method AddBlockerTaints(before: map<Token, TaintReason>, cases: map<Id, RiskCase>, blockers: set<Id>)
    returns (taints: map<Token, TaintReason>)
    requires blockers <= cases.Keys
    ensures taints == before + BlockerTaints(cases, blockers)
  {
    taints := before;
    var rest := blockers;
    while rest != {}
      invariant rest <= blockers && taints == before + BlockerTaints(cases, blockers - rest)
      decreases rest
    {
      var b :| b in rest;
      BlockerTaintsStep(cases, blockers - rest, b);
      taints := taints[CaseToken(b, cases[b].version) := OpenRisk];
      assert blockers - (rest - {b}) == blockers - rest + {b};
      rest := rest - {b};
    }
    assert blockers - rest == blockers;
  }

  method DraftDecision(w: Workspace, t: Id, call: Call, explicit: bool) returns (r: Result<Decision>)
    requires t in w.tasks
    ensures r == DecisionOf(w, t, call, explicit)
  {
    var at := call.env.at;
    var v := PolicyResult(w, t, at, explicit);
    if v.Err? {
      return Err(v.error);
    }
    var basis := BasisOf(w, t);
    if basis.Err? {
      return Err(basis.error);
    }
    var expiry := Ok(at + TEN_MINUTES);
    if v.value.verdict == Ready {
      expiry := ComputeReadyExpiry(w, t, at, at + TEN_MINUTES);
      if expiry.Err? {
        return Err(expiry.error);
      }
    }
    return Ok(DecisionFor(w, t, call, v.value, basis.value, expiry.value));
  }

  // The dispatch of the three commands that raise a case.
  lemma OpenDispatch(w: Workspace, call: Call)
    requires call.command.OpenCase?
    ensures Change(w, call) == OpenChange(w, call, call.command.scope, call.command.kind, call.command.evidence, NewRisk)
  {
  }

  lemma IngestDispatch(w: Workspace, call: Call)
    requires call.command.IngestIncident?
    ensures var command := call.command;
      Change(w, call) ==
        IngestChange(w, call, command.sourceId, command.scope, command.kind, command.evidence, command.payload)
  {
  }

  lemma ReopenDispatch(w: Workspace, call: Call)
    requires call.command.ReopenCase?
    ensures Change(w, call) == ReopenChange(w, call, call.command.caseId, call.command.evidence)
  {
  }

  class LiveWorkspace {
    const tenantId: Id
    var revision: nat
    var baselines: map<Scope, Baseline>
    var baselineHistory: map<Scope, seq<Baseline>>
    var cases: map<Id, RiskCase>
    var caseHistory: map<Id, seq<RiskCase>>
    var tasks: map<Id, Task>
    var decisions: map<Id, Decision>
    var reports: map<Id, Report>
    var handoffs: map<Id, Handoff>
    var lessons: map<Id, Lesson>
    var artifacts: map<Key, Artifact>
    var audit: seq<AuditEntry>
    var completed: map<(Id, IdemKey), Completed>

    function Snapshot(): Workspace
      reads this
    {
      Workspace(tenantId, revision, baselines, baselineHistory, cases, caseHistory, tasks,
                decisions, reports, handoffs, lessons, artifacts, audit, completed)
    }

    constructor (w: Workspace)
      ensures Snapshot() == w
    {
      tenantId, revision := w.tenantId, w.revision;
      baselines, baselineHistory, cases, caseHistory := w.baselines, w.baselineHistory, w.cases, w.caseHistory;
      tasks, decisions, reports, handoffs := w.tasks, w.decisions, w.reports, w.handoffs;
      lessons, artifacts, audit, completed := w.lessons, w.artifacts, w.audit, w.completed;
    }

    // ----- Shared steps -----

    /** Taints and suspends every task that depends on work in the scope. */
    method InvalidateScope(scope: Scope, token: Token, reason: TaintReason) returns (impacted: set<Id>)
      modifies this`tasks
      ensures impacted == Affected(old(tasks), scope)
      ensures tasks == Invalidate(old(tasks), impacted, token, reason)
    {
      impacted := AffectedTasks(tasks, scope);
      var rest := impacted;
      while rest != {}
        invariant rest <= impacted
        invariant tasks == Invalidate(old(tasks), impacted - rest, token, reason)
        decreases rest
      {
        var k :| k in rest;
        InvalidateStep(old(tasks), impacted - rest, k, token, reason);
        assert impacted - (rest - {k}) == impacted - rest + {k};
        tasks := tasks[k := tasks[k].(taints := tasks[k].taints[token := reason], status := Suspended)];
        rest := rest - {k};
      }
      assert impacted - rest == impacted;
    }

    /** Records what the present configuration and the given sources oblige a case to. */
    method NotePolicy(desk: Option<Config>, c: Id, sources: set<Id>) returns (r: Result<()>)
      requires c in cases
      modifies this`artifacts
      ensures var spec := Remember(old(Snapshot()), desk, c, sources);
        && (spec.Err? ==> r == Err(spec.error) && Snapshot() == old(Snapshot()))
        && (spec.Ok? ==> r == Ok(()) && Snapshot() == spec.value)
    {
      if desk.None? {
        return Ok(());
      }
      var policy := CasePolicyOf(Snapshot(), desk.value, c);
      var owed := CollectObligations(artifacts, c);
      if owed.configured && policy.None? {
        return Err(SourcePolicyRemoved);
      }
      if policy.Some? && Weakened(artifacts, c, policy.value) {
        return Err(SourcePolicyWeakened);
      }
      var effective := Join(owed, PolicyFloor(policy));
      var floor := effective.(required := effective.required + sources);
      if floor.required != {} || floor.configured {
        var guard := Guard(artifacts, c);
        var configured := (if guard.Some? then guard.value.configuredSources else {}) + PolicyFloor(policy).required;
        artifacts := artifacts[GuardKey(c) := GuardArtifact(c, floor, configured)];
      }
      return Ok(());
    }

    method StoreDecision(t: Id, decision: Decision, explicit: bool)
      requires t in tasks && decision.body.blockers <= cases.Keys
      modifies this`decisions, this`artifacts, this`tasks
      ensures Snapshot() == RecordDecision(old(Snapshot()), t, decision, explicit)
    {
      var id, verdict := decision.body.decisionId, decision.body.verdict;
      var taints := AddBlockerTaints(tasks[t].taints, cases, decision.body.blockers);
      decisions := decisions[id := decision];
      if verdict != Ready {
        artifacts := artifacts[EscalationKey(t, id) := EscalationArtifact(decision.body)];
      }
      if explicit && verdict == Ready {
        taints := map[];
      }
      tasks := tasks[t := tasks[t].(taints := taints, status := Of(verdict), current := Some(id))];
    }

    /** Evaluates the policy now and makes the outcome the task's current decision. */
    method MakeDecision(t: Id, call: Call, explicit: bool) returns (r: Result<Decision>)
      requires t in tasks
      modifies this`decisions, this`artifacts, this`tasks
      ensures var spec := Decide(old(Snapshot()), t, call, explicit);
        && (spec.Err? ==> r == Err(spec.error) && Snapshot() == old(Snapshot()))
        && (spec.Ok? ==> r == Ok(spec.value.decision) && Snapshot() == spec.value.state)
    {
      r := DraftDecision(Snapshot(), t, call, explicit);
      if r.Ok? {
        StoreDecision(t, r.value, explicit);
      }
    }

    // ----- Tasks -----

    method RegisterTask(call: Call, intent: Intent, dependsOn: seq<Id>) returns (r: Result<Outcome>)
      modifies this`decisions, this`artifacts, this`tasks
      ensures Answers(RegisterChange(old(Snapshot()), call, intent, dependsOn), r, Snapshot())
    {
      ghost var before := Snapshot();
      var t, subject := call.env.newId, intent.scope.subject;
      if |tasks| >= MAX_TASKS {
        return Err(TaskCapacityReached);
      }
      if !NoDuplicates(dependsOn) {
        return Err(DuplicateDependency);
      }
      var i := 0;
      assert dependsOn[0..] == dependsOn;
      while i < |dependsOn|
        invariant 0 <= i <= |dependsOn| && Snapshot() == before
        invariant CheckParents(before, call.actor, subject, dependsOn) == CheckParents(before, call.actor, subject, dependsOn[i..])
      {
        ParentsStep(before, call.actor, subject, dependsOn, i);
        if !SeesTask(Snapshot(), call.actor, dependsOn[i]) {
          return Err(TaskNotFound);
        }
        if tasks[dependsOn[i]].intent.scope.subject != subject {
          return Err(CrossSubjectDependency);
        }
        i := i + 1;
      }
      tasks := tasks[t := Task(t, intent, Sort(dependsOn), map[], Of(NeedsHuman), None)];
      assert Snapshot() == WithTask(before, call, intent, dependsOn);
      var decision := MakeDecision(t, call, false);
      if decision.Err? {
        return Err(decision.error);
      }
      return Ok(Registered(tasks[t], decision.value));
    }

    method EvaluateTask(call: Call, t: Id, explicit: bool) returns (r: Result<Outcome>)
      modifies this`decisions, this`artifacts, this`tasks
      ensures Answers(EvaluateChange(old(Snapshot()), call, t, explicit), r, Snapshot())
    {
      if !SeesTask(Snapshot(), call.actor, t) {
        return Err(TaskNotFound);
      }
      var former := tasks[t].current;
      var decision := MakeDecision(t, call, explicit);
      if decision.Err? {
        return Err(decision.error);
      }
      return Ok(Decided(decision.value, former, tasks[t].taints.Keys));
    }

    method PrepareReviewOf(call: Call, t: Id, d: Id) returns (r: Result<Outcome>)
      modifies this`artifacts
      ensures Answers(PrepareChange(old(Snapshot()), call, t, d), r, Snapshot())
    {
      if !SeesTask(Snapshot(), call.actor, t) {
        return Err(TaskNotFound);
      }
      if d !in decisions || decisions[d].body.taskId != t || tasks[t].current != Some(d) {
        return Err(DecisionSuperseded);
      }
      var v := PolicyResult(Snapshot(), t, call.env.at, false);
      if v.Err? {
        return Err(v.error);
      }
      var body := decisions[d].body;
      if tasks[t].status != Of(Ready) || body.verdict != Ready || v.value.verdict != Ready
         || body.expiresAt <= call.env.at || BasisOf(Snapshot(), t) != Ok(body.basis) {
        return Err(StaleOrBlockedReview);
      }
      artifacts := artifacts[ReviewKey(t, d) := ReviewArtifact(t, d, decisions[d].proofRoot)];
      return Ok(ReviewPrepared(t, d, decisions[d].proofRoot));
    }

    // ----- Baselines and cases -----

    method SetBaselineIn(call: Call, scope: Scope, limit: nat, expiresAt: Time) returns (r: Result<Outcome>)
      modifies this`baselines, this`baselineHistory, this`tasks
      ensures Answers(SetBaselineChange(old(Snapshot()), call, scope, limit, expiresAt), r, Snapshot())
    {
      var version := if scope in baselines then baselines[scope].version + 1 else 1;
      baselines := baselines[scope := Baseline(scope, version, limit, expiresAt, call.actor.actorId, revision + 1)];
      baselineHistory := baselineHistory[scope := History(baselineHistory, scope) + [baselines[scope]]];
      var impacted := InvalidateScope(scope, BaselineToken(scope, version), BaselineChanged);
      return Ok(BaselineSet(scope, version, impacted));
    }

    method PutCase(riskCase: RiskCase)
      modifies this`cases, this`caseHistory
      ensures Snapshot() == WithCase(old(Snapshot()), riskCase)
    {
      cases := cases[riskCase.caseId := riskCase];
      caseHistory := caseHistory[riskCase.caseId := History(caseHistory, riskCase.caseId) + [riskCase]];
    }

    method RaiseRisk(call: Call, riskCase: RiskCase, reason: TaintReason) returns (r: Result<Outcome>)
      modifies this`cases, this`caseHistory, this`artifacts, this`tasks
      ensures Answers(RaiseCase(old(Snapshot()), call, riskCase, reason), r, Snapshot())
    {
      ghost var before := Snapshot();
      PutCase(riskCase);
      var noted := NotePolicy(call.env.desk, riskCase.caseId, {});
      if noted.Err? {
        return Err(noted.error);
      }
      RememberFrame(WithCase(before, riskCase), call.env.desk, riskCase.caseId, {});
      var impacted := InvalidateScope(riskCase.scope, CaseToken(riskCase.caseId, riskCase.version), reason);
      return Ok(CaseOpened(riskCase, impacted));
    }

    method OpenRiskCase(call: Call, scope: Scope, kind: RiskKind, evidence: Digest, reason: TaintReason)
      returns (r: Result<Outcome>)
      modifies this`cases, this`caseHistory, this`artifacts, this`tasks
      ensures Answers(OpenChange(old(Snapshot()), call, scope, kind, evidence, reason), r, Snapshot())
    {
      if |cases| >= MAX_CASES {
        return Err(CaseCapacityReached);
      }
      r := RaiseRisk(call, NewCase(Snapshot(), call, scope, kind, evidence), reason);
    }

    /** The other way in: a signed incident opens a case and leaves its receipt. */
    method IngestSigned(call: Call, source: Id, scope: Scope, kind: RiskKind, evidence: Digest, payload: Id)
      returns (r: Result<Outcome>)
      modifies this`cases, this`caseHistory, this`artifacts, this`tasks
      ensures Answers(IngestChange(old(Snapshot()), call, source, scope, kind, evidence, payload), r, Snapshot())
    {
      r := OpenRiskCase(call, scope, kind, evidence, SignedIncident);
      if r.Ok? {
        artifacts := artifacts[IncidentKey(call.env.newId) :=
          IncidentArtifact(call.env.newId, source, call.actor.actorId, call.env.at, payload)];
      }
    }

    method ReopenRiskCase(call: Call, c: Id, evidence: Digest) returns (r: Result<Outcome>)
      modifies this`cases, this`caseHistory, this`artifacts, this`tasks
      ensures Answers(ReopenChange(old(Snapshot()), call, c, evidence), r, Snapshot())
    {
      if !SeesCase(Snapshot(), call.actor, c) {
        return Err(CaseNotFound);
      }
      if cases[c].status != Resolved {
        return Err(CaseAlreadyOpen);
      }
      r := RaiseRisk(call, ReopenedCase(Snapshot(), call, c, evidence), RiskReopened);
    }

    // ----- Investigation, handoff and resolution -----

    method StoreReport(call: Call, c: Id) returns (r: Result<Outcome>)
      modifies this`reports, this`artifacts
      ensures Answers(InvestigateChange(old(Snapshot()), call, c), r, Snapshot())
    {
      var draft := call.carried;
      if !draft.Draft? || c !in cases || draft.report.caseId != c {
        return Err(StaleInvestigation);
      }
      if draft.external.Some? {
        if call.env.desk.None? {
          return Err(SourceGuardUnavailable);
        }
        var fit := ValidateReport(Snapshot(), call.env.desk.value, c, draft.report, call.env.at);
        if fit.Err? {
          return Err(fit.error);
        }
      }
      var report := Report(draft.report, draft.report);
      reports := reports[draft.report.reportId := report];
      if draft.external.Some? {
        artifacts := artifacts[BundleKey(draft.report.reportId) :=
          BundleArtifact(draft.report.reportId, c, draft.report, draft.external.value)];
      }
      return Ok(Reported(report));
    }

    method CheckReport(desk: Option<Config>, c: Id, reportId: Id, at: Time) returns (r: Result<Report>)
      requires c in cases
      ensures r == ValidReport(Snapshot(), desk, c, reportId, at)
    {
      if reportId !in reports || reports[reportId].body.caseId != c {
        return Err(ReportNotFound);
      }
      var body := reports[reportId].body;
      if body.caseVersion != cases[c].version || cases[c].status != Open {
        return Err(StaleInvestigation);
      }
      var basis := BuildInvestigationBasis(Snapshot(), c);
      if basis.Err? {
        return Err(basis.error);
      }
      if body.basis != basis.value {
        return Err(StaleInvestigation);
      }
      var owed := CollectObligations(artifacts, c);
      if desk.None? {
        if EvidenceEvents(body.trace) != [] || owed.required != {} || owed.configured {
          return Err(SourceGuardUnavailable);
        }
      } else {
        var fit := ValidateReport(Snapshot(), desk.value, c, body, at);
        if fit.Err? {
          return Err(fit.error);
        }
      }
      return Ok(reports[reportId]);
    }

    method HandOff(call: Call, c: Id, reportId: Id, reviewerId: Id) returns (r: Result<Outcome>)
      modifies this`handoffs
      ensures Answers(HandoffChange(old(Snapshot()), call, c, reportId, reviewerId), r, Snapshot())
    {
      if !SeesCase(Snapshot(), call.actor, c) {
        return Err(CaseNotFound);
      }
      var report := CheckReport(call.env.desk, c, reportId, call.env.at);
      if report.Err? {
        return Err(report.error);
      }
      if !IndependentReviewer(Snapshot(), call, c, reviewerId) {
        return Err(IndependentReviewerRequired);
      }
      if report.value.body.investigatorId != call.actor.actorId {
        return Err(ReportOwnerMismatch);
      }
      var handoff := Handoff(call.env.newId, reportId, c, cases[c].version,
                             call.env.actors[reviewerId].actorId, call.actor.actorId, false);
      handoffs := handoffs[call.env.newId := handoff];
      return Ok(HandedOff(handoff));
    }

    method AcceptHandoffOf(call: Call, h: Id) returns (r: Result<Outcome>)
      modifies this`handoffs
      ensures Answers(AcceptChange(old(Snapshot()), call, h), r, Snapshot())
    {
      if h !in handoffs || handoffs[h].reviewerId != call.actor.actorId {
        return Err(HandoffNotFound);
      }
      var handoff := handoffs[h];
      if !SeesCase(Snapshot(), call.actor, handoff.caseId) {
        return Err(CaseNotFound);
      }
      var report := CheckReport(call.env.desk, handoff.caseId, handoff.reportId, call.env.at);
      if report.Err? {
        return Err(report.error);
      }
      if handoff.caseVersion != cases[handoff.caseId].version {
        return Err(StaleHandoff);
      }
      handoffs := handoffs[h := handoff.(accepted := true)];
      return Ok(HandedOff(handoffs[h]));
    }

    // Marks one task: the verdict is read again from a workspace in which other tasks are already marked.
    method MarkTask(k: Id, token: Token, at: Time, ghost before: Workspace)
      requires SameShape(before.tasks, tasks) && k in tasks && tasks[k] == before.tasks[k]
      requires Snapshot() == before.(tasks := tasks)
      modifies this`tasks
      ensures tasks == old(tasks)[k := ResolvedTask(before, k, token, at)]
    {
      TaintedShape(before.tasks, tasks, k, token);
      tasks := tasks[k := tasks[k].(taints := tasks[k].taints[token := ReconsiderRequired])];
      var status := ReadStatus(Snapshot(), k, token, at, before);
      tasks := tasks[k := tasks[k].(status := status)];
    }

    /** Marks every affected task for reconsideration, as if each were read from the workspace before any was marked. */
    method MarkForReview(impacted: set<Id>, token: Token, at: Time)
      requires impacted <= tasks.Keys
      modifies this`tasks
      ensures tasks == ResolvedTasks(old(Snapshot()), impacted, token, at)
    {
      ghost var before := Snapshot();
      var rest := impacted;
      while rest != {}
        invariant rest <= impacted
        invariant tasks == ResolvedTasks(before, impacted - rest, token, at)
        invariant Snapshot() == before.(tasks := tasks)
        decreases rest
      {
        var k :| k in rest;
        ResolvedTasksShape(before, impacted - rest, token, at);
        MarkTask(k, token, at, before);
        ResolvedTasksStep(before, impacted - rest, k, token, at);
        assert impacted - (rest - {k}) == impacted - rest + {k};
        rest := rest - {k};
      }
      assert impacted - rest == impacted;
    }

    method BindReview(call: Call, resolved: RiskCase, report: Report, h: Id, evidence: Digest)
      modifies this`artifacts
      ensures Snapshot() == WithLink(old(Snapshot()), call, resolved, report, h, evidence)
    {
      if BundleKey(report.body.reportId) in artifacts {
        artifacts := PutLink(artifacts, ProofOf(Snapshot(), call, resolved, report, h, evidence));
      }
    }

    // Binds the review, stores the resolved case and notes the policy.
    method StoreResolution(call: Call, c: Id, h: Id, report: Report, resolution: Resolution, evidence: Digest)
      returns (r: Result<RiskCase>)
      requires c in cases
      modifies this`cases, this`caseHistory, this`artifacts
      ensures var spec := NotedResolution(old(Snapshot()), call, c, h, report, resolution, evidence);
        && (spec.Err? ==> r == Err(spec.error))
        && (spec.Ok? ==> r == Ok(ResolvedCase(old(Snapshot()), call, c, resolution)) && Snapshot() == spec.value)
    {
      var resolved := ResolvedCase(Snapshot(), call, c, resolution);
      BindReview(call, resolved, report, h, evidence);
      PutCase(resolved);
      var noted := NotePolicy(call.env.desk, c, {});
      if noted.Err? {
        return Err(noted.error);
      }
      return Ok(resolved);
    }

    method CloseCase(call: Call, c: Id, h: Id, report: Report, resolution: Resolution, evidence: Digest)
      returns (r: Result<Outcome>)
      requires c in cases
      modifies this`cases, this`caseHistory, this`artifacts, this`tasks, this`lessons
      ensures Answers(CompleteResolution(old(Snapshot()), call, c, h, report, resolution, evidence), r, Snapshot())
    {
      var resolved := StoreResolution(call, c, h, report, resolution, evidence);
      if resolved.Err? {
        return Err(resolved.error);
      }
      r := CloseOut(call, c, resolved.value, report, resolution, evidence);
    }

    // Marks the affected tasks and keeps the lesson.
    method CloseOut(call: Call, c: Id, resolved: RiskCase, report: Report, resolution: Resolution, evidence: Digest)
      returns (r: Result<Outcome>)
      modifies this`tasks, this`lessons
      ensures var closed := ClosedOut(old(Snapshot()), call, c, resolved, report, resolution, evidence);
        r == Ok(closed.outcome) && Snapshot() == closed.state
    {
      var impacted := AffectedTasks(tasks, resolved.scope);
      MarkForReview(impacted, ResolutionToken(c, resolved.version), call.env.at);
      lessons := lessons[call.env.newId := LessonOf(revision + 1, call, resolved, c, report, resolution, evidence)];
      return Ok(CaseResolved(resolved, impacted, call.env.newId));
    }

    method ResolveRiskCase(call: Call, c: Id, h: Id, resolution: Resolution, evidence: Digest)
      returns (r: Result<Outcome>)
      modifies this`cases, this`caseHistory, this`artifacts, this`tasks, this`lessons
      ensures Answers(ResolveChange(old(Snapshot()), call, c, h, resolution, evidence), r, Snapshot())
    {
      if !SeesCase(Snapshot(), call.actor, c) {
        return Err(CaseNotFound);
      }
      if !AcknowledgedReview(Snapshot(), call, c, h) {
        return Err(AcknowledgedReviewRequired);
      }
      var report := CheckReport(call.env.desk, c, handoffs[h].reportId, call.env.at);
      if report.Err? {
        return Err(report.error);
      }
      if handoffs[h].caseVersion != cases[c].version {
        return Err(StaleHandoff);
      }
      if call.env.desk.Some? {
        var gate := ResolutionGate(Snapshot(), call.env.desk.value, c, evidence, call.env.at);
        if gate.Err? {
          return Err(gate.error);
        }
      }
      r := CloseCase(call, c, h, report.value, resolution, evidence);
    }

    // ----- Evidence acquisition -----

    method ReserveSourceRead(call: Call, c: Id, resource: Resource, force: bool) returns (r: Result<Outcome>)
      modifies this`artifacts
      ensures Answers(ReserveChange(old(Snapshot()), call, c, resource, force), r, Snapshot())
    {
      if !SeesCase(Snapshot(), call.actor, c) {
        return Err(CaseNotFound);
      }
      if !call.carried.Reservation? || call.env.desk.None? {
        return Err(SourceNotAllowed);
      }
      if cases[c].status != Open || cases[c].version != call.carried.caseVersion {
        return Err(SourceCaseChanged);
      }
      RememberFrameIfOk(Snapshot(), call.env.desk, c, {call.carried.spec.sourceId});
      var noted := NotePolicy(call.env.desk, c, {call.carried.spec.sourceId});
      if noted.Err? {
        return Err(noted.error);
      }
      r := SpendRead(call, c, resource, force);
    }

    // Answers from a usable receipt, or records the new request and makes it the head.
    method SpendRead(call: Call, c: Id, resource: Resource, force: bool) returns (r: Result<Outcome>)
      requires c in cases && call.carried.Reservation? && call.env.desk.Some?
      modifies this`artifacts
      ensures Answers(Reserve(old(Snapshot()), call, c, resource, force), r, Snapshot())
    {
      var spec, id := call.carried.spec, RequestId(call.actor.actorId, call.key);
      var receipts := CollectReceipts(Snapshot(), c, call.env.at, call.env.desk.value.specs);
      if receipts.Err? {
        return Err(receipts.error);
      }
      if Cached(receipts.value, spec.sourceId, resource) && !force {
        return Ok(CacheHit(id, receipts.value.accepted[spec.sourceId]));
      }
      if |Requests(artifacts, c, spec.sourceId)| >= spec.maxAttempts {
        return Err(SourceReadBudgetExhausted);
      }
      artifacts := artifacts[RequestKey(id) := RequestArtifact(
        SourceRequest(id, c, cases[c].version, spec.sourceId, spec, resource,
                      Pending, call.env.at, call.actor.actorId, None, None, None))];
      artifacts := artifacts[HeadKey(c, spec.sourceId) := HeadArtifact(
        SourceHead(c, cases[c].version, spec.sourceId, id, Pending, None))];
      return Ok(Reserved(id));
    }

    method FinishSourceRead(call: Call, c: Id, id: RequestId, fetched: FetchResult) returns (r: Result<Outcome>)
      modifies this`artifacts
      ensures Answers(FinishChange(old(Snapshot()), call, c, id, fetched), r, Snapshot())
    {
      if !call.carried.Fetch? || !IsPending(Snapshot(), id) {
        return Err(SourceRequestNotPending);
      }
      if !SeesCase(Snapshot(), call.actor, c) {
        return Err(CaseNotFound);
      }
      var source := call.carried.spec.sourceId;
      var state := FinishedState(Snapshot(), call, c, id, fetched);
      var leads, head := Leads(Snapshot(), c, source, id), HeadAt(Snapshot(), c, source);
      var request := artifacts[RequestKey(id)].request.(
        state := state, finishedAt := Some(call.carried.finished),
        error := if fetched.Failed? then Some(fetched.code) else None, receiptId := None);
      var receipt := StoredReceipt(call, c, fetched);
      if receipt.Some? {
        request := request.(receiptId := Some(receipt.value.receiptId));
      }
      artifacts := artifacts[RequestKey(id) := RequestArtifact(request)];
      if receipt.Some? {
        artifacts := artifacts[ReceiptKey(receipt.value.receiptId) := ReceiptArtifact(receipt.value, receipt.value)];
      }
      if leads {
        var moved := head.value.(state := state);
        if receipt.Some? {
          moved := moved.(receiptId := Some(receipt.value.receiptId));
        }
        artifacts := artifacts[HeadKey(c, source) := HeadArtifact(moved)];
      }
      return Ok(Finished(id, state, receipt));
    }

    /** Advances the revision, extends the audit chain and keeps the response under the key. */
    method Commit(call: Call, outcome: Outcome) returns (response: Response)
      modifies this`revision, this`audit, this`completed
      ensures Snapshot() == Record(old(Snapshot()), old(Snapshot()), call, outcome)
      ensures response == Snapshot().completed[KeyOf(call)].response
    {
      revision := revision + 1;
      var event := Event(revision, call.env.at, call.actor.actorId, call.actor.role,
                         FingerprintOf(call), outcome, LastHash(audit));
      audit := audit + [AuditEntry(event, EventHash(event))];
      response := Response(outcome, revision, EventHash(event), false);
      completed := completed[KeyOf(call) := Completed(FingerprintOf(call), response)];
    }

    // ----- Dispatch -----

    method ApplyToCases(call: Call) returns (r: Result<Outcome>)
      requires Raises(call.command)
      modifies this`cases, this`caseHistory, this`artifacts, this`tasks
      ensures Answers(Change(old(Snapshot()), call), r, Snapshot())
    {
      match call.command
      case OpenCase(scope, kind, evidence) =>
        OpenDispatch(Snapshot(), call);
        r := OpenRiskCase(call, scope, kind, evidence, NewRisk);
      case IngestIncident(source, _, scope, kind, evidence, payload) =>
        IngestDispatch(Snapshot(), call);
        r := IngestSigned(call, source, scope, kind, evidence, payload);
      case ReopenCase(c, evidence) =>
        ReopenDispatch(Snapshot(), call);
        r := ReopenRiskCase(call, c, evidence);
    }

    method ApplyToTasks(call: Call) returns (r: Result<Outcome>)
      requires Decides(call.command)
      modifies this`decisions, this`artifacts, this`tasks
      ensures Answers(Change(old(Snapshot()), call), r, Snapshot())
    {
      match call.command
      case RegisterTask(intent, dependsOn) => r := RegisterTask(call, intent, dependsOn);
      case Evaluate(t) => r := EvaluateTask(call, t, false);
      case Reconsider(t) => r := EvaluateTask(call, t, true);
    }

    method ApplyToRecords(call: Call) returns (r: Result<Outcome>)
      requires Clerical(call.command)
      modifies this`reports, this`handoffs, this`artifacts
      ensures Answers(Change(old(Snapshot()), call), r, Snapshot())
    {
      match call.command
      case Bootstrap => r := Ok(Initialized);
      case QuarantineNote(_, textHash) => r := Ok(Quarantined(textHash));
      case Investigate(c) => r := StoreReport(call, c);
      case HandoffReport(c, reportId, reviewerId) => r := HandOff(call, c, reportId, reviewerId);
      case AcceptHandoff(h) => r := AcceptHandoffOf(call, h);
      case PrepareReview(t, d) => r := PrepareReviewOf(call, t, d);
      case ReserveSource(c, _, resource, force) => r := ReserveSourceRead(call, c, resource, force);
      case FinishSource(c, id, fetched) => r := FinishSourceRead(call, c, id, fetched);
    }

    /** The one entry through which a checked command edits the loaded workspace. */
    method Apply(call: Call) returns (r: Result<Outcome>)
      modifies this`baselines, this`baselineHistory, this`cases, this`caseHistory, this`tasks,
               this`decisions, this`reports, this`handoffs, this`lessons, this`artifacts
      ensures Answers(Change(old(Snapshot()), call), r, Snapshot())
    {
      if Raises(call.command) {
        r := ApplyToCases(call);
      } else if Decides(call.command) {
        r := ApplyToTasks(call);
      } else if Clerical(call.command) {
        r := ApplyToRecords(call);
      } else {
        match call.command
        case SetBaseline(scope, limit, expiresAt) => r := SetBaselineIn(call, scope, limit, expiresAt);
        case Resolve(c, h, resolution, evidence) => r := ResolveRiskCase(call, c, h, resolution, evidence);
      }
    }
  }

  lemma InvalidateStep(tasks: map<Id, Task>, done: set<Id>, k: Id, token: Token, reason: TaintReason)
    requires k in tasks && k !in done
    ensures Invalidate(tasks, done, token, reason)[k] == tasks[k]
    ensures Invalidate(tasks, done + {k}, token, reason) ==
      Invalidate(tasks, done, token, reason)[k := tasks[k].(taints := tasks[k].taints[token := reason], status := Suspended)]
  {
  }

  lemma ResolvedTasksStep(w: Workspace, done: set<Id>, k: Id, token: Token, at: Time)
    requires k in w.tasks
    ensures ResolvedTasks(w, done + {k}, token, at) == ResolvedTasks(w, done, token, at)[k := ResolvedTask(w, k, token, at)]
  {
  }

  lemma BlockerTaintsStep(cases: map<Id, RiskCase>, done: set<Id>, b: Id)
    requires done <= cases.Keys && b in cases
    ensures BlockerTaints(cases, done + {b}) == BlockerTaints(cases, done)[CaseToken(b, cases[b].version) := OpenRisk]
  {
    assert BlockerTokens(cases, done + {b}) == BlockerTokens(cases, done) + {CaseToken(b, cases[b].version)};
  }

  lemma RememberFrameIfOk(w: Workspace, desk: Option<Config>, c: Id, sources: set<Id>)
    requires c in w.cases
    ensures Remember(w, desk, c, sources).Ok? ==>
      var noted := Remember(w, desk, c, sources).value; noted == w.(artifacts := noted.artifacts)
  {
  }
}
