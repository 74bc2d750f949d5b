/** Every refusal is true: the code a command is refused with names a condition that holds. */
module RefusalLaws {
  import opened Common
  import opened CaseworkModels
  import opened SourceState
  import opened SourceGuard
  import opened EvidenceDesk
  import opened CasePolicy
  import opened Commands
  import opened Safety
  import opened ArtifactGrowth
  import opened EvidenceLaws
  import opened CommandLaws
  import opened AcquisitionLaws
  import opened ReviewLaws

  // ----- Tasks -----

  // Some parent is out of sight, or belongs to another subject.
  ghost predicate Unseen(w: Workspace, actor: Actor, parents: seq<Id>) {
    exists p :: p in parents && !ShowsTask(w, actor, p)
  }

  ghost predicate Foreign(w: Workspace, subject: Id, parents: seq<Id>) {
    exists p :: p in parents && p in w.tasks && w.tasks[p].intent.scope.subject != subject
  }

  lemma {:induction false} ParentsRefused(w: Workspace, actor: Actor, subject: Id, parents: seq<Id>)
    requires CheckParents(w, actor, subject, parents).Err?
    ensures CheckParents(w, actor, subject, parents).error in {TaskNotFound, CrossSubjectDependency}
    ensures CheckParents(w, actor, subject, parents).error == TaskNotFound ==> Unseen(w, actor, parents)
    ensures CheckParents(w, actor, subject, parents).error == CrossSubjectDependency ==> Foreign(w, subject, parents)
  {
    assert parents[0] in parents;
    if ShowsTask(w, actor, parents[0]) && w.tasks[parents[0]].intent.scope.subject == subject {
      ParentsRefused(w, actor, subject, parents[1..]);
      assert forall p | p in parents[1..] :: p in parents;
    }
  }

  // Why a registration is refused.
  ghost predicate RegistrationRefused(w: Workspace, call: Call, intent: Intent, parents: seq<Id>, e: Error) {
    || (e == TaskCapacityReached && |w.tasks| >= 250)
    || (e == DuplicateDependency && !NoDuplicates(parents))
    || (e == TaskNotFound && Unseen(w, call.actor, parents))
    || (e == CrossSubjectDependency && Foreign(w, intent.scope.subject, parents))
  }

  /** Why a registration is refused. */
  lemma RegisterRefusal(w: Workspace, call: Call, intent: Intent, parents: seq<Id>, e: Error)
    requires WellFounded(w) && call.command == RegisterTask(intent, parents) && call.env.newId !in w.tasks
    requires Change(w, call) == Err(e)
    ensures RegistrationRefused(w, call, intent, parents, e)
  {
    assert RegisterChange(w, call, intent, parents) == Err(e);
    RegisteringRefused(w, call, intent, parents, e);
  }

  lemma RegisteringRefused(w: Workspace, call: Call, intent: Intent, parents: seq<Id>, e: Error)
    requires WellFounded(w) && call.env.newId !in w.tasks && RegisterChange(w, call, intent, parents) == Err(e)
    ensures RegistrationRefused(w, call, intent, parents, e)
  {
    if |w.tasks| < 250 && NoDuplicates(parents) {
      if CheckParents(w, call.actor, intent.scope.subject, parents).Err? {
        ParentsRefused(w, call.actor, intent.scope.subject, parents);
      } else {
        RegisteredDecidable(w, call, intent, parents);
      }
    }
  }

  // Not a READY task with a live, READY decision on the present basis that the policy repeats.
  ghost predicate Unready(w: Workspace, t: Id, d: Id, at: Time)
    requires t in w.tasks && d in w.decisions
  {
    !(w.tasks[t].status == Of(Ready) && w.decisions[d].body.verdict == Ready && ReadyNow(w, t, at)
      && w.decisions[d].body.expiresAt > at && BasisOf(w, t) == Ok(w.decisions[d].body.basis))
  }

  /** Why preparing a review is refused. */
  lemma PrepareRefusal(w: Workspace, call: Call, t: Id, d: Id, e: Error)
    requires WellFounded(w) && PrepareChange(w, call, t, d) == Err(e)
    ensures
      || (e == TaskNotFound && !ShowsTask(w, call.actor, t))
      || (e == DecisionSuperseded && t in w.tasks
          && !(d in w.decisions && w.decisions[d].body.taskId == t && w.tasks[t].current == Some(d)))
      || (e == StaleOrBlockedReview && t in w.tasks && d in w.decisions && w.tasks[t].current == Some(d)
          && Unready(w, t, d, call.env.at))
  {
    if t in w.tasks {
      GraphOkClosure(w.tasks, t);
      PolicyMeaning(w, t, call.env.at, false);
    }
  }

  /** The command is the preparation of its decision's review. */
  lemma PrepareIsChange(w: Workspace, call: Call, t: Id, d: Id)
    requires call.command == PrepareReview(t, d)
    ensures Change(w, call) == PrepareChange(w, call, t, d)
  {
  }

  /** Why a decision is refused: only because its task is out of sight. */
  lemma EvaluateRefusal(w: Workspace, call: Call, t: Id, e: Error)
    requires WellFounded(w) && call.command in {Evaluate(t), Reconsider(t)} && Change(w, call) == Err(e)
    ensures e == TaskNotFound && !ShowsTask(w, call.actor, t)
  {
    EvaluateSays(w, call, t);
    assert EvaluateChange(w, call, t, call.command.Reconsider?) == Err(e);
  }

  // ----- Policies -----

  // The policy of a case was owed and is gone, or is undercut by the present one.
  ghost predicate PolicyRefusal(w: Workspace, call: Call, c: Id, scope: Scope, e: Error) {
    && call.env.desk.Some?
    && var policy := PolicyFor(call.env.desk.value.policies, w.tenantId, scope);
    && (e == SourcePolicyRemoved ==> Obligations(w.artifacts, c).configured && policy.None?)
    && (e == SourcePolicyWeakened ==> policy.Some? && Undercuts(w.artifacts, c, policy.value))
    && (e == SourcePolicyRemoved || e == SourcePolicyWeakened)
  }

  lemma RaiseRefused(w: Workspace, call: Call, riskCase: RiskCase, reason: TaintReason, e: Error)
    requires RaiseCase(w, call, riskCase, reason) == Err(e)
    ensures PolicyRefusal(w, call, riskCase.caseId, riskCase.scope, e)
  {
    EffectiveSays(w.artifacts, riskCase.caseId, PolicyFor(call.env.desk.value.policies, w.tenantId, riskCase.scope));
  }

  /** Why opening a case is refused. */
  lemma OpenRefusal(w: Workspace, call: Call, e: Error)
    requires (call.command.OpenCase? || call.command.IngestIncident?) && Change(w, call) == Err(e)
    ensures (e == CaseCapacityReached && |w.cases| >= 500) || PolicyRefusal(w, call, call.env.newId, call.command.scope, e)
  {
    var command := call.command;
    var reason := if command.OpenCase? then NewRisk else SignedIncident;
    if command.IngestIncident? {
      assert Change(w, call) == IngestChange(w, call, command.sourceId, command.scope, command.kind, command.evidence, command.payload);
    }
    assert OpenChange(w, call, command.scope, command.kind, command.evidence, reason) == Err(e);
    OpeningRefused(w, call, command.scope, command.kind, command.evidence, reason, e);
  }

  lemma OpeningRefused(w: Workspace, call: Call, scope: Scope, kind: RiskKind, evidence: Digest, reason: TaintReason,
                       e: Error)
    requires OpenChange(w, call, scope, kind, evidence, reason) == Err(e)
    ensures (e == CaseCapacityReached && |w.cases| >= 500) || PolicyRefusal(w, call, call.env.newId, scope, e)
  {
    if |w.cases| < 500 {
      RaiseRefused(w, call, NewCase(w, call, scope, kind, evidence), reason, e);
    }
  }

  /** Why reopening is refused. */
  lemma ReopenRefusal(w: Workspace, call: Call, c: Id, evidence: Digest, e: Error)
    requires call.command == ReopenCase(c, evidence) && Change(w, call) == Err(e)
    requires forall k | k in w.cases :: w.cases[k].caseId == k
    ensures
      || (e == CaseNotFound && !Shows(w, call.actor, c))
      || (e == CaseAlreadyOpen && c in w.cases && w.cases[c].status == Open)
      || (c in w.cases && PolicyRefusal(w, call, c, w.cases[c].scope, e))
  {
    assert ReopenChange(w, call, c, evidence) == Err(e);
    if Shows(w, call.actor, c) && w.cases[c].status == Resolved {
      RaiseRefused(w, call, ReopenedCase(w, call, c, evidence), RiskReopened, e);
    }
  }

  // ----- Evidence -----

  // Two current heads of one source, or receipts that disagree.
  ghost predicate Disagrees(w: Workspace, desk: Config, c: Id, at: Time)
    requires c in w.cases
  {
    EvidenceHeads(w, c).Err? || (ContextOf(w, desk, c, at).Ok? && !Agree(ContextOf(w, desk, c, at).value.receipts))
  }

  // Why the evidence of a case, or what a report or a resolution says of it, does not pass.
  ghost predicate EvidenceRefusal(w: Workspace, call: Call, c: Id, quoted: seq<TraceEvent>, e: Error)
    requires c in w.cases
  {
    if call.env.desk.None? then e == SourceGuardUnavailable && (!OwesNothing(w, c) || quoted != [])
    else
      var desk, at := call.env.desk.value, call.env.at;
      || (e == SourceConflict && Disagrees(w, desk, c, at))
      || (e == SourceCoverageRequired && ContextOf(w, desk, c, at).Ok? && !ContextOf(w, desk, c, at).value.complete)
      || (e == SourceReportStale && ContextOf(w, desk, c, at).Ok? && quoted != [EvidenceInspect(ContextOf(w, desk, c, at).value)])
      || PolicyRefusal(w, call, c, w.cases[c].scope, e)
  }

  lemma ContextRefused(w: Workspace, call: Call, c: Id, e: Error)
    requires c in w.cases && call.env.desk.Some? && ContextOf(w, call.env.desk.value, c, call.env.at) == Err(e)
    ensures (e == SourceConflict && EvidenceHeads(w, c).Err?) || PolicyRefusal(w, call, c, w.cases[c].scope, e)
  {
    EffectiveSays(w.artifacts, c, PolicyFor(call.env.desk.value.policies, w.tenantId, w.cases[c].scope));
  }

  lemma ConflictsDisagree(w: Workspace, desk: Config, c: Id, at: Time)
    requires c in w.cases && ContextOf(w, desk, c, at).Ok? && ContextOf(w, desk, c, at).value.conflicts != {}
    ensures Disagrees(w, desk, c, at)
  {
    NoConflictsIffAgree(ContextOf(w, desk, c, at).value.receipts);
  }

  // How the check of a report can fail, in terms of the context.
  lemma ReportFails(w: Workspace, desk: Config, c: Id, report: ReportBody, at: Time, e: Error)
    requires c in w.cases && ValidateReport(w, desk, c, report, at) == Err(e)
    ensures var context := ContextOf(w, desk, c, at);
      || context == Err(e)
      || (context.Ok? && e == SourceReportStale && EvidenceEvents(report.trace) != [EvidenceInspect(context.value)])
      || (context.Ok? && e == SourceConflict && context.value.conflicts != {})
      || (context.Ok? && e == SourceCoverageRequired && !context.value.complete)
  {
  }

  lemma ReportRefused(w: Workspace, call: Call, c: Id, report: ReportBody, e: Error)
    requires c in w.cases && call.env.desk.Some? && ValidateReport(w, call.env.desk.value, c, report, call.env.at) == Err(e)
    ensures EvidenceRefusal(w, call, c, EvidenceEvents(report.trace), e)
  {
    var desk, at := call.env.desk.value, call.env.at;
    ReportFails(w, desk, c, report, at, e);
    ContextFails(w, call, c, EvidenceEvents(report.trace), e);
  }

  lemma ContextFails(w: Workspace, call: Call, c: Id, quoted: seq<TraceEvent>, e: Error)
    requires c in w.cases && call.env.desk.Some?
    requires var context := ContextOf(w, call.env.desk.value, c, call.env.at);
      || context == Err(e)
      || (context.Ok? && e == SourceReportStale && quoted != [EvidenceInspect(context.value)])
      || (context.Ok? && e == SourceConflict && context.value.conflicts != {})
      || (context.Ok? && e == SourceCoverageRequired && !context.value.complete)
    ensures EvidenceRefusal(w, call, c, quoted, e)
  {
    if ContextOf(w, call.env.desk.value, c, call.env.at).Err? {
      ContextRefused(w, call, c, e);
    } else if e == SourceConflict {
      ConflictsDisagree(w, call.env.desk.value, c, call.env.at);
    }
  }

  /** Why committing an investigation is refused. */
  lemma InvestigateRefusal(w: Workspace, call: Call, c: Id, e: Error)
    requires call.command == Investigate(c) && Change(w, call) == Err(e)
    ensures
      || (e == StaleInvestigation && (!call.carried.Draft? || c !in w.cases || call.carried.report.caseId != c))
      || (e == SourceGuardUnavailable && call.carried.Draft? && call.carried.external.Some? && call.env.desk.None?)
      || (call.carried.Draft? && call.carried.external.Some? && c in w.cases
          && EvidenceRefusal(w, call, c, EvidenceEvents(call.carried.report.trace), e))
  {
    assert InvestigateChange(w, call, c) == Err(e);
    if call.carried.Draft? && c in w.cases && call.carried.report.caseId == c && call.env.desk.Some? {
      ReportRefused(w, call, c, call.carried.report, e);
    }
  }

  /** Why a draft is refused. */
  lemma DraftRefusal(w: Workspace, actor: Actor, c: Id, env: Env, withPrecedents: bool, call: Call, e: Error)
    requires c in w.cases && WellFounded(w) && call.env == env && DraftReport(w, actor, c, env, withPrecedents) == Err(e)
    ensures
      || (e == CaseNotOpen && w.cases[c].status == Resolved)
      || (e == SourceConflict && EvidenceHeads(w, c).Err?)
      || EvidenceRefusal(w, call, c, [], e)
  {
    if w.cases[c].status == Open && RequireDesk(w.artifacts, c, env.desk, false).Ok? {
      if InvestigationBasisOf(w, c).Ok? {
        ExternalRefused(w, call, c, e);
      } else {
        BasisRefused(w, c, e);
      }
    }
  }

  lemma ExternalFails(w: Workspace, c: Id, env: Env, e: Error)
    requires c in w.cases && ExternalFor(w, c, env) == Err(e)
    ensures env.desk.Some?
    ensures var context := ContextOf(w, env.desk.value, c, env.at);
      || context == Err(e)
      || (context.Ok? && e == SourceConflict && context.value.conflicts != {})
      || (context.Ok? && e == SourceCoverageRequired && !context.value.complete)
  {
  }

  lemma ExternalRefused(w: Workspace, call: Call, c: Id, e: Error)
    requires c in w.cases && ExternalFor(w, c, call.env) == Err(e)
    ensures EvidenceRefusal(w, call, c, [], e)
  {
    ExternalFails(w, c, call.env, e);
    ContextFails(w, call, c, [], e);
  }

  lemma BasisRefused(w: Workspace, c: Id, e: Error)
    requires c in w.cases && WellFounded(w) && InvestigationBasisOf(w, c) == Err(e)
    ensures e == SourceConflict && EvidenceHeads(w, c).Err?
  {
    BasesExist(w, w.cases[c].scope);
  }

  // ----- Reports, handoffs and resolutions -----

  // Why a report cannot be used.
  ghost predicate UnusableFor(w: Workspace, call: Call, c: Id, r: Id, e: Error)
    requires c in w.cases
  {
    || (e == ReportNotFound && (r !in w.reports || w.reports[r].body.caseId != c))
    || (e == StaleInvestigation && r in w.reports
        && (w.reports[r].body.caseVersion != w.cases[c].version || w.cases[c].status != Open
            || InvestigationBasisOf(w, c) != Ok(w.reports[r].body.basis)))
    || (e == SourceConflict && EvidenceHeads(w, c).Err?)
    || (r in w.reports && EvidenceRefusal(w, call, c, EvidenceEvents(w.reports[r].body.trace), e))
  }

  // How a report can fail, by the first check it does not pass.
  lemma ReportChecks(w: Workspace, desk: Option<Config>, c: Id, r: Id, at: Time, e: Error)
    requires c in w.cases && ValidReport(w, desk, c, r, at) == Err(e)
    ensures
      || (e == ReportNotFound && (r !in w.reports || w.reports[r].body.caseId != c))
      || (e == StaleInvestigation && r in w.reports
          && (w.reports[r].body.caseVersion != w.cases[c].version || w.cases[c].status != Open
              || InvestigationBasisOf(w, c) != Ok(w.reports[r].body.basis)))
      || InvestigationBasisOf(w, c) == Err(e)
      || (r in w.reports && desk.None? && e == SourceGuardUnavailable
          && (!OwesNothing(w, c) || EvidenceEvents(w.reports[r].body.trace) != []))
      || (r in w.reports && desk.Some? && ValidateReport(w, desk.value, c, w.reports[r].body, at) == Err(e))
  {
  }

  lemma ReportUnusable(w: Workspace, call: Call, c: Id, r: Id, e: Error)
    requires c in w.cases && WellFounded(w) && ValidReport(w, call.env.desk, c, r, call.env.at) == Err(e)
    ensures UnusableFor(w, call, c, r, e)
  {
    ReportChecks(w, call.env.desk, c, r, call.env.at, e);
    if InvestigationBasisOf(w, c) == Err(e) {
      BasisRefused(w, c, e);
    } else if r in w.reports && call.env.desk.Some?
              && ValidateReport(w, call.env.desk.value, c, w.reports[r].body, call.env.at) == Err(e) {
      ReportRefused(w, call, c, w.reports[r].body, e);
    }
  }

  lemma HandoffFails(w: Workspace, call: Call, c: Id, r: Id, reviewerId: Id, e: Error)
    requires HandoffChange(w, call, c, r, reviewerId) == Err(e)
    ensures
      || (e == CaseNotFound && !Shows(w, call.actor, c))
      || (c in w.cases && ValidReport(w, call.env.desk, c, r, call.env.at) == Err(e))
      || (c in w.cases && e == IndependentReviewerRequired && !MayReview(w, call, c, reviewerId))
      || (c in w.cases && e == ReportOwnerMismatch && r in w.reports && w.reports[r].body.investigatorId != call.actor.actorId)
  {
  }

  /** Why a handoff is refused. */
  lemma HandoffRefusal(w: Workspace, call: Call, c: Id, r: Id, reviewerId: Id, e: Error)
    requires WellFounded(w) && HandoffChange(w, call, c, r, reviewerId) == Err(e)
    ensures
      || (e == CaseNotFound && !Shows(w, call.actor, c))
      || (c in w.cases && UnusableFor(w, call, c, r, e))
      || (e == IndependentReviewerRequired && c in w.cases && !MayReview(w, call, c, reviewerId))
      || (e == ReportOwnerMismatch && r in w.reports && w.reports[r].body.investigatorId != call.actor.actorId)
  {
    HandoffFails(w, call, c, r, reviewerId, e);
    if c in w.cases && ValidReport(w, call.env.desk, c, r, call.env.at) == Err(e) {
      ReportUnusable(w, call, c, r, e);
    }
  }

  lemma AcceptFails(w: Workspace, call: Call, h: Id, e: Error)
    requires AcceptChange(w, call, h) == Err(e)
    ensures
      || (e == HandoffNotFound && (h !in w.handoffs || w.handoffs[h].reviewerId != call.actor.actorId))
      || (h in w.handoffs && e == CaseNotFound && !Shows(w, call.actor, w.handoffs[h].caseId))
      || (h in w.handoffs && w.handoffs[h].caseId in w.cases
          && ValidReport(w, call.env.desk, w.handoffs[h].caseId, w.handoffs[h].reportId, call.env.at) == Err(e))
      || (h in w.handoffs && w.handoffs[h].caseId in w.cases && e == StaleHandoff
          && w.handoffs[h].caseVersion != w.cases[w.handoffs[h].caseId].version)
  {
  }

  /** Why accepting a handoff is refused. */
  lemma AcceptRefusal(w: Workspace, call: Call, h: Id, e: Error)
    requires WellFounded(w) && AcceptChange(w, call, h) == Err(e)
    ensures
      || (e == HandoffNotFound && (h !in w.handoffs || w.handoffs[h].reviewerId != call.actor.actorId))
      || (e == CaseNotFound && h in w.handoffs && !Shows(w, call.actor, w.handoffs[h].caseId))
      || (e == StaleHandoff && h in w.handoffs && w.handoffs[h].caseId in w.cases
          && w.handoffs[h].caseVersion != w.cases[w.handoffs[h].caseId].version)
      || (h in w.handoffs && w.handoffs[h].caseId in w.cases
          && UnusableFor(w, call, w.handoffs[h].caseId, w.handoffs[h].reportId, e))
  {
    AcceptFails(w, call, h, e);
    if h in w.handoffs && w.handoffs[h].caseId in w.cases
       && ValidReport(w, call.env.desk, w.handoffs[h].caseId, w.handoffs[h].reportId, call.env.at) == Err(e) {
      ReportUnusable(w, call, w.handoffs[h].caseId, w.handoffs[h].reportId, e);
    }
  }

  // How the gate of a resolution can fail, in terms of the context.
  lemma GateFails(w: Workspace, desk: Config, c: Id, evidence: Digest, at: Time, e: Error)
    requires c in w.cases && ResolutionGate(w, desk, c, evidence, at) == Err(e)
    ensures var context := ContextOf(w, desk, c, at);
      || context == Err(e)
      || (context.Ok? && e == SourceConflict && context.value.conflicts != {})
      || (context.Ok? && e == CurrentEvidenceBundleRequired && (!context.value.complete || evidence != BundleRoot(context.value)))
  {
  }

  // The evidence is incomplete, or another bundle was named.
  ghost predicate BundleRefused(w: Workspace, call: Call, c: Id, evidence: Digest)
    requires c in w.cases
  {
    && call.env.desk.Some? && ContextOf(w, call.env.desk.value, c, call.env.at).Ok?
    && var x := ContextOf(w, call.env.desk.value, c, call.env.at).value;
    !x.complete || evidence != BundleRoot(x)
  }

  lemma GateRefused(w: Workspace, call: Call, c: Id, evidence: Digest, e: Error)
    requires c in w.cases && call.env.desk.Some?
    requires ResolutionGate(w, call.env.desk.value, c, evidence, call.env.at) == Err(e)
    ensures (e == CurrentEvidenceBundleRequired && BundleRefused(w, call, c, evidence)) || EvidenceRefusal(w, call, c, [], e)
  {
    GateFails(w, call.env.desk.value, c, evidence, call.env.at, e);
    if e != CurrentEvidenceBundleRequired || ContextOf(w, call.env.desk.value, c, call.env.at) == Err(e) {
      ContextFails(w, call, c, [], e);
    }
  }

  lemma ResolveFails(w: Workspace, call: Call, c: Id, h: Id, resolution: Resolution, evidence: Digest, e: Error)
    requires ResolveChange(w, call, c, h, resolution, evidence) == Err(e)
    ensures
      || (e == CaseNotFound && !Shows(w, call.actor, c))
      || (e == AcknowledgedReviewRequired && c in w.cases && !AcknowledgedReview(w, call, c, h))
      || (c in w.cases && h in w.handoffs && ValidReport(w, call.env.desk, c, w.handoffs[h].reportId, call.env.at) == Err(e))
      || (e == StaleHandoff && c in w.cases && h in w.handoffs && w.handoffs[h].caseVersion != w.cases[c].version)
      || (c in w.cases && call.env.desk.Some? && ResolutionGate(w, call.env.desk.value, c, evidence, call.env.at) == Err(e))
      || (c in w.cases && exists report :: CompleteResolution(w, call, c, h, report, resolution, evidence) == Err(e))
  {
  }

  lemma CompletionFails(w: Workspace, call: Call, c: Id, h: Id, report: Report, resolution: Resolution,
                        evidence: Digest, e: Error)
    requires c in w.cases && CompleteResolution(w, call, c, h, report, resolution, evidence) == Err(e)
    ensures NotedResolution(w, call, c, h, report, resolution, evidence) == Err(e)
  {
  }

  lemma NotingRefused(w: Workspace, desk: Option<Config>, c: Id, e: Error)
    requires c in w.cases && Remember(w, desk, c, {}) == Err(e)
    ensures desk.Some? && EffectivePolicy(w.artifacts, c, PolicyFor(desk.value.policies, w.tenantId, w.cases[c].scope)) == Err(e)
  {
  }

  lemma NotedFails(w: Workspace, call: Call, c: Id, h: Id, report: Report, resolution: Resolution, evidence: Digest,
                   e: Error)
    requires c in w.cases && w.cases[c].caseId == c
    requires NotedResolution(w, call, c, h, report, resolution, evidence) == Err(e)
    ensures call.env.desk.Some?
    ensures EffectivePolicy(WithLink(w, call, ResolvedCase(w, call, c, resolution), report, h, evidence).artifacts, c,
                            PolicyFor(call.env.desk.value.policies, w.tenantId, w.cases[c].scope)) == Err(e)
  {
    var resolved := ResolvedCase(w, call, c, resolution);
    var linked := WithLink(w, call, resolved, report, h, evidence);
    LinkedCase(w, linked, resolved);
    NotingRefused(WithCase(linked, resolved), call.env.desk, c, e);
  }

  lemma CompletionRefused(w: Workspace, call: Call, c: Id, h: Id, report: Report, resolution: Resolution,
                          evidence: Digest, e: Error)
    requires c in w.cases && w.cases[c].caseId == c && Keyed(w.artifacts)
    requires NotedResolution(w, call, c, h, report, resolution, evidence) == Err(e)
    ensures PolicyRefusal(w, call, c, w.cases[c].scope, e)
  {
    NotedFails(w, call, c, h, report, resolution, evidence, e);
    var policy := PolicyFor(call.env.desk.value.policies, w.tenantId, w.cases[c].scope);
    LinkedFloor(w, call, ResolvedCase(w, call, c, resolution), report, h, evidence, policy);
    EffectiveSays(w.artifacts, c, policy);
  }

  // Not an accepted, independent review of the case by this actor.
  ghost predicate Unreviewed(w: Workspace, call: Call, c: Id, h: Id)
    requires c in w.cases
  {
    || h !in w.handoffs || !w.handoffs[h].accepted || w.handoffs[h].caseId != c
    || w.handoffs[h].reviewerId != call.actor.actorId
    || call.actor.actorId == w.cases[c].openedBy || call.actor.actorId == w.handoffs[h].investigatorId
  }

  // Why a resolution is refused once the case is visible.
  ghost predicate ResolutionRefused(w: Workspace, call: Call, c: Id, h: Id, evidence: Digest, e: Error)
    requires c in w.cases
  {
    || (e == AcknowledgedReviewRequired && Unreviewed(w, call, c, h))
    || (e == StaleHandoff && h in w.handoffs && w.handoffs[h].caseVersion != w.cases[c].version)
    || (e == CurrentEvidenceBundleRequired && BundleRefused(w, call, c, evidence))
    || (h in w.handoffs && UnusableFor(w, call, c, w.handoffs[h].reportId, e))
    || EvidenceRefusal(w, call, c, [], e)
  }

  lemma PolicyRefuses(w: Workspace, call: Call, c: Id, h: Id, evidence: Digest, e: Error)
    requires c in w.cases && PolicyRefusal(w, call, c, w.cases[c].scope, e)
    ensures ResolutionRefused(w, call, c, h, evidence, e)
  {
  }

  /** Why a resolution is refused. */
  lemma ResolveRefusal(w: Workspace, call: Call, c: Id, h: Id, resolution: Resolution, evidence: Digest, e: Error)
    requires WellFounded(w) && Keyed(w.artifacts) && (forall k | k in w.cases :: w.cases[k].caseId == k)
    requires ResolveChange(w, call, c, h, resolution, evidence) == Err(e)
    ensures (e == CaseNotFound && !Shows(w, call.actor, c)) || (c in w.cases && ResolutionRefused(w, call, c, h, evidence, e))
  {
    ResolveFails(w, call, c, h, resolution, evidence, e);
    if c in w.cases && h in w.handoffs && ValidReport(w, call.env.desk, c, w.handoffs[h].reportId, call.env.at) == Err(e) {
      ReportUnusable(w, call, c, w.handoffs[h].reportId, e);
    } else if c in w.cases && call.env.desk.Some? && ResolutionGate(w, call.env.desk.value, c, evidence, call.env.at) == Err(e) {
      GateRefused(w, call, c, evidence, e);
    } else if c in w.cases && exists report :: CompleteResolution(w, call, c, h, report, resolution, evidence) == Err(e) {
      var report :| CompleteResolution(w, call, c, h, report, resolution, evidence) == Err(e);
      CompletionFails(w, call, c, h, report, resolution, evidence, e);
      CompletionRefused(w, call, c, h, report, resolution, evidence, e);
      PolicyRefuses(w, call, c, h, evidence, e);
    }
  }

  /** The command is the resolution of its case through its handoff. */
  lemma ResolveIsChange(w: Workspace, call: Call, c: Id, h: Id, resolution: Resolution, evidence: Digest)
    requires call.command == Resolve(c, h, resolution, evidence)
    ensures Change(w, call) == ResolveChange(w, call, c, h, resolution, evidence)
  {
  }

  // ----- Reads -----

  // The check at which a reservation fails.
  ghost predicate ReserveFault(w: Workspace, call: Call, c: Id, resource: Resource, force: bool, e: Error) {
    || (e == CaseNotFound && !Shows(w, call.actor, c))
    || (e == SourceNotAllowed && (!call.carried.Reservation? || call.env.desk.None?))
    || (e == SourceCaseChanged && c in w.cases && call.carried.Reservation?
        && (w.cases[c].status != Open || w.cases[c].version != call.carried.caseVersion))
    || (c in w.cases && call.carried.Reservation? && Remember(w, call.env.desk, c, {call.carried.spec.sourceId}) == Err(e))
    || (c in w.cases && call.carried.Reservation? && call.env.desk.Some?
        && Remember(w, call.env.desk, c, {call.carried.spec.sourceId}).Ok?
        && Reserve(Remember(w, call.env.desk, c, {call.carried.spec.sourceId}).value, call, c, resource, force) == Err(e))
  }

  lemma ReserveFails(w: Workspace, call: Call, c: Id, resource: Resource, force: bool, e: Error)
    requires ReserveChange(w, call, c, resource, force) == Err(e)
    ensures ReserveFault(w, call, c, resource, force, e)
  {
  }

  lemma ReserveInFails(w: Workspace, noted: Workspace, call: Call, c: Id, resource: Resource, force: bool, e: Error)
    requires c in w.cases && call.carried.Reservation? && call.env.desk.Some? && noted == w.(artifacts := noted.artifacts)
    requires CurrentReceipts(noted, c, call.env.at, call.env.desk.value.specs) == CurrentReceipts(w, c, call.env.at, call.env.desk.value.specs)
    requires Reserve(noted, call, c, resource, force) == Err(e)
    ensures e == SourceReadBudgetExhausted || (e == SourceConflict && EvidenceHeads(w, c).Err?)
  {
  }

  lemma PolicyRefused(w: Workspace, call: Call, c: Id, sources: set<Id>, e: Error)
    requires c in w.cases && Remember(w, call.env.desk, c, sources) == Err(e)
    ensures PolicyRefusal(w, call, c, w.cases[c].scope, e)
  {
    EffectiveSays(w.artifacts, c, PolicyFor(call.env.desk.value.policies, w.tenantId, w.cases[c].scope));
  }

  lemma ReservationCodes(w: Workspace, call: Call, c: Id, resource: Resource, force: bool, e: Error)
    requires Keyed(w.artifacts) && c in w.cases && call.carried.Reservation? && call.env.desk.Some?
    requires Remember(w, call.env.desk, c, {call.carried.spec.sourceId}).Ok?
    requires Reserve(Remember(w, call.env.desk, c, {call.carried.spec.sourceId}).value, call, c, resource, force) == Err(e)
    ensures e == SourceReadBudgetExhausted || (e == SourceConflict && EvidenceHeads(w, c).Err?)
  {
    var source := call.carried.spec.sourceId;
    NotedEvidence(w, call, c, source);
    ReserveInFails(w, Remember(w, call.env.desk, c, {source}).value, call, c, resource, force, e);
  }

  // Why a reservation is refused, but for its budget.
  ghost predicate ReservationRefused(w: Workspace, call: Call, c: Id, e: Error) {
    || (e == CaseNotFound && !Shows(w, call.actor, c))
    || (e == SourceNotAllowed && (!call.carried.Reservation? || call.env.desk.None?))
    || (e == SourceCaseChanged && c in w.cases && call.carried.Reservation?
        && (w.cases[c].status != Open || w.cases[c].version != call.carried.caseVersion))
    || (e == SourceConflict && c in w.cases && EvidenceHeads(w, c).Err?)
    || (c in w.cases && PolicyRefusal(w, call, c, w.cases[c].scope, e))
  }

  lemma PolicyRefusesRead(w: Workspace, call: Call, c: Id, sources: set<Id>, e: Error)
    requires c in w.cases && Remember(w, call.env.desk, c, sources) == Err(e)
    ensures ReservationRefused(w, call, c, e)
  {
    PolicyRefused(w, call, c, sources, e);
  }

  lemma FaultRefuses(w: Workspace, call: Call, c: Id, resource: Resource, force: bool, e: Error)
    requires Keyed(w.artifacts) && ReserveFault(w, call, c, resource, force, e) && e != SourceReadBudgetExhausted
    ensures ReservationRefused(w, call, c, e)
  {
    if c in w.cases && call.carried.Reservation? {
      var noted := Remember(w, call.env.desk, c, {call.carried.spec.sourceId});
      if noted == Err(e) {
        PolicyRefusesRead(w, call, c, {call.carried.spec.sourceId}, e);
      } else if call.env.desk.Some? && noted.Ok? && Reserve(noted.value, call, c, resource, force) == Err(e) {
        ReservationCodes(w, call, c, resource, force, e);
      }
    }
  }

  /** Why a reservation is refused, but for its budget, which `ReserveIff` settles. */
  lemma ReserveRefusal(w: Workspace, call: Call, c: Id, resource: Resource, force: bool, e: Error)
    requires Keyed(w.artifacts) && ReserveChange(w, call, c, resource, force) == Err(e) && e != SourceReadBudgetExhausted
    ensures ReservationRefused(w, call, c, e)
  {
    ReserveFails(w, call, c, resource, force, e);
    FaultRefuses(w, call, c, resource, force, e);
  }

  /** Why completing a read is refused. */
  lemma FinishRefusal(w: Workspace, call: Call, c: Id, id: RequestId, fetched: FetchResult, e: Error)
    requires call.command == FinishSource(c, id, fetched) && Change(w, call) == Err(e)
    ensures
      || (e == SourceRequestNotPending && (!call.carried.Fetch? || forall r :: !Awaits(w, id, r)))
      || (e == CaseNotFound && !Shows(w, call.actor, c))
  {
    FinishIsChange(w, call, c, id, fetched);
    if IsPending(w, id) {
      assert Awaits(w, id, w.artifacts[RequestKey(id)].request);
    }
  }
}
