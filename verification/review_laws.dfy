/** What investigations, handoffs and resolutions ask for and do, field by field. */
module ReviewLaws {
  import opened Common
  import opened CaseworkModels
  import opened SourceGuard
  import opened EvidenceDesk
  import opened CasePolicy
  import opened Commands
  import opened Safety
  import opened ArtifactGrowth
  import opened ReportRuns
  import opened EvidenceLaws
  import opened PolicyLaws
  import opened CommandLaws

  // ----- Investigations -----

  // The case owes its sources nothing.
  ghost predicate OwesNothing(w: Workspace, c: Id) {
    Obligations(w.artifacts, c).required == {} && !Obligations(w.artifacts, c).configured
  }

  // The evidence is complete now, if sources are needed at all.
  ghost predicate EvidenceReady(w: Workspace, desk: Config, c: Id, at: Time)
    requires c in w.cases
  {
    Sourced(w, desk, c) ==> ContextOf(w, desk, c, at).Ok? && ContextOf(w, desk, c, at).value.complete
  }

  lemma DeskIff(w: Workspace, c: Id, desk: Option<Config>)
    ensures RequireDesk(w.artifacts, c, desk, false).Ok? <==> (desk.None? ==> OwesNothing(w, c))
  {
  }

  lemma ExternalIff(w: Workspace, c: Id, env: Env)
    requires c in w.cases
    ensures ExternalFor(w, c, env).Ok? <==> (env.desk.Some? ==> EvidenceReady(w, env.desk.value, c, env.at))
  {
    if env.desk.Some? {
      SourcedIffNeeded(w, env.desk.value, c);
    }
  }

  lemma DraftNeeds(w: Workspace, actor: Actor, c: Id, env: Env, withPrecedents: bool)
    requires c in w.cases
    ensures DraftReport(w, actor, c, env, withPrecedents).Ok? <==>
      && w.cases[c].status == Open && RequireDesk(w.artifacts, c, env.desk, false).Ok?
      && InvestigationBasisOf(w, c).Ok? && ExternalFor(w, c, env).Ok?
  {
  }

  /**
   An investigation is drafted exactly of an open case whose basis can be taken and whose evidence is complete, if any
   is needed.
   */
  lemma DraftIff(w: Workspace, actor: Actor, c: Id, env: Env, withPrecedents: bool)
    requires c in w.cases
    ensures DraftReport(w, actor, c, env, withPrecedents).Ok? <==>
      && w.cases[c].status == Open && InvestigationBasisOf(w, c).Ok?
      && (env.desk.None? ==> OwesNothing(w, c))
      && (env.desk.Some? ==> EvidenceReady(w, env.desk.value, c, env.at))
  {
    DeskIff(w, c, env.desk);
    ExternalIff(w, c, env);
    DraftNeeds(w, actor, c, env, withPrecedents);
  }

  // A case that is open somewhere below the scope of case c.
  ghost predicate OpenBelow(w: Workspace, c: Id, x: Id)
    requires c in w.cases
  {
    && x in w.cases && w.cases[x].status == Open
    && exists t :: DependsOn(w.tasks, t, w.cases[c].scope) && DependsOn(w.tasks, t, w.cases[x].scope)
  }

  lemma AffectedScopesAre(w: Workspace, c: Id, scope: Scope)
    requires WellFounded(w) && c in w.cases
    ensures scope in AffectedScopes(w, w.cases[c].scope) <==>
      exists t :: DependsOn(w.tasks, t, w.cases[c].scope) && DependsOn(w.tasks, t, scope)
  {
    forall t
      ensures t in Affected(w.tasks, w.cases[c].scope) <==> DependsOn(w.tasks, t, w.cases[c].scope)
    {
      AffectedDepends(w.tasks, w.cases[c].scope, t);
    }
    if t :| DependsOn(w.tasks, t, w.cases[c].scope) && DependsOn(w.tasks, t, scope) {
      var a :| a in ClosureOf(w.tasks, t).value && w.tasks[a].intent.scope == scope;
      assert t in Affected(w.tasks, w.cases[c].scope);
    }
  }

  // The report names the case as it is, its investigator, what it rests on, and what the investigation found.
  ghost predicate ReportsOn(w: Workspace, actor: Actor, c: Id, id: Id, withPrecedents: bool, body: ReportBody)
    requires c in w.cases
  {
    && body.reportId == id && body.caseId == c && body.caseVersion == w.cases[c].version
    && body.investigatorId == actor.actorId && Ok(body.basis) == InvestigationBasisOf(w, c)
    && (forall x :: x in body.caseRefs <==> OpenBelow(w, c, x) || (x == c && !exists y :: OpenBelow(w, c, y)))
    && (forall t :: t in body.affected <==> DependsOn(w.tasks, t, w.cases[c].scope))
    && (forall k :: k in body.precedents <==> withPrecedents && k in w.lessons && Teaches(w, w.lessons[k], c))
  }

  lemma RefsSay(w: Workspace, c: Id, x: Id)
    requires WellFounded(w) && c in w.cases
    ensures x in Blockers(w.cases, AffectedScopes(w, w.cases[c].scope)) <==> OpenBelow(w, c, x)
  {
    if x in w.cases {
      AffectedScopesAre(w, c, w.cases[x].scope);
    }
  }

  /** What a draft says: exactly what was read, with the evidence it was read from. */
  lemma DraftSays(w: Workspace, actor: Actor, c: Id, env: Env, withPrecedents: bool)
    requires WellFounded(w) && c in w.cases && DraftReport(w, actor, c, env, withPrecedents).Ok?
    ensures var draft := DraftReport(w, actor, c, env, withPrecedents).value;
      && draft.Draft? && ReportsOn(w, actor, c, env.newId, withPrecedents, draft.report)
      && (draft.external.Some? <==> env.desk.Some? && Sourced(w, env.desk.value, c))
      && (draft.external.Some? ==> Ok(draft.external.value) == ContextOf(w, env.desk.value, c, env.at))
      && draft.report.trace ==
           [CaseInspect(draft.report.caseRefs), DependenciesTrace(draft.report.affected)]
           + (if draft.external.Some? then [EvidenceInspect(draft.external.value)] else [])
           + (if withPrecedents then [PrecedentLookup(draft.report.precedents)] else [])
  {
    var draft := DraftReport(w, actor, c, env, withPrecedents).value;
    if env.desk.Some? {
      SourcedIffNeeded(w, env.desk.value, c);
    }
    BodySays(w, actor, c, env.newId, draft.report.basis, draft.external, withPrecedents);
  }

  lemma DraftRefsSay(w: Workspace, c: Id, x: Id)
    requires WellFounded(w) && c in w.cases
    ensures x in CaseRefsOf(w, c) <==> OpenBelow(w, c, x) || (x == c && !exists y :: OpenBelow(w, c, y))
  {
    var related := Blockers(w.cases, AffectedScopes(w, w.cases[c].scope));
    RefsSay(w, c, x);
    if y :| y in related {
      RefsSay(w, c, y);
    }
    if y :| OpenBelow(w, c, y) {
      RefsSay(w, c, y);
    }
  }

  lemma PrecedentsSay(w: Workspace, c: Id, k: Id)
    requires c in w.cases
    ensures k in ActivePrecedents(w, c) <==> k in w.lessons && Teaches(w, w.lessons[k], c)
  {
  }

  lemma BodySays(w: Workspace, actor: Actor, c: Id, id: Id, basis: InvestigationBasis, external: Option<Context>,
                 withPrecedents: bool)
    requires WellFounded(w) && c in w.cases && InvestigationBasisOf(w, c) == Ok(basis)
    ensures ReportsOn(w, actor, c, id, withPrecedents, BodyFor(w, actor, c, id, basis, external, withPrecedents))
  {
    forall x
      ensures x in CaseRefsOf(w, c) <==> OpenBelow(w, c, x) || (x == c && !exists y :: OpenBelow(w, c, y))
      ensures x in Affected(w.tasks, w.cases[c].scope) <==> DependsOn(w.tasks, x, w.cases[c].scope)
      ensures x in ActivePrecedents(w, c) <==> x in w.lessons && Teaches(w, w.lessons[x], c)
    {
      DraftRefsSay(w, c, x);
      AffectedDepends(w.tasks, w.cases[c].scope, x);
      PrecedentsSay(w, c, x);
    }
    BodyIs(w, actor, c, id, basis, external, withPrecedents);
  }

  lemma BodyIs(w: Workspace, actor: Actor, c: Id, id: Id, basis: InvestigationBasis, external: Option<Context>,
               withPrecedents: bool)
    requires c in w.cases
    ensures var body := BodyFor(w, actor, c, id, basis, external, withPrecedents);
      && body.reportId == id && body.caseId == c && body.caseVersion == w.cases[c].version
      && body.investigatorId == actor.actorId && body.basis == basis
      && body.caseRefs == CaseRefsOf(w, c) && body.affected == Affected(w.tasks, w.cases[c].scope)
      && body.precedents == if withPrecedents then ActivePrecedents(w, c) else {}
  {
  }

  /** A drafted report is stored exactly if it is about its case and quotes nothing, or the evidence that is still present. */
  lemma InvestigateSays(w: Workspace, call: Call, c: Id)
    requires call.command == Investigate(c)
    ensures Change(w, call).Ok? <==>
      && call.carried.Draft? && c in w.cases && call.carried.report.caseId == c
      && (call.carried.external.Some? ==>
            call.env.desk.Some? && ValidateReport(w, call.env.desk.value, c, call.carried.report, call.env.at).Ok?)
    ensures Change(w, call).Ok? ==>
      var s, body := Change(w, call).value.state, call.carried.report;
      && s == w.(reports := w.reports[body.reportId := Report(body, body)], artifacts := s.artifacts)
      && s.artifacts ==
           if call.carried.external.None? then w.artifacts
           else w.artifacts[BundleKey(body.reportId) := BundleArtifact(body.reportId, c, body, call.carried.external.value)]
  {
    assert Change(w, call) == InvestigateChange(w, call, c);
  }

  // ----- Reports -----

  // The report is about the open case as it is now, on its present basis, and its evidence is still what it quotes.
  ghost predicate Usable(w: Workspace, desk: Option<Config>, c: Id, r: Id, at: Time)
    requires c in w.cases
  {
    && r in w.reports && w.cases[c].status == Open
    && var body := w.reports[r].body;
    && body.caseId == c && body.caseVersion == w.cases[c].version && InvestigationBasisOf(w, c) == Ok(body.basis)
    && (desk.None? ==> OwesNothing(w, c) && EvidenceEvents(body.trace) == [])
    && (desk.Some? && Sourced(w, desk.value, c) ==>
          && ContextOf(w, desk.value, c, at).Ok? && ContextOf(w, desk.value, c, at).value.complete
          && EvidenceEvents(body.trace) == [EvidenceInspect(ContextOf(w, desk.value, c, at).value)])
  }

  lemma ValidIffUsable(w: Workspace, desk: Option<Config>, c: Id, r: Id, at: Time)
    requires c in w.cases
    ensures ValidReport(w, desk, c, r, at).Ok? <==> Usable(w, desk, c, r, at)
    ensures ValidReport(w, desk, c, r, at).Ok? ==> ValidReport(w, desk, c, r, at) == Ok(w.reports[r])
  {
    if desk.Some? && r in w.reports {
      ReportGateSays(w, desk.value, c, w.reports[r].body, at);
    }
  }

  // ----- Handoffs -----

  // A reviewer of the tenant who may see the case and neither makes the handoff nor opened the case.
  ghost predicate MayReview(w: Workspace, call: Call, c: Id, reviewerId: Id)
    requires c in w.cases
  {
    && reviewerId in call.env.actors
    && var reviewer := call.env.actors[reviewerId];
    && reviewer.role == Reviewer && reviewer.tenantId == call.actor.tenantId
    && w.cases[c].scope.subject in reviewer.subjects
    && reviewer.actorId != call.actor.actorId && reviewer.actorId != w.cases[c].openedBy
  }

  /** A report is handed off exactly by its author, while it is usable, to someone who may review it. */
  lemma HandoffSays(w: Workspace, call: Call, c: Id, r: Id, reviewerId: Id)
    requires call.command == HandoffReport(c, r, reviewerId)
    ensures Change(w, call).Ok? <==>
      && Shows(w, call.actor, c) && Usable(w, call.env.desk, c, r, call.env.at) && MayReview(w, call, c, reviewerId)
      && w.reports[r].body.investigatorId == call.actor.actorId
    ensures Change(w, call).Ok? ==>
      && c in w.cases && reviewerId in call.env.actors
      && Change(w, call).value.state == w.(handoffs := w.handoffs[call.env.newId :=
           Handoff(call.env.newId, r, c, w.cases[c].version, call.env.actors[reviewerId].actorId, call.actor.actorId, false)])
  {
    assert Change(w, call) == HandoffChange(w, call, c, r, reviewerId);
    if c in w.cases {
      ValidIffUsable(w, call.env.desk, c, r, call.env.at);
    }
  }

  /** A handoff is accepted exactly by the reviewer it names, while its report is usable and its version is the present one. */
  lemma AcceptSays(w: Workspace, call: Call, h: Id)
    requires call.command == AcceptHandoff(h)
    ensures Change(w, call).Ok? <==>
      && h in w.handoffs && w.handoffs[h].reviewerId == call.actor.actorId
      && Shows(w, call.actor, w.handoffs[h].caseId)
      && Usable(w, call.env.desk, w.handoffs[h].caseId, w.handoffs[h].reportId, call.env.at)
      && w.handoffs[h].caseVersion == w.cases[w.handoffs[h].caseId].version
    ensures Change(w, call).Ok? ==>
      h in w.handoffs && Change(w, call).value.state == w.(handoffs := w.handoffs[h := w.handoffs[h].(accepted := true)])
  {
    assert Change(w, call) == AcceptChange(w, call, h);
    if h in w.handoffs && w.handoffs[h].caseId in w.cases {
      ValidIffUsable(w, call.env.desk, w.handoffs[h].caseId, w.handoffs[h].reportId, call.env.at);
    }
  }

  // ----- Resolutions -----

  // An accepted handoff of the case to this actor, who neither opened the case nor investigated it.
  ghost predicate Reviewed(w: Workspace, call: Call, c: Id, h: Id) {
    && Shows(w, call.actor, c) && h in w.handoffs && w.handoffs[h].accepted && w.handoffs[h].caseId == c
    && w.handoffs[h].reviewerId == call.actor.actorId && w.handoffs[h].caseVersion == w.cases[c].version
    && call.actor.actorId != w.cases[c].openedBy && call.actor.actorId != w.handoffs[h].investigatorId
  }

  // The resolution names the bundle of the evidence as it is, if sources are needed.
  ghost predicate NamesEvidence(w: Workspace, call: Call, c: Id, evidence: Digest)
    requires c in w.cases
  {
    call.env.desk.Some? && Sourced(w, call.env.desk.value, c) ==>
      && ContextOf(w, call.env.desk.value, c, call.env.at).Ok? && ContextOf(w, call.env.desk.value, c, call.env.at).value.complete
      && evidence == BundleRoot(ContextOf(w, call.env.desk.value, c, call.env.at).value)
  }

  lemma LinkOwesNothing(a: map<Key, Artifact>, proof: ResolutionProof, c: Id)
    requires Keyed(a)
    ensures Obligations(PutLink(a, proof), c) == Obligations(a, c) && Guard(PutLink(a, proof), c) == Guard(a, c)
  {
    var k := LinkKey(proof.caseId, proof.caseVersion);
    if k in a {
      assert KeyedAt(k, a[k]);
    }
    InertObligations(a, k, LinkArtifact(proof), c);
  }

  lemma SameFloor(a: map<Key, Artifact>, b: map<Key, Artifact>, c: Id, policy: Option<SourcePolicy>)
    requires Obligations(b, c) == Obligations(a, c) && Guard(b, c) == Guard(a, c)
    ensures EffectivePolicy(b, c, policy) == EffectivePolicy(a, c, policy)
  {
  }

  lemma LinkedFloor(w: Workspace, call: Call, riskCase: RiskCase, report: Report, h: Id, evidence: Digest,
                    policy: Option<SourcePolicy>)
    requires Keyed(w.artifacts)
    ensures EffectivePolicy(WithLink(w, call, riskCase, report, h, evidence).artifacts, riskCase.caseId, policy)
      == EffectivePolicy(w.artifacts, riskCase.caseId, policy)
  {
    LinkOwesNothing(w.artifacts, ProofOf(w, call, riskCase, report, h, evidence), riskCase.caseId);
    SameFloor(w.artifacts, WithLink(w, call, riskCase, report, h, evidence).artifacts, riskCase.caseId, policy);
  }

  lemma RememberIff(w: Workspace, desk: Option<Config>, c: Id)
    requires c in w.cases
    ensures Remember(w, desk, c, {}).Ok? <==>
      (desk.Some? ==> EffectivePolicy(w.artifacts, c, PolicyFor(desk.value.policies, w.tenantId, w.cases[c].scope)).Ok?)
  {
  }

  /**
   A case is resolved exactly after an accepted, independent review of a report that is still usable, naming the present
   evidence, and while its policy can be noted.
   */
  lemma ResolveIff(w: Workspace, call: Call, c: Id, h: Id, resolution: Resolution, evidence: Digest)
    requires call.command == Resolve(c, h, resolution, evidence) && Keyed(w.artifacts)
    requires c in w.cases ==> w.cases[c].caseId == c
    ensures Change(w, call).Ok? <==>
      && Reviewed(w, call, c, h) && Usable(w, call.env.desk, c, w.handoffs[h].reportId, call.env.at)
      && NamesEvidence(w, call, c, evidence) && PolicyNotable(w, call, c, w.cases[c].scope)
  {
    assert Change(w, call) == ResolveChange(w, call, c, h, resolution, evidence);
    if c in w.cases && h in w.handoffs {
      ValidIffUsable(w, call.env.desk, c, w.handoffs[h].reportId, call.env.at);
      if call.env.desk.Some? {
        ResolutionGateSays(w, call.env.desk.value, c, evidence, call.env.at);
      }
      if w.handoffs[h].reportId in w.reports {
        CompletesIff(w, call, c, h, w.reports[w.handoffs[h].reportId], resolution, evidence);
      }
    }
  }

  lemma CompletesIff(w: Workspace, call: Call, c: Id, h: Id, report: Report, resolution: Resolution, evidence: Digest)
    requires c in w.cases && w.cases[c].caseId == c && Keyed(w.artifacts)
    ensures CompleteResolution(w, call, c, h, report, resolution, evidence).Ok? <==> PolicyNotable(w, call, c, w.cases[c].scope)
  {
    var resolved := ResolvedCase(w, call, c, resolution);
    RememberIff(WithCase(WithLink(w, call, resolved, report, h, evidence), resolved), call.env.desk, c);
    if call.env.desk.Some? {
      LinkedFloor(w, call, resolved, report, h, evidence,
                  PolicyFor(call.env.desk.value.policies, w.tenantId, w.cases[c].scope));
    }
    CompletedIff(w, call, c, h, report, resolution, evidence);
  }

  lemma CompletedIff(w: Workspace, call: Call, c: Id, h: Id, report: Report, resolution: Resolution, evidence: Digest)
    requires c in w.cases
    ensures CompleteResolution(w, call, c, h, report, resolution, evidence).Ok? <==>
      NotedResolution(w, call, c, h, report, resolution, evidence).Ok?
  {
  }

  // Another case about a scope the task depends on is open.
  ghost predicate OtherRisk(w: Workspace, t: Id, c: Id) {
    exists x :: x in w.cases && x != c && w.cases[x].status == Open && DependsOn(w.tasks, t, w.cases[x].scope)
  }

  // A task the case reaches is marked for reconsideration, denied exactly while another case reaches it.
  ghost predicate Marked(w: Workspace, s: Workspace, c: Id, t: Id)
    requires c in w.cases && t in w.tasks
  {
    && t in s.tasks
    && s.tasks[t] ==
         if DependsOn(w.tasks, t, w.cases[c].scope)
         then w.tasks[t].(taints := w.tasks[t].taints[ResolutionToken(c, w.cases[c].version + 1) := ReconsiderRequired],
                          status := Of(if OtherRisk(w, t, c) then Deny else NeedsHuman))
         else w.tasks[t]
  }

  // The case as it is resolved: its next version, by this reviewer, with this resolution.
  ghost predicate ResolvedBy(w: Workspace, s: Workspace, call: Call, c: Id, resolution: Resolution)
    requires c in w.cases
  {
    && s.cases == w.cases[c := w.cases[c].(status := Resolved, version := w.cases[c].version + 1,
         resolution := Some(resolution), resolvedBy := Some(call.actor.actorId), resolvedSeq := Some(w.revision + 1))]
    && s.caseHistory == w.caseHistory[c := (if c in w.caseHistory then w.caseHistory[c] else []) + [s.cases[c]]]
  }

  // The lesson and, for a report with evidence, the link that later bases commit to.
  ghost predicate Kept(w: Workspace, s: Workspace, call: Call, c: Id, h: Id, resolution: Resolution, evidence: Digest)
    requires c in w.cases && h in w.handoffs && w.handoffs[h].reportId in w.reports
  {
    var report, next := w.reports[w.handoffs[h].reportId], w.cases[c].version + 1;
    && s.lessons == w.lessons[call.env.newId :=
         Lesson(w.cases[c].scope, w.cases[c].kind, c, next, w.revision + 1, report.body.reportId, resolution,
                call.actor.actorId, evidence)]
    && (BundleKey(report.body.reportId) in w.artifacts ==>
          && LinkKey(c, next) in s.artifacts
          && s.artifacts[LinkKey(c, next)] == LinkArtifact(
               ResolutionProof(c, next, report.body.reportId, report.root, h, evidence, call.actor.actorId, w.revision + 1)))
    && (BundleKey(report.body.reportId) !in w.artifacts ==>
          (LinkKey(c, next) in s.artifacts <==> LinkKey(c, next) in w.artifacts))
  }

  /** What a resolution does: the case, its lesson and link, and every task the case reaches. */
  lemma ResolveSays(w: Workspace, call: Call, c: Id, h: Id, resolution: Resolution, evidence: Digest)
    requires WellFounded(w) && call.command == Resolve(c, h, resolution, evidence) && Change(w, call).Ok?
    requires forall k | k in w.cases :: w.cases[k].caseId == k
    ensures c in w.cases && h in w.handoffs && w.handoffs[h].reportId in w.reports
    ensures var s := Change(w, call).value.state;
      && ResolvedBy(w, s, call, c, resolution) && Kept(w, s, call, c, h, resolution, evidence)
      && s.tasks.Keys == w.tasks.Keys && (forall t | t in w.tasks :: Marked(w, s, c, t))
      && s.baselines == w.baselines && s.decisions == w.decisions && s.reports == w.reports && s.handoffs == w.handoffs
  {
    assert Change(w, call) == ResolveChange(w, call, c, h, resolution, evidence);
    var report := ResolveChecks(w, call, c, h, resolution, evidence);
    ValidIffUsable(w, call.env.desk, c, w.handoffs[h].reportId, call.env.at);
    CompletedSays(w, call, c, h, report, resolution, evidence);
    forall t | t in w.tasks
      ensures Marked(w, Change(w, call).value.state, c, t)
    {
      CompletedMarks(w, call, c, h, report, resolution, evidence, t);
    }
  }

  lemma CompletedSays(w: Workspace, call: Call, c: Id, h: Id, report: Report, resolution: Resolution, evidence: Digest)
    requires c in w.cases && w.cases[c].caseId == c && h in w.handoffs && w.handoffs[h].reportId in w.reports
    requires report == w.reports[w.handoffs[h].reportId]
    requires CompleteResolution(w, call, c, h, report, resolution, evidence).Ok?
    ensures var s := CompleteResolution(w, call, c, h, report, resolution, evidence).value.state;
      && ResolvedBy(w, s, call, c, resolution) && Kept(w, s, call, c, h, resolution, evidence)
      && s.tasks.Keys == w.tasks.Keys
      && s.baselines == w.baselines && s.decisions == w.decisions && s.reports == w.reports && s.handoffs == w.handoffs
  {
    CompletedIff(w, call, c, h, report, resolution, evidence);
    var noted := NotedResolution(w, call, c, h, report, resolution, evidence).value;
    NotedSays(w, call, c, h, report, resolution, evidence, noted);
    ClosedSays(w, noted, call, c, ResolvedCase(w, call, c, resolution), report, resolution, evidence);
  }

  // Noting a policy touches nothing but the artifacts, and of them no link.
  lemma NotingKeepsLinks(w: Workspace, desk: Option<Config>, c: Id, noted: Workspace, k: Key)
    requires c in w.cases && Remember(w, desk, c, {}) == Ok(noted) && k.LinkKey?
    ensures noted == w.(artifacts := noted.artifacts)
    ensures (k in noted.artifacts <==> k in w.artifacts) && (k in w.artifacts ==> noted.artifacts[k] == w.artifacts[k])
  {
    if desk.Some? {
      RememberSays(w.artifacts, c, CasePolicyOf(w, desk.value, c), {});
    }
  }

  // The noted workspace: the case and its history, and the link under its key.
  lemma NotedSays(w: Workspace, call: Call, c: Id, h: Id, report: Report, resolution: Resolution, evidence: Digest,
                  noted: Workspace)
    requires c in w.cases && w.cases[c].caseId == c
    requires NotedResolution(w, call, c, h, report, resolution, evidence) == Ok(noted)
    ensures var resolved := ResolvedCase(w, call, c, resolution);
      var k, linked := LinkKey(c, resolved.version), WithLink(w, call, resolved, report, h, evidence).artifacts;
      && noted == WithCase(w, resolved).(artifacts := noted.artifacts)
      && (k in noted.artifacts <==> k in linked) && (k in linked ==> noted.artifacts[k] == linked[k])
  {
    var resolved := ResolvedCase(w, call, c, resolution);
    var linked := WithLink(w, call, resolved, report, h, evidence);
    LinkedCase(w, linked, resolved);
    NotingKeepsLinks(WithCase(linked, resolved), call.env.desk, c, noted, LinkKey(c, resolved.version));
  }

  lemma LinkedCase(w: Workspace, linked: Workspace, riskCase: RiskCase)
    requires linked == w.(artifacts := linked.artifacts)
    ensures WithCase(linked, riskCase) == WithCase(w, riskCase).(artifacts := linked.artifacts)
    ensures riskCase.caseId in WithCase(linked, riskCase).cases
  {
  }

  lemma ClosedSays(w: Workspace, noted: Workspace, call: Call, c: Id, resolved: RiskCase, report: Report,
                   resolution: Resolution, evidence: Digest)
    requires c in w.cases && noted == WithCase(w, resolved).(artifacts := noted.artifacts)
    ensures var s := ClosedOut(noted, call, c, resolved, report, resolution, evidence).state;
      && s == noted.(tasks := s.tasks, lessons := s.lessons) && s.tasks.Keys == w.tasks.Keys
      && s.lessons == w.lessons[call.env.newId := LessonOf(w.revision + 1, call, resolved, c, report, resolution, evidence)]
  {
  }

  lemma CompletedMarks(w: Workspace, call: Call, c: Id, h: Id, report: Report, resolution: Resolution,
                       evidence: Digest, t: Id)
    requires WellFounded(w) && c in w.cases && w.cases[c].caseId == c && t in w.tasks
    requires CompleteResolution(w, call, c, h, report, resolution, evidence).Ok?
    ensures Marked(w, CompleteResolution(w, call, c, h, report, resolution, evidence).value.state, c, t)
  {
    var noted := CompleteEffect(w, call, c, h, report, resolution, evidence);
    IntoMarks(w, CompleteResolution(w, call, c, h, report, resolution, evidence).value.state, noted, call,
              ResolvedCase(w, call, c, resolution), c, t);
  }

  lemma IntoMarks(w: Workspace, s: Workspace, noted: Workspace, call: Call, next: RiskCase, c: Id, t: Id)
    requires WellFounded(w) && c in w.cases && t in w.tasks && ResolvedInto(w, s, noted, call, next)
    requires next.caseId == c && next.scope == w.cases[c].scope && next.version == w.cases[c].version + 1
    ensures Marked(w, s, c, t)
  {
    MarkSays(w, noted, c, w.cases[c].version + 1, call.env.at, t);
  }

  lemma MarkSays(w: Workspace, noted: Workspace, c: Id, n: nat, at: Time, t: Id)
    requires WellFounded(w) && c in w.cases && t in w.tasks && noted.tasks == w.tasks
    requires c in noted.cases && noted.cases == w.cases[c := noted.cases[c]] && noted.cases[c].status == Resolved
    ensures ResolvedTasks(noted, Affected(w.tasks, w.cases[c].scope), ResolutionToken(c, n), at)[t] ==
        if DependsOn(w.tasks, t, w.cases[c].scope)
        then w.tasks[t].(taints := w.tasks[t].taints[ResolutionToken(c, n) := ReconsiderRequired],
                         status := Of(if OtherRisk(w, t, c) then Deny else NeedsHuman))
        else w.tasks[t]
  {
    AffectedDepends(w.tasks, w.cases[c].scope, t);
    GraphOkClosure(w.tasks, t);
    PolicyMeaning(noted, t, at, false);
    RiskAfter(w, noted, c, t);
  }

  lemma RiskAfter(w: Workspace, noted: Workspace, c: Id, t: Id)
    requires WellFounded(w) && c in w.cases && t in w.tasks && noted.tasks == w.tasks
    requires c in noted.cases && noted.cases == w.cases[c := noted.cases[c]] && noted.cases[c].status == Resolved
    ensures ClosureOf(w.tasks, t).Ok? && (OpenRiskIn(noted, ClosureOf(w.tasks, t).value) <==> OtherRisk(w, t, c))
  {
    GraphOkClosure(w.tasks, t);
    var closure := ClosureOf(w.tasks, t).value;
    if OpenRiskIn(noted, closure) {
      var x, k :| x in noted.cases && k in closure && noted.cases[x].scope == noted.tasks[k].intent.scope && noted.cases[x].status == Open;
      assert x != c && DependsOn(w.tasks, t, w.cases[x].scope);
    }
    if OtherRisk(w, t, c) {
      var x :| x in w.cases && x != c && w.cases[x].status == Open && DependsOn(w.tasks, t, w.cases[x].scope);
      var k :| k in closure && w.tasks[k].intent.scope == w.cases[x].scope;
      assert x in noted.cases && noted.cases[x].status == Open;
    }
  }

  // ----- What the actor is told -----

  /** An investigator is told exactly the report that was stored. */
  lemma ReportAnswers(w: Workspace, call: Call, c: Id)
    requires call.command == Investigate(c) && Change(w, call).Ok?
    ensures call.carried.Draft? && call.carried.report.reportId in Change(w, call).value.state.reports
    ensures Change(w, call).value.outcome == Reported(Change(w, call).value.state.reports[call.carried.report.reportId])
  {
    assert Change(w, call) == InvestigateChange(w, call, c);
  }

  /** Both sides of a handoff are told exactly the record that was stored. */
  lemma HandoffAnswers(w: Workspace, call: Call, c: Id, r: Id, reviewerId: Id)
    requires call.command == HandoffReport(c, r, reviewerId) && Change(w, call).Ok?
    ensures call.env.newId in Change(w, call).value.state.handoffs
    ensures Change(w, call).value.outcome == HandedOff(Change(w, call).value.state.handoffs[call.env.newId])
  {
    assert Change(w, call) == HandoffChange(w, call, c, r, reviewerId);
  }

  lemma AcceptAnswers(w: Workspace, call: Call, h: Id)
    requires call.command == AcceptHandoff(h) && Change(w, call).Ok?
    ensures h in Change(w, call).value.state.handoffs
    ensures Change(w, call).value.outcome == HandedOff(Change(w, call).value.state.handoffs[h])
  {
    assert Change(w, call) == AcceptChange(w, call, h);
  }

  /** The resolver is told the case as it is stored, exactly the tasks that were marked, and the lesson that was kept. */
  lemma ResolveAnswers(w: Workspace, call: Call, c: Id, h: Id, resolution: Resolution, evidence: Digest)
    requires WellFounded(w) && ResolveChange(w, call, c, h, resolution, evidence).Ok?
    requires forall k | k in w.cases :: w.cases[k].caseId == k
    ensures c in w.cases
    ensures var changed := ResolveChange(w, call, c, h, resolution, evidence).value;
      && changed.outcome.CaseResolved? && changed.outcome.lessonId == call.env.newId
      && c in changed.state.cases && changed.outcome.riskCase == changed.state.cases[c]
      && Reaches(w.tasks, w.cases[c].scope, changed.outcome.affected)
  {
    var report := ResolveChecks(w, call, c, h, resolution, evidence);
    CompletedAnswers(w, call, c, h, report, resolution, evidence);
  }

  lemma CompletedAnswers(w: Workspace, call: Call, c: Id, h: Id, report: Report, resolution: Resolution,
                         evidence: Digest)
    requires WellFounded(w) && c in w.cases && w.cases[c].caseId == c
    requires CompleteResolution(w, call, c, h, report, resolution, evidence).Ok?
    ensures var changed := CompleteResolution(w, call, c, h, report, resolution, evidence).value;
      && changed.outcome.CaseResolved? && changed.outcome.lessonId == call.env.newId
      && c in changed.state.cases && changed.outcome.riskCase == changed.state.cases[c]
      && Reaches(w.tasks, w.cases[c].scope, changed.outcome.affected)
  {
    CompletedIff(w, call, c, h, report, resolution, evidence);
    var noted := NotedResolution(w, call, c, h, report, resolution, evidence).value;
    NotedSays(w, call, c, h, report, resolution, evidence, noted);
    AffectedReaches(w.tasks, w.cases[c].scope);
  }
}
