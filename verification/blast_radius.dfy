/** A change in a scope reaches exactly the tasks that depend on work in it. */
module BlastRadius {
  import opened Common
  import opened CaseworkModels
  import opened EvidenceDesk
  import opened CasePolicy
  import opened Commands
  import opened Safety
  import opened ProofValidity

  predicate IsLink(artifacts: map<Key, Artifact>, k: Key) {
    k in artifacts && artifacts[k].LinkArtifact?
  }

  // Every link about a case outside the scope is in both or in neither.
  ghost predicate LinksConfined(w: Workspace, s: Workspace, scope: Scope) {
    && (forall k | IsLink(w.artifacts, k) && Outside(w, w.artifacts[k].proof.caseId, scope) ::
          IsLink(s.artifacts, k) && s.artifacts[k] == w.artifacts[k])
    && (forall k | IsLink(s.artifacts, k) && Outside(w, s.artifacts[k].proof.caseId, scope) ::
          IsLink(w.artifacts, k) && s.artifacts[k] == w.artifacts[k])
  }

  predicate Outside(w: Workspace, c: Id, scope: Scope) {
    c in w.cases && w.cases[c].scope != scope
  }

  // Outside the scope, tasks, baselines, cases and resolution links are as they were.
  ghost predicate ConfinedTo(w: Workspace, s: Workspace, scope: Scope) {
    && SameShape(w.tasks, s.tasks)
    && (forall k | k in w.tasks && k !in Affected(w.tasks, scope) :: s.tasks[k] == w.tasks[k])
    && (forall b: Scope | b != scope :: (b in w.baselines <==> b in s.baselines)
                                        && (b in w.baselines ==> w.baselines[b] == s.baselines[b]))
    && (forall c | c in w.cases && w.cases[c].scope != scope :: c in s.cases && s.cases[c] == w.cases[c])
    && (forall c | c in s.cases && s.cases[c].scope != scope :: c in w.cases && s.cases[c] == w.cases[c])
    && LinksConfined(w, s, scope)
  }

  // Within the scope, the baseline or some case is not as it was.
  ghost predicate ChangedIn(w: Workspace, s: Workspace, scope: Scope) {
    || (scope in s.baselines && (scope !in w.baselines || w.baselines[scope] != s.baselines[scope]))
    || exists c :: c in s.cases && s.cases[c].scope == scope && (c !in w.cases || w.cases[c] != s.cases[c])
  }

  lemma UnaffectedClosure(w: Workspace, scope: Scope, t: Id, k: Id)
    requires WellFounded(w) && t in w.tasks && t !in Affected(w.tasks, scope)
    requires ClosureOf(w.tasks, t).Ok? && k in ClosureOf(w.tasks, t).value
    ensures k !in Affected(w.tasks, scope)
  {
    AffectedExact(w.tasks, scope, t);
    ClosureOfNested(w.tasks, t, k);
    AffectedExact(w.tasks, scope, k);
  }

  lemma SameCases(w: Workspace, s: Workspace, scope: Scope, scopes: set<Scope>)
    requires ConfinedTo(w, s, scope) && scope !in scopes
    ensures CasesIn(s.cases, scopes) == CasesIn(w.cases, scopes)
  {
  }

  lemma SameLinksOf(w: Workspace, s: Workspace, scope: Scope, cases: set<Id>)
    requires LinksConfined(w, s, scope) && forall c | c in cases :: Outside(w, c, scope)
    ensures LinksOf(s.artifacts, cases) == LinksOf(w.artifacts, cases)
  {
    forall k
      ensures k in LinksOf(s.artifacts, cases) <==> k in LinksOf(w.artifacts, cases)
      ensures k in LinksOf(s.artifacts, cases) ==> LinksOf(s.artifacts, cases)[k] == LinksOf(w.artifacts, cases)[k]
    {
      assert k in LinksOf(s.artifacts, cases) <==> IsLink(s.artifacts, k) && s.artifacts[k].proof.caseId in cases;
      assert k in LinksOf(w.artifacts, cases) <==> IsLink(w.artifacts, k) && w.artifacts[k].proof.caseId in cases;
    }
  }

  lemma SameBaselines(w: Workspace, s: Workspace, scope: Scope, scopes: set<Scope>)
    requires ConfinedTo(w, s, scope) && scope !in scopes
    ensures (map b | b in s.baselines && b in scopes :: s.baselines[b]) == map b | b in w.baselines && b in scopes :: w.baselines[b]
  {
  }

  lemma SameParts(w: Workspace, s: Workspace, scope: Scope, t: Id, c: seq<Id>)
    requires ConfinedTo(w, s, scope) && Listed(w.tasks, c) && scope !in Scopes(w.tasks, c)
    requires forall k | k in c :: s.tasks[k] == w.tasks[k]
    ensures BasisOver(s, t, c) == BasisOver(w, t, c)
  {
    var scopes := Scopes(w.tasks, c);
    assert Scopes(s.tasks, c) == scopes;
    SameCases(w, s, scope, scopes);
    SameBaselines(w, s, scope, scopes);
    SameLinksOf(w, s, scope, CasesIn(w.cases, scopes).Keys);
    assert (map k | k in c :: EntryOf(s.tasks[k], k == t)) == map k | k in c :: EntryOf(w.tasks[k], k == t);
  }

  lemma UnaffectedBasis(w: Workspace, s: Workspace, scope: Scope, t: Id)
    requires WellFounded(w) && ConfinedTo(w, s, scope) && t in w.tasks && t !in Affected(w.tasks, scope)
    ensures BasisOf(s, t) == BasisOf(w, t)
  {
    AffectedExact(w.tasks, scope, t);
    ShapeFrame(w.tasks, s.tasks);
    var c := ClosureOf(w.tasks, t).value;
    forall k | k in c
      ensures s.tasks[k] == w.tasks[k]
    {
      UnaffectedClosure(w, scope, t, k);
    }
    SameParts(w, s, scope, t, c);
  }

  lemma AffectedBasis(w: Workspace, s: Workspace, scope: Scope, t: Id)
    requires WellFounded(w) && SameShape(w.tasks, s.tasks) && ChangedIn(w, s, scope)
    requires t in w.tasks && t in Affected(w.tasks, scope)
    ensures BasisOf(s, t) != BasisOf(w, t)
  {
    AffectedExact(w.tasks, scope, t);
    ShapeFrame(w.tasks, s.tasks);
    var before, after := BasisOf(w, t).value, BasisOf(s, t).value;
    if scope in s.baselines && (scope !in w.baselines || w.baselines[scope] != s.baselines[scope]) {
      assert scope in after.baselines && after.baselines[scope] == s.baselines[scope];
    } else {
      var c :| c in s.cases && s.cases[c].scope == scope && (c !in w.cases || w.cases[c] != s.cases[c]);
      assert c in after.cases && after.cases[c] == s.cases[c];
    }
  }

  /** Confined and real changes alter the basis of exactly the affected tasks. */
  lemma BasisChangesIffAffected(w: Workspace, s: Workspace, scope: Scope, t: Id)
    requires WellFounded(w) && ConfinedTo(w, s, scope) && ChangedIn(w, s, scope) && t in w.tasks
    ensures BasisOf(s, t) != BasisOf(w, t) <==> t in Affected(w.tasks, scope)
    ensures ClosureOf(w.tasks, t).Ok? && (t in Affected(w.tasks, scope) <==> scope in ScopesOf(w.tasks, t))
  {
    AffectedExact(w.tasks, scope, t);
    if t in Affected(w.tasks, scope) {
      AffectedBasis(w, s, scope, t);
    } else {
      UnaffectedBasis(w, s, scope, t);
    }
  }

  // ----- The commands that change a scope -----

  // Artifacts changed, but no link did.
  ghost predicate SameLinks(a: map<Key, Artifact>, b: map<Key, Artifact>) {
    forall k :: (IsLink(a, k) <==> IsLink(b, k)) && (IsLink(a, k) ==> a[k] == b[k])
  }

  lemma RememberLinks(w: Workspace, desk: Option<Config>, c: Id, sources: set<Id>)
    requires c in w.cases && Remember(w, desk, c, sources).Ok? && LinksKeyed(w.artifacts)
    ensures SameLinks(w.artifacts, Remember(w, desk, c, sources).value.artifacts)
  {
  }

  lemma RaiseCaseLinks(w: Workspace, call: Call, next: RiskCase, reason: TaintReason)
    requires RaiseCase(w, call, next, reason).Ok? && LinksKeyed(w.artifacts)
    ensures SameLinks(w.artifacts, RaiseCase(w, call, next, reason).value.state.artifacts)
  {
    RememberLinks(WithCase(w, next), call.env.desk, next.caseId, {});
  }

  lemma OpenLinks(w: Workspace, call: Call, scope: Scope, kind: RiskKind, evidence: Digest, reason: TaintReason)
    requires OpenChange(w, call, scope, kind, evidence, reason).Ok? && LinksKeyed(w.artifacts)
    ensures SameLinks(w.artifacts, OpenChange(w, call, scope, kind, evidence, reason).value.state.artifacts)
  {
    RaiseCaseLinks(w, call, NewCase(w, call, scope, kind, evidence), reason);
  }

  lemma IngestLinks(w: Workspace, call: Call, source: Id, scope: Scope, kind: RiskKind, evidence: Digest, payload: Id)
    requires IngestChange(w, call, source, scope, kind, evidence, payload).Ok? && LinksKeyed(w.artifacts)
    ensures SameLinks(w.artifacts, IngestChange(w, call, source, scope, kind, evidence, payload).value.state.artifacts)
  {
    OpenLinks(w, call, scope, kind, evidence, SignedIncident);
    var before := OpenChange(w, call, scope, kind, evidence, SignedIncident).value.state.artifacts;
    assert !IsLink(before, IncidentKey(call.env.newId));
  }

  lemma ReopenLinks(w: Workspace, call: Call, c: Id, evidence: Digest)
    requires ReopenChange(w, call, c, evidence).Ok? && LinksKeyed(w.artifacts)
    ensures SameLinks(w.artifacts, ReopenChange(w, call, c, evidence).value.state.artifacts)
  {
    RaiseCaseLinks(w, call, ReopenedCase(w, call, c, evidence), RiskReopened);
  }

  lemma OpenCommandLinks(w: Workspace, call: Call)
    requires call.command.OpenCase? && Change(w, call).Ok? && LinksKeyed(w.artifacts)
    ensures SameLinks(w.artifacts, Change(w, call).value.state.artifacts)
  {
    assert Change(w, call) == OpenChange(w, call, call.command.scope, call.command.kind, call.command.evidence, NewRisk);
    OpenLinks(w, call, call.command.scope, call.command.kind, call.command.evidence, NewRisk);
  }

  lemma IngestCommandLinks(w: Workspace, call: Call)
    requires call.command.IngestIncident? && Change(w, call).Ok? && LinksKeyed(w.artifacts)
    ensures SameLinks(w.artifacts, Change(w, call).value.state.artifacts)
  {
    var command := call.command;
    assert Change(w, call) == IngestChange(w, call, command.sourceId, command.scope, command.kind, command.evidence, command.payload);
    IngestLinks(w, call, command.sourceId, command.scope, command.kind, command.evidence, command.payload);
  }

  lemma ReopenCommandLinks(w: Workspace, call: Call)
    requires call.command.ReopenCase? && Change(w, call).Ok? && LinksKeyed(w.artifacts)
    ensures SameLinks(w.artifacts, Change(w, call).value.state.artifacts)
  {
    ReopenLinks(w, call, call.command.caseId, call.command.evidence);
  }

  lemma RaisingLinks(w: Workspace, call: Call)
    requires Raises(call.command) && Change(w, call).Ok? && LinksKeyed(w.artifacts)
    ensures SameLinks(w.artifacts, Change(w, call).value.state.artifacts)
  {
    if call.command.OpenCase? {
      OpenCommandLinks(w, call);
    } else if call.command.IngestIncident? {
      IngestCommandLinks(w, call);
    } else {
      ReopenCommandLinks(w, call);
    }
  }

  lemma BaselineConfined(w: Workspace, call: Call, scope: Scope, limit: nat, expiresAt: Time)
    requires SetBaselineChange(w, call, scope, limit, expiresAt).Ok?
    ensures var s := SetBaselineChange(w, call, scope, limit, expiresAt).value.state;
      ConfinedTo(w, s, scope) && ChangedIn(w, s, scope)
  {
    var next := NextBaseline(w, call, scope, limit, expiresAt);
    InvalidateShape(w.tasks, Affected(w.tasks, scope), BaselineToken(scope, next.version), BaselineChanged);
  }

  /** Setting a baseline changes the basis of exactly the tasks that depend on its scope. */
  lemma BaselineReachesExactly(w: Workspace, call: Call, scope: Scope, limit: nat, expiresAt: Time, t: Id)
    requires WellFounded(w) && t in w.tasks && SetBaselineChange(w, call, scope, limit, expiresAt).Ok?
    ensures var s := SetBaselineChange(w, call, scope, limit, expiresAt).value.state;
      BasisOf(s, t) != BasisOf(w, t) <==> t in Affected(w.tasks, scope)
  {
    BaselineConfined(w, call, scope, limit, expiresAt);
    BasisChangesIffAffected(w, SetBaselineChange(w, call, scope, limit, expiresAt).value.state, scope, t);
  }

  /** Opening, ingesting or reopening a case changes the basis of exactly the tasks that depend on its scope. */
  lemma RaiseReachesExactly(w: Workspace, call: Call, t: Id)
    requires Safe(w.tasks, w.cases) && t in w.tasks && LinksKeyed(w.artifacts) && call.env.newId !in w.cases
    requires Raises(call.command) && Change(w, call).Ok?
    ensures call.command.ReopenCase? ==> call.command.caseId in w.cases
    ensures BasisOf(Change(w, call).value.state, t) != BasisOf(w, t) <==> t in Affected(w.tasks, RaisedCase(w, call).scope)
  {
    var reason := RaiseEffect(w, call);
    RaisingLinks(w, call);
    RaisedReachesExactly(w, Change(w, call).value.state, RaisedCase(w, call), reason, t);
  }

  lemma RaisedConfined(w: Workspace, s: Workspace, next: RiskCase, reason: TaintReason)
    requires Raised(w, s, next, reason) && SameLinks(w.artifacts, s.artifacts)
    ensures ConfinedTo(w, s, next.scope) && ChangedIn(w, s, next.scope)
  {
    InvalidateShape(w.tasks, Affected(w.tasks, next.scope), CaseToken(next.caseId, next.version), reason);
    assert s.cases[next.caseId] == next;
  }

  lemma RaisedReachesExactly(w: Workspace, s: Workspace, next: RiskCase, reason: TaintReason, t: Id)
    requires WellFounded(w) && t in w.tasks && Raised(w, s, next, reason) && SameLinks(w.artifacts, s.artifacts)
    ensures BasisOf(s, t) != BasisOf(w, t) <==> t in Affected(w.tasks, next.scope)
  {
    RaisedConfined(w, s, next, reason);
    BasisChangesIffAffected(w, s, next.scope, t);
  }

  // A resolution adds at most the link of the case it resolves.
  ghost predicate SameLinksBut(a: map<Key, Artifact>, b: map<Key, Artifact>, c: Id) {
    && (forall k | IsLink(a, k) && a[k].proof.caseId != c :: IsLink(b, k) && b[k] == a[k])
    && (forall k | IsLink(b, k) && b[k].proof.caseId != c :: IsLink(a, k) && b[k] == a[k])
  }

  lemma LinkPut(artifacts: map<Key, Artifact>, proof: ResolutionProof)
    requires LinksKeyed(artifacts)
    ensures var after := PutLink(artifacts, proof);
      LinksKeyed(after) && SameLinksBut(artifacts, after, proof.caseId)
  {
  }

  lemma WithLinkLinks(w: Workspace, call: Call, riskCase: RiskCase, report: Report, h: Id, evidence: Digest)
    requires LinksKeyed(w.artifacts)
    ensures var s := WithLink(w, call, riskCase, report, h, evidence);
      LinksKeyed(s.artifacts) && SameLinksBut(w.artifacts, s.artifacts, riskCase.caseId)
  {
    var s := WithLink(w, call, riskCase, report, h, evidence);
    if BundleKey(report.body.reportId) in w.artifacts {
      LinkPut(w.artifacts, ProofOf(w, call, riskCase, report, h, evidence));
      assert s.artifacts == PutLink(w.artifacts, ProofOf(w, call, riskCase, report, h, evidence));
    } else {
      assert s.artifacts == w.artifacts;
    }
  }

  lemma CompleteLinks(w: Workspace, call: Call, c: Id, h: Id, report: Report, resolution: Resolution, evidence: Digest)
    requires c in w.cases && w.cases[c].caseId == c && LinksKeyed(w.artifacts)
    requires CompleteResolution(w, call, c, h, report, resolution, evidence).Ok?
    ensures SameLinksBut(w.artifacts, CompleteResolution(w, call, c, h, report, resolution, evidence).value.state.artifacts, c)
  {
    var resolved := ResolvedCase(w, call, c, resolution);
    var withLink := WithLink(w, call, resolved, report, h, evidence);
    WithLinkLinks(w, call, resolved, report, h, evidence);
    RememberLinks(WithCase(withLink, resolved), call.env.desk, c, {});
  }

  lemma ResolveLinks(w: Workspace, call: Call)
    requires call.command.Resolve? && Change(w, call).Ok? && LinksKeyed(w.artifacts)
    requires forall c | c in w.cases :: w.cases[c].caseId == c
    ensures SameLinksBut(w.artifacts, Change(w, call).value.state.artifacts, call.command.caseId)
  {
    var c, h := call.command.caseId, call.command.handoffId;
    var report := ValidReport(w, call.env.desk, c, w.handoffs[h].reportId, call.env.at).value;
    CompleteLinks(w, call, c, h, report, call.command.resolution, call.command.evidence);
  }

  /** Resolving a case changes the basis of exactly the tasks that depend on its scope. */
  lemma ResolveReachesExactly(w: Workspace, call: Call, t: Id)
    requires Safe(w.tasks, w.cases) && t in w.tasks && LinksKeyed(w.artifacts)
    requires call.command.Resolve? && Change(w, call).Ok?
    ensures call.command.caseId in w.cases
    ensures BasisOf(Change(w, call).value.state, t) != BasisOf(w, t)
            <==> t in Affected(w.tasks, w.cases[call.command.caseId].scope)
  {
    var c := call.command.caseId;
    var noted := ResolveEffect(w, call);
    var next := ResolvedCase(w, call, c, call.command.resolution);
    var s := Change(w, call).value.state;
    ResolveLinks(w, call);
    ResolvedReachesExactly(w, s, noted, call, next, t);
  }

  lemma ResolvedConfined(w: Workspace, s: Workspace, noted: Workspace, call: Call, next: RiskCase)
    requires ResolvedInto(w, s, noted, call, next) && SameLinksBut(w.artifacts, s.artifacts, next.caseId)
    ensures ConfinedTo(w, s, next.scope) && ChangedIn(w, s, next.scope)
  {
    ResolvedTasksShape(noted, Affected(w.tasks, next.scope), ResolutionToken(next.caseId, next.version), call.env.at);
    assert s.cases[next.caseId] == next;
  }

  lemma ResolvedReachesExactly(w: Workspace, s: Workspace, noted: Workspace, call: Call, next: RiskCase, t: Id)
    requires WellFounded(w) && t in w.tasks && ResolvedInto(w, s, noted, call, next)
    requires SameLinksBut(w.artifacts, s.artifacts, next.caseId)
    ensures BasisOf(s, t) != BasisOf(w, t) <==> t in Affected(w.tasks, next.scope)
  {
    ResolvedConfined(w, s, noted, call, next);
    BasisChangesIffAffected(w, s, next.scope, t);
  }

  // ----- Deciding a task -----

  lemma DecidedEntry(w: Workspace, t: Id, decision: Decision, explicit: bool, k: Id)
    requires t in w.tasks && decision.body.blockers <= w.cases.Keys && CurrentsKnown(w)
    requires decision.body.decisionId !in w.decisions
    requires k in w.tasks && k != t && ClosureOf(w.tasks, k).Ok? && t in ClosureOf(w.tasks, k).value
    ensures BasisOf(RecordDecision(w, t, decision, explicit), k) != BasisOf(w, k)
  {
    var s := RecordDecision(w, t, decision, explicit);
    ShapeFrame(w.tasks, s.tasks);
    var before, after := BasisOf(w, k).value, BasisOf(s, k).value;
    assert before.tasks[t].parentDecision == w.tasks[t].current;
    assert after.tasks[t].parentDecision == Some(decision.body.decisionId);
  }

  /** A new decision on a task changes the basis of exactly the other tasks that depend on it. */
  lemma DecidingReachesExactly(w: Workspace, t: Id, decision: Decision, explicit: bool, k: Id)
    requires t in w.tasks && decision.body.blockers <= w.cases.Keys && LinksKeyed(w.artifacts) && CurrentsKnown(w)
    requires decision.body.decisionId !in w.decisions && k in w.tasks && ClosureOf(w.tasks, k).Ok?
    ensures BasisOf(RecordDecision(w, t, decision, explicit), k) != BasisOf(w, k) <==>
      k != t && t in ClosureOf(w.tasks, k).value
  {
    if k != t && t in ClosureOf(w.tasks, k).value {
      DecidedEntry(w, t, decision, explicit, k);
    } else {
      RecordFrame(w, t, decision, explicit, k, 0);
    }
  }

  lemma BasisInvalidIff(w: Workspace, k: Id, d: DecisionBody, v: Verdicts, at: Time)
    requires k in w.tasks
    ensures BasisChanged in InvalidReasons(w, k, d, v, at) <==> BasisOf(w, k) != Ok(d.basis)
  {
  }

  // With a closure, the validity of a task's current decision can always be computed.
  lemma ValidityIs(w: Workspace, k: Id, at: Time)
    requires k in w.tasks && ClosureOf(w.tasks, k).Ok? && CurrentDecision(w, k).Some?
    ensures PolicyOf(w, k, at, false).Ok? && ValidityOf(w, k, at).Ok?
    ensures ValidityOf(w, k, at).value.invalid ==
      InvalidReasons(w, k, CurrentDecision(w, k).value, PolicyOf(w, k, at, false).value, at)
    ensures ValidityOf(w, k, at).value.valid <==> ValidityOf(w, k, at).value.invalid == {}
  {
  }

  lemma StillDecided(w: Workspace, t: Id, decision: Decision, explicit: bool, k: Id)
    requires t in w.tasks && decision.body.blockers <= w.cases.Keys && CurrentsKnown(w)
    requires decision.body.decisionId !in w.decisions && k in w.tasks && k != t
    ensures var s := RecordDecision(w, t, decision, explicit);
      s.tasks[k] == w.tasks[k] && CurrentDecision(s, k) == CurrentDecision(w, k) && ClosureOf(s.tasks, k) == ClosureOf(w.tasks, k)
  {
    ShapeFrame(w.tasks, RecordDecision(w, t, decision, explicit).tasks);
  }

  /**
   A stored READY is not a promise: deciding an ancestor again, even to the same verdict, leaves the dependent's
   status as it was while its proof is no longer valid.
   */
  lemma ReadyOutlivesItsProof(w: Workspace, t: Id, decision: Decision, explicit: bool, k: Id, at: Time)
    requires t in w.tasks && decision.body.blockers <= w.cases.Keys && CurrentsKnown(w)
    requires decision.body.decisionId !in w.decisions
    requires k in w.tasks && k != t && ClosureOf(w.tasks, k).Ok? && t in ClosureOf(w.tasks, k).value
    requires ValidityOf(w, k, at).Ok? && ValidityOf(w, k, at).value.valid
    ensures var s := RecordDecision(w, t, decision, explicit);
      && s.tasks[k].status == w.tasks[k].status
      && ValidityOf(s, k, at).Ok? && !ValidityOf(s, k, at).value.valid && BasisChanged in ValidityOf(s, k, at).value.invalid
  {
    var s := RecordDecision(w, t, decision, explicit);
    StillDecided(w, t, decision, explicit, k);
    DecidedEntry(w, t, decision, explicit, k);
    ValidityIs(w, k, at);
    ValidityIs(s, k, at);
    var d := CurrentDecision(w, k).value;
    BasisInvalidIff(w, k, d, PolicyOf(w, k, at, false).value, at);
    BasisInvalidIff(s, k, d, PolicyOf(s, k, at, false).value, at);
  }
}
