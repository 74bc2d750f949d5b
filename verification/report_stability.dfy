/** Storing a report with its own evidence disturbs neither the evidence nor the basis it was computed from. */
module ReportStability {
  import opened Common
  import opened CaseworkModels
  import opened SourceState
  import opened SourceGuard
  import opened EvidenceDesk
  import opened CasePolicy
  import opened Commands
  import opened Envelope
  import opened Integrity
  import opened ProofValidity
  import opened ArtifactGrowth
  import opened EvidenceBinding

  // ----- The obligations of a stored bundle are already owed -----

  lemma ObligationsPut(a: map<Key, Artifact>, k: Key, v: Artifact, c: Id)
    requires k !in a
    ensures Obligations(a[k := v], c) == Join(Obligations(a, c), Contribution(v, c))
  {
    var b := a[k := v];
    var joined := Join(Obligations(a, c), Contribution(v, c));
    forall j | j in b
      ensures Below(Contribution(b[j], c), joined)
    {
      if j != k {
        ContributionBelow(a, c, j);
      }
    }
    ObligationsLeast(b, c, joined);
    forall j | j in a
      ensures Below(Contribution(a[j], c), Obligations(b, c))
    {
      ContributionBelow(b, c, j);
    }
    ObligationsLeast(a, c, Obligations(b, c));
    ContributionBelow(b, c, k);
    BelowAntisymmetric(Obligations(b, c), joined);
  }

  /** The floor a context was computed under is a fixed point: storing that context's bundle leaves it as it is. */
  lemma FloorFixpoint(a: map<Key, Artifact>, c: Id, policy: Option<SourcePolicy>, reportId: Id, root: ReportBody,
                      bundle: Context)
    requires BundleKey(reportId) !in a && EffectivePolicy(a, c, policy) == Ok(bundle.floor)
    requires bundle.required == bundle.floor.required && bundle.receipts.Keys <= Obligations(a, c).required
    ensures EffectivePolicy(a[BundleKey(reportId) := BundleArtifact(reportId, c, root, bundle)], c, policy) == Ok(bundle.floor)
  {
    ObligationsPut(a, BundleKey(reportId), BundleArtifact(reportId, c, root, bundle), c);
    var before := Obligations(a, c);
    var after := Join(before, Contribution(BundleArtifact(reportId, c, root, bundle), c));
    assert Join(after, PolicyFloor(policy)).required == bundle.floor.required;
  }

  lemma AcceptedAreOwed(w: Workspace, c: Id, at: Time, specs: map<Id, SourceSpec>)
    requires c in w.cases && CurrentReceipts(w, c, at, specs).Ok?
    ensures CurrentReceipts(w, c, at, specs).value.accepted.Keys <= Obligations(w.artifacts, c).required
  {
    forall s | s in CurrentReceipts(w, c, at, specs).value.accepted
      ensures s in Obligations(w.artifacts, c).required
    {
      var k :| k in HeadKeys(w, c) && w.artifacts[k].head.sourceId == s;
      ContributionBelow(w.artifacts, c, k);
    }
  }

  // ----- Evidence read from the same inputs is the same -----

  ghost predicate SameInputs(w: Workspace, s: Workspace, c: Id) {
    && c in w.cases && c in s.cases && s.cases[c] == w.cases[c] && s.tenantId == w.tenantId
    && Keyed(w.artifacts) && Keyed(s.artifacts) && SameEvidence(w.artifacts, s.artifacts)
  }

  lemma HeadsSame(w: Workspace, s: Workspace, c: Id)
    requires SameInputs(w, s, c)
    ensures EvidenceHeads(s, c) == EvidenceHeads(w, c)
  {
    HeadsUnambiguous(w, c);
    HeadsUnambiguous(s, c);
    assert EvidenceHeads(s, c).value == EvidenceHeads(w, c).value;
  }

  lemma JudgedSame(w: Workspace, s: Workspace, c: Id, source: Id, h: SourceHead, at: Time, specs: map<Id, SourceSpec>)
    requires SameInputs(w, s, c)
    ensures Judge(s, c, source, h, at, specs) == Judge(w, c, source, h, at, specs)
    ensures Judge(w, c, source, h, at, specs) == None ==> ReceiptOf(s, c, source, h, at, specs) == ReceiptOf(w, c, source, h, at, specs)
  {
    if h.receiptId.Some? {
      assert EvidenceKey(ReceiptKey(h.receiptId.value)) && EvidenceKey(RequestKey(h.requestId));
    }
  }

  lemma SortedSame(w: Workspace, s: Workspace, c: Id, heads: map<Id, SourceHead>, at: Time, specs: map<Id, SourceSpec>)
    requires SameInputs(w, s, c)
    ensures SortReceipts(s, c, heads, at, specs) == SortReceipts(w, c, heads, at, specs)
  {
    forall x | x in heads
      ensures Judge(s, c, x, heads[x], at, specs) == Judge(w, c, x, heads[x], at, specs)
      ensures Judge(w, c, x, heads[x], at, specs) == None ==>
        ReceiptOf(s, c, x, heads[x], at, specs) == ReceiptOf(w, c, x, heads[x], at, specs)
    {
      JudgedSame(w, s, c, x, heads[x], at, specs);
    }
    SortReceiptsIs(w, c, heads, at, specs, SortReceipts(s, c, heads, at, specs));
  }

  lemma ReceiptsSame(w: Workspace, s: Workspace, c: Id, at: Time, specs: map<Id, SourceSpec>)
    requires SameInputs(w, s, c)
    ensures CurrentReceipts(s, c, at, specs) == CurrentReceipts(w, c, at, specs)
  {
    HeadsSame(w, s, c);
    if EvidenceHeads(w, c).Ok? {
      SortedSame(w, s, c, EvidenceHeads(w, c).value, at, specs);
    }
  }

  lemma ContextSame(w: Workspace, s: Workspace, desk: Config, c: Id, at: Time)
    requires SameInputs(w, s, c)
    requires EffectivePolicy(s.artifacts, c, CasePolicyOf(w, desk, c)) == EffectivePolicy(w.artifacts, c, CasePolicyOf(w, desk, c))
    ensures ContextOf(s, desk, c, at) == ContextOf(w, desk, c, at)
  {
    ReceiptsSame(w, s, c, at, desk.specs);
  }

  // ----- Time passing over complete evidence -----

  lemma JudgedLater(w: Workspace, c: Id, s: Id, h: SourceHead, at: Time, later: Time, specs: map<Id, SourceSpec>)
    requires c in w.cases && Judge(w, c, s, h, at, specs) == None && at <= later
    ensures Judge(w, c, s, h, later, specs) ==
      if ReceiptOf(w, c, s, h, at, specs).expiresAt <= later then Some(Expired) else None
  {
  }

  ghost predicate Unexpired(receipts: map<Id, Receipt>, at: Time) {
    forall s | s in receipts :: at < receipts[s].expiresAt
  }

  lemma ReceiptsLater(w: Workspace, c: Id, at: Time, later: Time, specs: map<Id, SourceSpec>)
    requires c in w.cases && CurrentReceipts(w, c, at, specs).Ok? && at <= later
    requires CurrentReceipts(w, c, at, specs).value.rejected == map[]
    ensures CurrentReceipts(w, c, later, specs).Ok?
    ensures var before, after := CurrentReceipts(w, c, at, specs).value, CurrentReceipts(w, c, later, specs).value;
      && (Unexpired(before.accepted, later) ==> after == before)
      && (!Unexpired(before.accepted, later) ==> after.accepted != before.accepted)
  {
    var heads := EvidenceHeads(w, c).value;
    var before, after := SortReceipts(w, c, heads, at, specs), SortReceipts(w, c, heads, later, specs);
    forall s | s in heads
      ensures s in before.accepted && before.accepted[s] == ReceiptOf(w, c, s, heads[s], at, specs)
      ensures Judge(w, c, s, heads[s], later, specs) == if before.accepted[s].expiresAt <= later then Some(Expired) else None
    {
      assert s !in before.rejected;
      JudgedLater(w, c, s, heads[s], at, later, specs);
    }
    if Unexpired(before.accepted, later) {
      SortReceiptsIs(w, c, heads, later, specs, before);
    } else {
      var s :| s in before.accepted && before.accepted[s].expiresAt <= later;
      assert s !in after.accepted;
    }
  }

  /** Complete evidence stays exactly as it is until its first receipt expires, and is different from then on. */
  lemma ContextLater(w: Workspace, desk: Config, c: Id, at: Time, later: Time)
    requires c in w.cases && ContextOf(w, desk, c, at).Ok? && ContextOf(w, desk, c, at).value.complete && at <= later
    ensures ContextOf(w, desk, c, later).Ok?
    ensures ContextOf(w, desk, c, later) == ContextOf(w, desk, c, at) <==> Unexpired(ContextOf(w, desk, c, at).value.receipts, later)
  {
    ReceiptsLater(w, c, at, later, desk.specs);
  }

  // ----- What a draft carries -----

  ghost predicate Drafted(draft: Carried, c: Id) {
    && draft.Draft? && draft.report.caseId == c
    && draft.report.caseVersion == draft.report.basis.riskCase.version && draft.report.basis.riskCase.status == Open
    && EvidenceEvents(draft.report.trace) == if draft.external.Some? then [EvidenceInspect(draft.external.value)] else []
  }

  lemma EventsOf(a: TraceEvent, rest: seq<TraceEvent>)
    ensures EvidenceEvents([a] + rest) == (if a.EvidenceInspect? then [a] else []) + EvidenceEvents(rest)
  {
    assert ([a] + rest)[1..] == rest;
  }

  // The trace of a draft: the case, its dependents, the evidence if any was read, precedents if they were asked for.
  lemma DraftTrace(w: Workspace, actor: Actor, c: Id, env: Env, withPrecedents: bool)
    returns (refs: set<Id>, deps: set<Id>, lookup: seq<TraceEvent>)
    requires c in w.cases && DraftReport(w, actor, c, env, withPrecedents).Ok?
    ensures var draft := DraftReport(w, actor, c, env, withPrecedents).value;
      && draft.Draft? && draft.report.caseId == c && draft.report.caseVersion == w.cases[c].version
      && draft.report.basis.riskCase == w.cases[c] && w.cases[c].status == Open
      && draft.report.trace == [CaseInspect(refs), DependenciesTrace(deps)]
           + (if draft.external.Some? then [EvidenceInspect(draft.external.value)] else []) + lookup
    ensures lookup == [] || (|lookup| == 1 && lookup[0].PrecedentLookup?)
  {
    var draft := DraftReport(w, actor, c, env, withPrecedents).value;
    refs, deps := draft.report.caseRefs, draft.report.affected;
    lookup := if withPrecedents then [PrecedentLookup(draft.report.precedents)] else [];
  }

  lemma TraceEvidence(refs: set<Id>, deps: set<Id>, external: Option<Context>, lookup: seq<TraceEvent>)
    requires lookup == [] || (|lookup| == 1 && lookup[0].PrecedentLookup?)
    ensures var inspect := if external.Some? then [EvidenceInspect(external.value)] else [];
      EvidenceEvents([CaseInspect(refs), DependenciesTrace(deps)] + inspect + lookup) == inspect
  {
    var inspect := if external.Some? then [EvidenceInspect(external.value)] else [];
    assert [CaseInspect(refs), DependenciesTrace(deps)] + inspect + lookup
      == [CaseInspect(refs)] + ([DependenciesTrace(deps)] + (inspect + lookup));
    EventsOf(CaseInspect(refs), [DependenciesTrace(deps)] + (inspect + lookup));
    EventsOf(DependenciesTrace(deps), inspect + lookup);
    if external.Some? {
      EventsOf(EvidenceInspect(external.value), lookup);
    } else {
      assert inspect + lookup == lookup;
    }
    if lookup != [] {
      EventsOf(lookup[0], []);
      assert lookup == [lookup[0]] + [];
    }
  }

  lemma DraftIsDrafted(w: Workspace, actor: Actor, c: Id, env: Env, withPrecedents: bool)
    requires c in w.cases && DraftReport(w, actor, c, env, withPrecedents).Ok?
    ensures var draft := DraftReport(w, actor, c, env, withPrecedents).value;
      Drafted(draft, c) && draft.report.investigatorId == actor.actorId
  {
    var draft := DraftReport(w, actor, c, env, withPrecedents).value;
    var refs, deps, lookup := DraftTrace(w, actor, c, env, withPrecedents);
    TraceEvidence(refs, deps, draft.external, lookup);
  }

  // ----- Storing the report -----

  lemma BundleKeepsLinks(a: map<Key, Artifact>, reportId: Id, v: Artifact, cases: set<Id>)
    requires BundleKey(reportId) !in a && v.BundleArtifact?
    ensures LinksOf(a[BundleKey(reportId) := v], cases) == LinksOf(a, cases)
  {
  }

  lemma BundleKeepsAllLinks(a: map<Key, Artifact>, reportId: Id, v: Artifact)
    requires BundleKey(reportId) !in a && v.BundleArtifact?
    ensures forall cases :: LinksOf(a, cases) == LinksOf(a[BundleKey(reportId) := v], cases)
  {
    forall cases
      ensures LinksOf(a[BundleKey(reportId) := v], cases) == LinksOf(a, cases)
    {
      BundleKeepsLinks(a, reportId, v, cases);
    }
  }

  lemma WithReportInputs(w: Workspace, draft: Carried, c: Id)
    requires draft.Draft? && draft.external.Some? && draft.report.caseId == c && c in w.cases && Keyed(w.artifacts)
    requires BundleKey(draft.report.reportId) !in w.artifacts
    ensures SameInputs(w, WithReport(w, draft), c) && SameGround(w, WithReport(w, draft))
    ensures Guard(WithReport(w, draft).artifacts, c) == Guard(w.artifacts, c)
  {
    var v := BundleArtifact(draft.report.reportId, c, draft.report, draft.external.value);
    var b := w.artifacts[BundleKey(draft.report.reportId) := v];
    assert Keyed(b) && SameEvidence(w.artifacts, b) by {
      PutGrows(w.artifacts, BundleKey(draft.report.reportId), v);
    }
    BundleKeepsAllLinks(w.artifacts, draft.report.reportId, v);
    assert WithReport(w, draft).artifacts == b;
  }

  lemma BasesSame(w: Workspace, s: Workspace, scope: Scope)
    requires SameGround(w, s) && s.tasks == w.tasks
    ensures BasesOf(s, Affected(s.tasks, scope)) == BasesOf(w, Affected(w.tasks, scope))
  {
    var tasks := Affected(w.tasks, scope);
    forall k | k in tasks
      ensures BasisOf(s, k) == BasisOf(w, k)
    {
      BasisFrame(w, s, k);
    }
    if AllHave(w, tasks) {
      BasesAre(s, tasks, BasesOf(w, tasks));
    } else {
      SomeFirstWithout(w, tasks);
      var k :| FirstWithout(w, tasks, k);
      assert FirstWithout(s, tasks, k);
      BasesAre(w, tasks, Err(BasisOf(w, k).error));
      BasesAre(s, tasks, Err(BasisOf(w, k).error));
    }
  }

  lemma BasisSame(w: Workspace, s: Workspace, c: Id)
    requires SameInputs(w, s, c) && SameGround(w, s) && s.tasks == w.tasks && s.lessons == w.lessons
    ensures InvestigationBasisOf(s, c) == InvestigationBasisOf(w, c)
  {
    BasesSame(w, s, w.cases[c].scope);
    HeadsSame(w, s, c);
    assert ActivePrecedents(s, c) == ActivePrecedents(w, c);
  }

  /**
   Self-stability: storing a report together with the evidence it was drafted on changes neither the evidence
   context, at any instant, nor the investigation basis of its case.
   */
  lemma StoringKeepsContextAndBasis(w: Workspace, draft: Carried, desk: Config, c: Id, at: Time)
    requires c in w.cases && Keyed(w.artifacts)
    requires Drafted(draft, c) && draft.external.Some? && BundleKey(draft.report.reportId) !in w.artifacts
    requires ReportContext(w, desk, c, at) == Ok(draft.external)
    ensures var s := WithReport(w, draft);
      && InvestigationBasisOf(s, c) == InvestigationBasisOf(w, c)
      && forall t: Time :: ReportContext(s, desk, c, t) == ReportContext(w, desk, c, t)
  {
    var s := WithReport(w, draft);
    WithReportInputs(w, draft, c);
    BasisSame(w, s, c);
    var policy := CasePolicyOf(w, desk, c);
    AcceptedAreOwed(w, c, at, desk.specs);
    FloorFixpoint(w.artifacts, c, policy, draft.report.reportId, draft.report, draft.external.value);
    StillNeeded(w, s, draft, desk, c);
    forall t: Time
      ensures ReportContext(s, desk, c, t) == ReportContext(w, desk, c, t)
    {
      ContextSame(w, s, desk, c, t);
    }
  }

  lemma StillNeeded(w: Workspace, s: Workspace, draft: Carried, desk: Config, c: Id)
    requires c in w.cases && draft.Draft? && draft.external.Some? && s == WithReport(w, draft)
    requires BundleKey(draft.report.reportId) !in w.artifacts && NeedsSources(w, desk, c)
    ensures NeedsSources(s, desk, c)
  {
    ObligationsPut(w.artifacts, BundleKey(draft.report.reportId),
                   BundleArtifact(draft.report.reportId, draft.report.caseId, draft.report, draft.external.value), c);
  }

  // ----- A committed report is valid until its first receipt expires -----

  // Nothing the report of case c rests on has changed from w to s, and s stores the report.
  ghost predicate Undisturbed(w: Workspace, s: Workspace, desk: Config, c: Id, report: ReportBody)
    requires c in w.cases
  {
    && c in s.cases && s.cases[c] == w.cases[c]
    && report.reportId in s.reports && s.reports[report.reportId] == Report(report, report)
    && InvestigationBasisOf(s, c) == Ok(report.basis)
    && forall t: Time :: ReportContext(s, desk, c, t) == ReportContext(w, desk, c, t)
  }

  // Stored about an open case, on the present basis: all that is left to check is the evidence.
  ghost predicate Grounded(s: Workspace, c: Id, report: ReportBody) {
    && report.reportId in s.reports && s.reports[report.reportId] == Report(report, report) && report.caseId == c
    && c in s.cases && s.cases[c].status == Open && report.caseVersion == s.cases[c].version
    && InvestigationBasisOf(s, c) == Ok(report.basis)
  }

  lemma ValidAsEvidence(s: Workspace, desk: Config, c: Id, report: ReportBody, t: Time)
    requires Grounded(s, c, report)
    ensures ValidReport(s, Some(desk), c, report.reportId, t) ==
      match ValidateReport(s, desk, c, report, t)
        case Ok(_) => Ok(Report(report, report))
        case Err(e) => Err(e)
  {
  }

  // The evidence a validated draft quotes is complete, agrees, and is read again until it expires.
  lemma QuotedLater(w: Workspace, draft: Carried, desk: Config, c: Id, at: Time, t: Time)
    requires c in w.cases && Drafted(draft, c) && draft.external.Some? && at <= t
    requires ReportContext(w, desk, c, at) == Ok(draft.external) && NeedsSources(w, desk, c)
    requires draft.external.value.complete
    ensures ReportContext(w, desk, c, t).Ok? && ReportContext(w, desk, c, t).value.Some?
    ensures ReportContext(w, desk, c, t) == Ok(draft.external) <==> Unexpired(draft.external.value.receipts, t)
  {
    ContextLater(w, desk, c, at, t);
  }

  lemma FitOrStale(s: Workspace, draft: Carried, desk: Config, c: Id, t: Time)
    requires c in s.cases && Drafted(draft, c) && draft.external.Some?
    requires ReportContext(s, desk, c, t).Ok? && ReportContext(s, desk, c, t).value.Some?
    requires draft.external.value.complete && draft.external.value.conflicts == {}
    ensures ValidateReport(s, desk, c, draft.report, t) ==
      if ReportContext(s, desk, c, t) == Ok(draft.external) then Ok(()) else Err(SourceReportStale)
  {
  }

  lemma ValidUntilExpiry(w: Workspace, s: Workspace, draft: Carried, desk: Config, c: Id, at: Time, t: Time)
    requires c in w.cases && Drafted(draft, c) && draft.external.Some? && at <= t
    requires draft.report.basis.riskCase == w.cases[c] && NeedsSources(w, desk, c)
    requires ReportContext(w, desk, c, at) == Ok(draft.external)
    requires draft.external.value.complete && draft.external.value.conflicts == {}
    requires Undisturbed(w, s, desk, c, draft.report)
    ensures ValidReport(s, Some(desk), c, draft.report.reportId, t) ==
      if Unexpired(draft.external.value.receipts, t) then Ok(Report(draft.report, draft.report)) else Err(SourceReportStale)
  {
    QuotedLater(w, draft, desk, c, at, t);
    assert ReportContext(s, desk, c, t) == ReportContext(w, desk, c, t);
    FitOrStale(s, draft, desk, c, t);
    ValidAsEvidence(s, desk, c, draft.report, t);
  }

  /** An accepted investigation whose draft quotes evidence. */
  ghost predicate CommitsEvidence(w: Workspace, call: Call, c: Id, desk: Config) {
    && Accepted(w, call) && call.command == Investigate(c)
    && Drafted(call.carried, c) && call.carried.external.Some? && call.env.desk == Some(desk)
  }

  lemma CommitChecks(w: Workspace, call: Call, c: Id, desk: Config)
    requires CommitsEvidence(w, call, c, desk)
    ensures c in w.cases && InvestigationBasisOf(w, c) == Ok(call.carried.report.basis)
    ensures call.carried.report.basis.riskCase == w.cases[c]
    ensures InvestigateChange(w, call, c).Ok? && InvestigateChange(w, call, c).value.state == WithReport(w, call.carried)
    ensures Next(w, call) == Record(w, WithReport(w, call.carried), call, Reported(Report(call.carried.report, call.carried.report)))
  {
    NextMeaning(w, call);
  }

  lemma CommitValidated(w: Workspace, call: Call, c: Id, desk: Config)
    requires c in w.cases && InvestigateChange(w, call, c).Ok? && call.env.desk == Some(desk)
    requires call.carried.Draft? && call.carried.external.Some?
    ensures ValidateReport(w, desk, c, call.carried.report, call.env.at).Ok?
  {
  }

  lemma ValidatedContext(w: Workspace, draft: Carried, desk: Config, c: Id, at: Time)
    requires c in w.cases && Drafted(draft, c) && draft.external.Some?
    requires ValidateReport(w, desk, c, draft.report, at).Ok? && NeedsSources(w, desk, c)
    ensures ReportContext(w, desk, c, at) == Ok(draft.external)
    ensures draft.external.value.complete && draft.external.value.conflicts == {}
  {
  }

  // Recording the event leaves everything the report rests on alone.
  lemma RecordUndisturbed(w: Workspace, s: Workspace, s': Workspace, desk: Config, c: Id, report: ReportBody)
    requires c in w.cases && Undisturbed(w, s, desk, c, report)
    requires s' == s.(revision := s'.revision, audit := s'.audit, completed := s'.completed)
    requires Keyed(s.artifacts)
    ensures Undisturbed(w, s', desk, c, report)
  {
    BasisSame(s, s', c);
    forall t: Time
      ensures ReportContext(s', desk, c, t) == ReportContext(s, desk, c, t)
    {
      ContextSame(s, s', desk, c, t);
    }
  }

  /**
   A report is valid from its commit on, at every instant while the state it rests on is undisturbed, exactly until
   the first of the receipts it quotes expires; from then on it is refused as stale.
   */
  lemma CommittedReportIsValid(w: Workspace, call: Call, c: Id, desk: Config, t: Time)
    requires CommitsEvidence(w, call, c, desk) && Keyed(w.artifacts) && FreshCall(w, call) && NeedsSources(w, desk, c)
    requires call.env.at <= t
    ensures var s, draft := Next(w, call), call.carried;
      && c in w.cases && Undisturbed(w, s, desk, c, draft.report)
      && ValidReport(s, Some(desk), c, draft.report.reportId, t) ==
           (if Unexpired(draft.external.value.receipts, t) then Ok(Report(draft.report, draft.report)) else Err(SourceReportStale))
      && Unexpired(draft.external.value.receipts, call.env.at)
  {
    var draft, at := call.carried, call.env.at;
    CommitChecks(w, call, c, desk);
    CommitValidated(w, call, c, desk);
    ValidatedContext(w, draft, desk, c, at);
    StoringKeepsContextAndBasis(w, draft, desk, c, at);
    var s := WithReport(w, draft);
    WithReportInputs(w, draft, c);
    assert Undisturbed(w, s, desk, c, draft.report);
    RecordUndisturbed(w, s, Next(w, call), desk, c, draft.report);
    ValidUntilExpiry(w, Next(w, call), draft, desk, c, at, t);
    QuotedUnexpired(w, desk, c, at);
  }

  lemma AcceptedUnexpired(w: Workspace, c: Id, at: Time, specs: map<Id, SourceSpec>)
    requires c in w.cases && CurrentReceipts(w, c, at, specs).Ok?
    ensures Unexpired(CurrentReceipts(w, c, at, specs).value.accepted, at)
  {
  }

  lemma QuotedUnexpired(w: Workspace, desk: Config, c: Id, at: Time)
    requires c in w.cases && ContextOf(w, desk, c, at).Ok?
    ensures Unexpired(ContextOf(w, desk, c, at).value.receipts, at)
  {
    AcceptedUnexpired(w, c, at, desk.specs);
    assert ContextOf(w, desk, c, at).value.receipts == CurrentReceipts(w, c, at, desk.specs).value.accepted;
  }

  // No desk and nothing owed, or a desk without policy for the case and nothing owed.
  predicate Sourceless(w: Workspace, desk: Option<Config>, c: Id)
    requires c in w.cases
  {
    if desk.None? then !HasObligations(w.artifacts, c) else !NeedsSources(w, desk.value, c)
  }

  /** Without policy or obligations, a committed report is valid at every instant, on its basis alone. */
  lemma SourcelessReportIsValid(w: Workspace, call: Call, c: Id, t: Time)
    requires Accepted(w, call) && call.command == Investigate(c) && Keyed(w.artifacts)
    requires Drafted(call.carried, c) && call.carried.external.None?
    requires c in w.cases && Sourceless(w, call.env.desk, c)
    ensures var s := Next(w, call);
      && c in s.cases
      && ValidReport(s, call.env.desk, c, call.carried.report.reportId, t)
           == Ok(Report(call.carried.report, call.carried.report))
  {
    NextMeaning(w, call);
    var s := Next(w, call);
    SelfGrows(w.artifacts);
    BasisSame(w, s, c);
    SourcelessValid(s, call.env.desk, c, call.carried.report, t);
  }

  lemma SourcelessValid(s: Workspace, desk: Option<Config>, c: Id, report: ReportBody, t: Time)
    requires Grounded(s, c, report) && EvidenceEvents(report.trace) == [] && Sourceless(s, desk, c)
    ensures ValidReport(s, desk, c, report.reportId, t) == Ok(Report(report, report))
  {
  }
}
