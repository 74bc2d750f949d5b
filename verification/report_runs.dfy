/** A committed report on a run: it survives its handoff, its acceptance and everything else that spares its case. */
module ReportRuns {
  import opened Common
  import opened CaseworkModels
  import opened SourceGuard
  import opened EvidenceDesk
  import opened CasePolicy
  import opened Commands
  import opened Envelope
  import opened Safety
  import opened Integrity
  import opened ArtifactGrowth
  import opened ReportStability
  import opened Runs

  // ----- What reading a report depends on -----

  ghost predicate SameContexts(w: Workspace, s: Workspace, c: Id)
    requires c in w.cases && c in s.cases
  {
    forall desk: Config, t: Time :: ReportContext(s, desk, c, t) == ReportContext(w, desk, c, t)
  }

  // Case, basis, obligations and evidence of c are the same, and every report is still stored.
  ghost predicate SameReading(w: Workspace, s: Workspace, c: Id) {
    && c in w.cases && c in s.cases && s.cases[c] == w.cases[c]
    && InvestigationBasisOf(s, c) == InvestigationBasisOf(w, c)
    && HasObligations(s.artifacts, c) == HasObligations(w.artifacts, c)
    && SameContexts(w, s, c) && RecordsKept(w.reports, s.reports)
  }

  lemma ReadingThrough(a: Workspace, b: Workspace, s: Workspace, c: Id)
    requires SameReading(a, b, c) && SameReading(b, s, c)
    ensures SameReading(a, s, c)
  {
    forall desk: Config, t: Time
      ensures ReportContext(s, desk, c, t) == ReportContext(a, desk, c, t)
    {
      assert ReportContext(s, desk, c, t) == ReportContext(b, desk, c, t);
      assert ReportContext(b, desk, c, t) == ReportContext(a, desk, c, t);
    }
  }

  lemma ReadAlike(w: Workspace, s: Workspace, c: Id, desk: Option<Config>, r: Id, t: Time)
    requires SameReading(w, s, c) && r in w.reports
    ensures ValidReport(s, desk, c, r, t) == ValidReport(w, desk, c, r, t)
  {
    if desk.Some? {
      assert ReportContext(s, desk.value, c, t) == ReportContext(w, desk.value, c, t);
    }
  }

  // ----- Artifacts that do not concern a case -----

  ghost predicate SameLinks(a: map<Key, Artifact>, b: map<Key, Artifact>) {
    forall cases :: LinksOf(a, cases) == LinksOf(b, cases)
  }

  ghost predicate Spares(a: map<Key, Artifact>, b: map<Key, Artifact>, c: Id) {
    && Keyed(b) && SameEvidence(a, b) && SameLinks(a, b)
    && Obligations(b, c) == Obligations(a, c) && Guard(b, c) == Guard(a, c)
  }

  // Storing what obliges c to nothing, where nothing that obliged it was stored.
  lemma InertObligations(a: map<Key, Artifact>, k: Key, v: Artifact, c: Id)
    requires Contribution(v, c) == NO_FLOOR && (k in a ==> Contribution(a[k], c) == NO_FLOOR)
    ensures Obligations(a[k := v], c) == Obligations(a, c)
  {
    var b := a[k := v];
    forall j | j in b
      ensures Below(Contribution(b[j], c), Obligations(a, c))
    {
      if j != k {
        ContributionBelow(a, c, j);
      }
    }
    ObligationsLeast(b, c, Obligations(a, c));
    forall j | j in a
      ensures Below(Contribution(a[j], c), Obligations(b, c))
    {
      if j != k {
        ContributionBelow(b, c, j);
      }
    }
    ObligationsLeast(a, c, Obligations(b, c));
    BelowAntisymmetric(Obligations(a, c), Obligations(b, c));
  }

  predicate Aside(k: Key) {
    k.ReviewKey? || k.BundleKey?
  }

  lemma AsideKeepsLinks(a: map<Key, Artifact>, k: Key, v: Artifact, cases: set<Id>)
    requires Keyed(a) && KeyedAt(k, v) && Aside(k)
    ensures LinksOf(a[k := v], cases) == LinksOf(a, cases)
  {
    if k in a {
      assert KeyedAt(k, a[k]);
    }
  }

  lemma InertPut(a: map<Key, Artifact>, k: Key, v: Artifact, c: Id)
    requires Keyed(a) && KeyedAt(k, v) && Aside(k)
    requires Contribution(v, c) == NO_FLOOR && (k in a ==> Contribution(a[k], c) == NO_FLOOR)
    ensures Spares(a, a[k := v], c)
  {
    InertObligations(a, k, v, c);
    forall cases
      ensures LinksOf(a, cases) == LinksOf(a[k := v], cases)
    {
      AsideKeepsLinks(a, k, v, cases);
    }
  }

  lemma SparesItself(a: map<Key, Artifact>, c: Id)
    requires Keyed(a)
    ensures Spares(a, a, c)
  {
  }

  // ----- Commands that spare a case -----

  /** Commands that leave the report of a case as valid as it was: they draft about other cases, or pass reports on. */
  predicate Sparing(command: Command, c: Id) {
    match command
    case Bootstrap => true
    case QuarantineNote(_, _) => true
    case Investigate(other) => other != c
    case HandoffReport(_, _, _) => true
    case AcceptHandoff(_) => true
    case PrepareReview(_, _) => true
    case _ => false
  }

  lemma OtherBundleSpares(a: map<Key, Artifact>, reportId: Id, other: Id, root: ReportBody, bundle: Context, c: Id)
    requires Keyed(a) && BundleKey(reportId) !in a && other != c
    ensures Spares(a, a[BundleKey(reportId) := BundleArtifact(reportId, other, root, bundle)], c)
  {
    InertPut(a, BundleKey(reportId), BundleArtifact(reportId, other, root, bundle), c);
  }

  lemma OtherReportSpares(w: Workspace, draft: Carried, c: Id)
    requires draft.Draft? && draft.report.caseId != c && Keyed(w.artifacts)
    requires BundleKey(draft.report.reportId) !in w.artifacts
    ensures Spares(w.artifacts, WithReport(w, draft).artifacts, c)
  {
    var body, after := draft.report, WithReport(w, draft).artifacts;
    if draft.external.None? {
      assert after == w.artifacts;
      SparesItself(w.artifacts, c);
    } else {
      assert after == w.artifacts[BundleKey(body.reportId) :=
        BundleArtifact(body.reportId, body.caseId, body, draft.external.value)];
      OtherBundleSpares(w.artifacts, body.reportId, body.caseId, body, draft.external.value, c);
    }
  }

  lemma InvestigateSpares(w: Workspace, call: Call, other: Id, c: Id)
    requires InvestigateChange(w, call, other).Ok? && other != c && Keyed(w.artifacts) && FreshCall(w, call)
    ensures Spares(w.artifacts, InvestigateChange(w, call, other).value.state.artifacts, c)
  {
    InvestigateFrame(w, call, other);
    OtherReportSpares(w, call.carried, c);
  }

  lemma PrepareSpares(w: Workspace, call: Call, t: Id, d: Id, c: Id)
    requires PrepareChange(w, call, t, d).Ok? && Keyed(w.artifacts)
    ensures Spares(w.artifacts, PrepareChange(w, call, t, d).value.state.artifacts, c)
  {
    if ReviewKey(t, d) in w.artifacts {
      assert KeyedAt(ReviewKey(t, d), w.artifacts[ReviewKey(t, d)]);
    }
    InertPut(w.artifacts, ReviewKey(t, d), ReviewArtifact(t, d, w.decisions[d].proofRoot), c);
  }

  lemma SparingArtifacts(w: Workspace, call: Call, c: Id)
    requires Sparing(call.command, c) && Change(w, call).Ok? && Keyed(w.artifacts) && FreshCall(w, call)
    ensures Spares(w.artifacts, Change(w, call).value.state.artifacts, c)
  {
    SparesItself(w.artifacts, c);
    match call.command
    case Investigate(other) => InvestigateSpares(w, call, other, c);
    case HandoffReport(h, reportId, reviewerId) => HandoffFrame(w, call, h, reportId, reviewerId);
    case AcceptHandoff(h) => AcceptFrame(w, call, h);
    case PrepareReview(t, d) => PrepareSpares(w, call, t, d, c);
    case _ =>
  }

  // Only clerical records and artifacts that spare the case differ.
  lemma SparedReading(w: Workspace, s: Workspace, c: Id)
    requires c in w.cases && CoreUnchanged(w, s) && Keyed(w.artifacts) && Spares(w.artifacts, s.artifacts, c)
    requires RecordsKept(w.reports, s.reports)
    ensures SameReading(w, s, c)
  {
    BasisSame(w, s, c);
    forall desk: Config, t: Time
      ensures ReportContext(s, desk, c, t) == ReportContext(w, desk, c, t)
    {
      ContextSame(w, s, desk, c, t);
    }
  }

  lemma SparingNext(w: Workspace, call: Call, c: Id)
    requires Inv(w) && FreshCall(w, call) && Accepted(w, call) && Sparing(call.command, c)
    ensures CoreUnchanged(w, Next(w, call)) && Spares(w.artifacts, Next(w, call).artifacts, c)
  {
    NextMeaning(w, call);
    ClericalFrame(w, call);
    SparingArtifacts(w, call, c);
  }

  lemma NextSpares(w: Workspace, call: Call, c: Id)
    requires Inv(w) && FreshCall(w, call) && c in w.cases && (Accepted(w, call) ==> Sparing(call.command, c))
    ensures SameReading(w, Next(w, call), c)
  {
    NextMeaning(w, call);
    if Accepted(w, call) {
      SparingNext(w, call, c);
      NextKeepsIntact(w, call);
      SparedReading(w, Next(w, call), c);
    }
  }

  // ----- On a run -----

  // From i up to j, every call that took effect spares the case.
  ghost predicate Spared(ws: seq<Workspace>, calls: seq<Call>, i: nat, j: nat, c: Id)
    requires i <= j <= |calls| && |ws| == |calls| + 1
  {
    forall k | i <= k < j :: CommitsAt(ws, k) ==> Sparing(calls[k].command, c)
  }

  lemma StepSpares(ws: seq<Workspace>, calls: seq<Call>, tenantId: Id, i: nat, c: Id)
    requires Run(ws, calls, tenantId) && i < |calls| && c in ws[i].cases
    requires CommitsAt(ws, i) ==> Sparing(calls[i].command, c)
    ensures SameReading(ws[i], ws[i + 1], c)
  {
    RunStep(ws, calls, tenantId, i);
    CommitsIffAccepted(ws, calls, tenantId, i);
    NextSpares(ws[i], calls[i], c);
  }

  lemma {:induction false} RunSpares(ws: seq<Workspace>, calls: seq<Call>, tenantId: Id, i: nat, j: nat, c: Id)
    requires Run(ws, calls, tenantId) && i <= j < |ws| && c in ws[i].cases && Spared(ws, calls, i, j, c)
    ensures SameReading(ws[i], ws[j], c)
    decreases j
  {
    if i < j {
      RunSpares(ws, calls, tenantId, i, j - 1, c);
      StepSpares(ws, calls, tenantId, j - 1, c);
      ReadingThrough(ws[i], ws[j - 1], ws[j], c);
    }
  }

  /**
   Whatever spares a case leaves every stored report about it exactly as valid as it was, or refused with the same
   error, at every instant and under every configuration.
   */
  lemma SparedReportsRead(ws: seq<Workspace>, calls: seq<Call>, tenantId: Id, i: nat, j: nat, c: Id,
                          desk: Option<Config>, r: Id, t: Time)
    requires Run(ws, calls, tenantId) && i <= j < |ws| && c in ws[i].cases && Spared(ws, calls, i, j, c)
    requires r in ws[i].reports
    ensures c in ws[j].cases && ValidReport(ws[j], desk, c, r, t) == ValidReport(ws[i], desk, c, r, t)
  {
    RunSpares(ws, calls, tenantId, i, j, c);
    ReadAlike(ws[i], ws[j], c, desk, r, t);
  }

  /**
   The drafted report is stored, and from an instant on it is valid exactly until the first receipt it quotes has
   expired, and then refused as stale.
   */
  ghost predicate ReadsUntilExpiry(s: Workspace, desk: Config, c: Id, draft: Carried, from: Time) {
    && draft.Draft? && draft.external.Some? && c in s.cases && draft.report.reportId in s.reports
    && forall t: Time | from <= t ::
         ValidReport(s, Some(desk), c, draft.report.reportId, t) ==
           if Unexpired(draft.external.value.receipts, t) then Ok(Report(draft.report, draft.report))
           else Err(SourceReportStale)
  }

  lemma CommittedReads(w: Workspace, call: Call, c: Id, desk: Config)
    requires Inv(w) && FreshCall(w, call) && CommitsEvidence(w, call, c, desk) && NeedsSources(w, desk, c)
    ensures ReadsUntilExpiry(Next(w, call), desk, c, call.carried, call.env.at)
  {
    var draft, s := call.carried, Next(w, call);
    CommittedReportIsValid(w, call, c, desk, call.env.at);
    forall t: Time | call.env.at <= t
      ensures ValidReport(s, Some(desk), c, draft.report.reportId, t) ==
        if Unexpired(draft.external.value.receipts, t) then Ok(Report(draft.report, draft.report))
        else Err(SourceReportStale)
    {
      CommittedReportIsValid(w, call, c, desk, t);
    }
  }

  lemma ReadsOn(w: Workspace, s: Workspace, desk: Config, c: Id, draft: Carried, from: Time)
    requires SameReading(w, s, c) && ReadsUntilExpiry(w, desk, c, draft, from)
    ensures ReadsUntilExpiry(s, desk, c, draft, from)
  {
    forall t: Time | from <= t
      ensures ValidReport(s, Some(desk), c, draft.report.reportId, t)
        == ValidReport(w, Some(desk), c, draft.report.reportId, t)
    {
      ReadAlike(w, s, c, Some(desk), draft.report.reportId, t);
    }
  }

  // Call i committed a report with evidence, whose case needs sources.
  ghost predicate CommitsEvidenceAt(ws: seq<Workspace>, calls: seq<Call>, i: nat, c: Id, desk: Config)
    requires i < |calls| && |ws| == |calls| + 1
  {
    CommitsEvidence(ws[i], calls[i], c, desk) && NeedsSources(ws[i], desk, c)
  }

  lemma CommittedReadsAt(ws: seq<Workspace>, calls: seq<Call>, tenantId: Id, i: nat, c: Id, desk: Config)
    requires Run(ws, calls, tenantId) && i < |calls| && CommitsEvidenceAt(ws, calls, i, c, desk)
    ensures ReadsUntilExpiry(ws[i + 1], desk, c, calls[i].carried, calls[i].env.at)
  {
    RunStep(ws, calls, tenantId, i);
    CommittedReads(ws[i], calls[i], c, desk);
  }

  lemma ReadsOnRun(ws: seq<Workspace>, calls: seq<Call>, tenantId: Id, i: nat, j: nat, c: Id, desk: Config,
                   draft: Carried, from: Time)
    requires Run(ws, calls, tenantId) && i <= j < |ws| && Spared(ws, calls, i, j, c)
    requires ReadsUntilExpiry(ws[i], desk, c, draft, from)
    ensures ReadsUntilExpiry(ws[j], desk, c, draft, from)
  {
    RunSpares(ws, calls, tenantId, i, j, c);
    ReadsOn(ws[i], ws[j], desk, c, draft, from);
  }

  /**
   On a run, a report that was committed with evidence is valid at every later point up to which its case is spared
   (it may have been handed off and accepted, and any calls refused or replayed), at every instant from its commit
   exactly until the first receipt it quotes expires; from then on it is refused as stale.
   */
  lemma ReportStaysValid(ws: seq<Workspace>, calls: seq<Call>, tenantId: Id, i: nat, j: nat, c: Id, desk: Config)
    requires Run(ws, calls, tenantId) && i < j < |ws| && CommitsEvidenceAt(ws, calls, i, c, desk)
    requires Spared(ws, calls, i + 1, j, c)
    ensures ReadsUntilExpiry(ws[j], desk, c, calls[i].carried, calls[i].env.at)
  {
    CommittedReadsAt(ws, calls, tenantId, i, c, desk);
    ReadsOnRun(ws, calls, tenantId, i + 1, j, c, desk, calls[i].carried, calls[i].env.at);
  }

  // An accepted investigation without evidence, of a case that has no policy and owes nothing.
  ghost predicate CommitsPlainly(w: Workspace, call: Call, c: Id) {
    && Accepted(w, call) && call.command == Investigate(c) && Drafted(call.carried, c) && call.carried.external.None?
    && c in w.cases && Sourceless(w, call.env.desk, c)
  }

  // The report is stored, and valid at every instant.
  ghost predicate ReadsAlways(s: Workspace, desk: Option<Config>, c: Id, report: ReportBody) {
    && c in s.cases && report.reportId in s.reports
    && forall t: Time :: ValidReport(s, desk, c, report.reportId, t) == Ok(Report(report, report))
  }

  lemma PlainlyReads(w: Workspace, call: Call, c: Id)
    requires Inv(w) && CommitsPlainly(w, call, c)
    ensures ReadsAlways(Next(w, call), call.env.desk, c, call.carried.report)
  {
    var report, s := call.carried.report, Next(w, call);
    SourcelessReportIsValid(w, call, c, call.env.at);
    forall t: Time
      ensures ValidReport(s, call.env.desk, c, report.reportId, t) == Ok(Report(report, report))
    {
      SourcelessReportIsValid(w, call, c, t);
    }
  }

  lemma PlainlyReadsAt(ws: seq<Workspace>, calls: seq<Call>, tenantId: Id, i: nat, c: Id)
    requires Run(ws, calls, tenantId) && i < |calls| && CommitsPlainly(ws[i], calls[i], c)
    ensures ReadsAlways(ws[i + 1], calls[i].env.desk, c, calls[i].carried.report)
  {
    RunStep(ws, calls, tenantId, i);
    PlainlyReads(ws[i], calls[i], c);
  }

  lemma ReadsAlwaysOn(w: Workspace, s: Workspace, desk: Option<Config>, c: Id, report: ReportBody)
    requires SameReading(w, s, c) && ReadsAlways(w, desk, c, report)
    ensures ReadsAlways(s, desk, c, report)
  {
    forall t: Time
      ensures ValidReport(s, desk, c, report.reportId, t) == ValidReport(w, desk, c, report.reportId, t)
    {
      ReadAlike(w, s, c, desk, report.reportId, t);
    }
  }

  /** Without policy or obligations a committed report is valid at every instant, as long as its case is spared. */
  lemma PlainReportStaysValid(ws: seq<Workspace>, calls: seq<Call>, tenantId: Id, i: nat, j: nat, c: Id)
    requires Run(ws, calls, tenantId) && i < j < |ws| && CommitsPlainly(ws[i], calls[i], c)
    requires Spared(ws, calls, i + 1, j, c)
    ensures ReadsAlways(ws[j], calls[i].env.desk, c, calls[i].carried.report)
  {
    PlainlyReadsAt(ws, calls, tenantId, i, c);
    RunSpares(ws, calls, tenantId, i + 1, j, c);
    ReadsAlwaysOn(ws[i + 1], ws[j], calls[i].env.desk, c, calls[i].carried.report);
  }
}
