/** The life of a case: versions alternate, and every resolution is accounted for. */
module Lifecycle {
  import opened Common
  import opened CaseworkModels
  import opened CasePolicy
  import opened Commands
  import opened Envelope
  import opened Safety
  import opened Integrity

  // A handoff was made by the author of the report it names, and is for the case and the version of that report.
  ghost predicate Founded(handoff: Handoff, reports: map<Id, Report>) {
    && handoff.reportId in reports
    && var body := reports[handoff.reportId].body;
    && body.caseId == handoff.caseId && body.caseVersion == handoff.caseVersion
    && body.investigatorId == handoff.investigatorId
  }

  ghost predicate HandoffsFounded(handoffs: map<Id, Handoff>, reports: map<Id, Report>) {
    forall h | h in handoffs :: Founded(handoffs[h], reports)
  }

  /**
   Entry i of a case history is a resolution that an accepted handoff explains: its reviewer neither opened the case
   nor is the author of the report, and the report was about exactly the version before.
   */
  ghost predicate Accounted(h: seq<RiskCase>, i: nat, handoff: Handoff, reports: map<Id, Report>)
    requires 0 < i < |h|
  {
    && handoff.accepted && handoff.caseId == h[i].caseId && handoff.caseVersion == h[i - 1].version
    && h[i].resolvedBy == Some(handoff.reviewerId)
    && handoff.reviewerId != h[i - 1].openedBy && Founded(handoff, reports)
    && var report := reports[handoff.reportId].body;
    && handoff.reviewerId != report.investigatorId && report.basis.riskCase == h[i - 1]
  }

  ghost predicate EntryLawful(h: seq<RiskCase>, i: nat, c: Id, scope: Scope, handoffs: map<Id, Handoff>,
                              reports: map<Id, Report>)
    requires i < |h|
  {
    && h[i].caseId == c && h[i].scope == scope
    && (h[i].status == Open <==> h[i].version % 2 == 1)
    && (h[i].status == Resolved ==> i > 0 && exists k :: k in handoffs && Accounted(h, i, handoffs[k], reports))
  }

  ghost predicate HistoryLawful(h: seq<RiskCase>, c: Id, scope: Scope, handoffs: map<Id, Handoff>,
                                reports: map<Id, Report>) {
    forall i: nat | i < |h| :: EntryLawful(h, i, c, scope, handoffs, reports)
  }

  ghost predicate Lawful(w: Workspace) {
    HandoffsFounded(w.handoffs, w.reports) && CasesLawful(w)
  }

  ghost predicate CasesLawful(w: Workspace) {
    forall c | c in w.cases :: c in w.caseHistory
      && HistoryLawful(w.caseHistory[c], c, w.cases[c].scope, w.handoffs, w.reports)
  }

  // Handoffs are kept, apart from being accepted.
  ghost predicate HandoffsKept(a: map<Id, Handoff>, b: map<Id, Handoff>) {
    forall k | k in a :: k in b && (b[k] == a[k] || b[k] == a[k].(accepted := true))
  }

  lemma AccountedKept(h: seq<RiskCase>, h': seq<RiskCase>, i: nat, c: Id, scope: Scope,
                      handoffs: map<Id, Handoff>, handoffs': map<Id, Handoff>, reports: map<Id, Report>, reports': map<Id, Report>)
    requires i < |h| && h <= h' && EntryLawful(h, i, c, scope, handoffs, reports)
    requires HandoffsKept(handoffs, handoffs') && RecordsKept(reports, reports')
    ensures EntryLawful(h', i, c, scope, handoffs', reports')
  {
    assert h'[i] == h[i] && (i > 0 ==> h'[i - 1] == h[i - 1]);
    if h[i].status == Resolved {
      var k :| k in handoffs && Accounted(h, i, handoffs[k], reports);
      assert Accounted(h', i, handoffs'[k], reports');
    }
  }

  lemma SameHandoffsFounded(handoffs: map<Id, Handoff>, reports: map<Id, Report>, reports': map<Id, Report>)
    requires HandoffsFounded(handoffs, reports) && RecordsKept(reports, reports')
    ensures HandoffsFounded(handoffs, reports')
  {
    forall h | h in handoffs
      ensures Founded(handoffs[h], reports')
    {
      assert Founded(handoffs[h], reports);
    }
  }

  // Nothing happened to cases; handoffs and reports only grew.
  lemma LawfulKept(w: Workspace, s: Workspace)
    requires Lawful(w) && s.cases == w.cases && s.caseHistory == w.caseHistory
    requires HandoffsKept(w.handoffs, s.handoffs) && RecordsKept(w.reports, s.reports)
    requires HandoffsFounded(s.handoffs, s.reports)
    ensures Lawful(s)
  {
    forall c | c in s.cases
      ensures HistoryLawful(s.caseHistory[c], c, s.cases[c].scope, s.handoffs, s.reports)
    {
      var h := w.caseHistory[c];
      forall i: nat | i < |h|
        ensures EntryLawful(h, i, c, s.cases[c].scope, s.handoffs, s.reports)
      {
        AccountedKept(h, h, i, c, w.cases[c].scope, w.handoffs, s.handoffs, w.reports, s.reports);
      }
    }
  }

  // One case gained one lawful entry.
  lemma LawfulAppended(w: Workspace, s: Workspace, next: RiskCase)
    requires Lawful(w) && Tidy(w) && Advances(w.cases, next) && (next.caseId !in w.cases ==> next.version == 1)
    requires s.cases == WithCase(w, next).cases && s.caseHistory == WithCase(w, next).caseHistory
    requires s.handoffs == w.handoffs && s.reports == w.reports
    requires next.caseId in w.cases ==> next.status != w.cases[next.caseId].status
    requires next.caseId !in w.cases ==> next.status == Open
    requires next.status == Resolved ==>
      && next.caseId in w.cases
      && var longer := History(w.caseHistory, next.caseId) + [next];
      && |longer| > 1 && exists k :: k in w.handoffs && Accounted(longer, |longer| - 1, w.handoffs[k], w.reports)
    ensures Lawful(s)
  {
    forall c | c in s.cases
      ensures HistoryLawful(s.caseHistory[c], c, s.cases[c].scope, s.handoffs, s.reports)
    {
      var h, h' := History(w.caseHistory, c), s.caseHistory[c];
      forall i: nat | i < |h'|
        ensures EntryLawful(h', i, c, s.cases[c].scope, s.handoffs, s.reports)
      {
        if i < |h| {
          AccountedKept(h, h', i, c, w.cases[c].scope, w.handoffs, s.handoffs, w.reports, s.reports);
        } else if c in w.cases {
          assert EntryLawful(h, |h| - 1, c, w.cases[c].scope, w.handoffs, w.reports);
        }
      }
    }
  }

  // The case is open, the reviewer accepted a handoff for its present version and did not open it, and the report
  // handed off is by another author and on the present basis.
  ghost predicate RestsOnReview(w: Workspace, reviewer: Actor, c: Id, h: Id) {
    && c in w.cases && w.cases[c].status == Open && h in w.handoffs
    && var handoff := w.handoffs[h];
    && handoff.accepted && handoff.caseId == c && handoff.caseVersion == w.cases[c].version
    && handoff.reviewerId == reviewer.actorId && reviewer.actorId != w.cases[c].openedBy
    && Founded(handoff, w.reports)
    && var report := w.reports[handoff.reportId].body;
    && report.investigatorId != reviewer.actorId && InvestigationBasisOf(w, c) == Ok(report.basis)
  }

  /** What an accepted resolution rested on, at the instant it was accepted. */
  lemma ResolutionRestsOn(w: Workspace, call: Call)
    requires call.command.Resolve? && Change(w, call).Ok?
    requires HandoffsFounded(w.handoffs, w.reports) && forall c | c in w.cases :: w.cases[c].caseId == c
    ensures RestsOnReview(w, call.actor, call.command.caseId, call.command.handoffId)
  {
    var noted := ResolveEffect(w, call);
    assert Founded(w.handoffs[call.command.handoffId], w.reports);
  }

  lemma BasisNamesCase(w: Workspace, c: Id)
    requires c in w.cases && InvestigationBasisOf(w, c).Ok?
    ensures InvestigationBasisOf(w, c).value.riskCase == w.cases[c]
  {
  }

  lemma ResolvingLawful(w: Workspace, call: Call)
    requires Safe(w.tasks, w.cases) && Tidy(w) && Lawful(w) && call.command.Resolve? && Change(w, call).Ok?
    ensures var s := Change(w, call).value.state; s.handoffs == w.handoffs && Lawful(s)
  {
    var c := call.command.caseId;
    var noted := ResolveEffect(w, call);
    ResolutionRestsOn(w, call);
    BasisNamesCase(w, c);
    var next := ResolvedCase(w, call, c, call.command.resolution);
    var h := w.caseHistory[c];
    assert CaseHistoryIntact(w.cases[c], h);
    var longer := h + [next];
    assert longer[|longer| - 2] == w.cases[c];
    assert Accounted(longer, |longer| - 1, w.handoffs[call.command.handoffId], w.reports);
    LawfulAppended(w, Change(w, call).value.state, next);
  }

  lemma RaisedLawful(w: Workspace, s: Workspace, next: RiskCase, reason: TaintReason)
    requires Tidy(w) && Lawful(w) && Raised(w, s, next, reason)
    requires next.caseId in w.cases ==> w.cases[next.caseId].status == Resolved
    ensures Lawful(s)
  {
    LawfulAppended(w, s, next);
  }

  lemma RaisingLawful(w: Workspace, call: Call)
    requires Safe(w.tasks, w.cases) && Tidy(w) && Lawful(w) && FreshCall(w, call)
    requires Raises(call.command) && Change(w, call).Ok?
    ensures Lawful(Change(w, call).value.state)
    ensures Change(w, call).value.state.handoffs == w.handoffs
  {
    var reason := RaiseEffect(w, call);
    RaisedLawful(w, Change(w, call).value.state, RaisedCase(w, call), reason);
  }

  lemma HandoffKept(w: Workspace, call: Call, c: Id, reportId: Id, reviewerId: Id)
    requires HandoffChange(w, call, c, reportId, reviewerId).Ok? && call.env.newId !in w.handoffs
    requires HandoffsFounded(w.handoffs, w.reports)
    ensures var s := HandoffChange(w, call, c, reportId, reviewerId).value.state;
      HandoffsKept(w.handoffs, s.handoffs) && HandoffsFounded(s.handoffs, w.reports)
  {
    var s := HandoffChange(w, call, c, reportId, reviewerId).value.state;
    forall h | h in s.handoffs
      ensures Founded(s.handoffs[h], w.reports)
    {
      if h != call.env.newId {
        assert Founded(w.handoffs[h], w.reports);
      }
    }
  }

  lemma AcceptKept(w: Workspace, call: Call, h: Id)
    requires AcceptChange(w, call, h).Ok? && HandoffsFounded(w.handoffs, w.reports)
    ensures var s := AcceptChange(w, call, h).value.state;
      HandoffsKept(w.handoffs, s.handoffs) && HandoffsFounded(s.handoffs, w.reports)
  {
    var s := AcceptChange(w, call, h).value.state;
    forall k | k in s.handoffs
      ensures Founded(s.handoffs[k], w.reports)
    {
      assert Founded(w.handoffs[k], w.reports);
    }
  }

  lemma ClericalHandoffs(w: Workspace, call: Call)
    requires FreshCall(w, call) && Clerical(call.command) && Change(w, call).Ok?
    requires HandoffsFounded(w.handoffs, w.reports)
    ensures var s := Change(w, call).value.state;
      HandoffsKept(w.handoffs, s.handoffs) && HandoffsFounded(s.handoffs, w.reports)
  {
    match call.command
    case Investigate(c) => InvestigateFrame(w, call, c);
    case HandoffReport(c, reportId, reviewerId) => HandoffKept(w, call, c, reportId, reviewerId);
    case AcceptHandoff(h) => AcceptKept(w, call, h);
    case PrepareReview(t, d) => PrepareFrame(w, call, t, d);
    case ReserveSource(c, _, resource, force) => ReserveFrame(w, call, c, resource, force);
    case FinishSource(c, id, fetched) => FinishFrame(w, call, c, id, fetched);
    case _ =>
  }

  lemma ClericalLawful(w: Workspace, call: Call)
    requires Safe(w.tasks, w.cases) && Tidy(w) && Lawful(w) && FreshCall(w, call)
    requires Clerical(call.command) && Change(w, call).Ok?
    ensures HandoffsKept(w.handoffs, Change(w, call).value.state.handoffs)
    ensures Lawful(Change(w, call).value.state)
  {
    ClericalFrame(w, call);
    ClericalRecords(w, call);
    ClericalHandoffs(w, call);
    SameHandoffsFounded(Change(w, call).value.state.handoffs, w.reports, Change(w, call).value.state.reports);
    LawfulKept(w, Change(w, call).value.state);
  }

  lemma DecidedLawful(w: Workspace, s: Workspace)
    requires Lawful(w) && OnlyDecided(w, s)
    ensures s.handoffs == w.handoffs && Lawful(s)
  {
    LawfulKept(w, s);
  }

  lemma DecidingLawful(w: Workspace, call: Call)
    requires Safe(w.tasks, w.cases) && Tidy(w) && Lawful(w) && FreshCall(w, call) && Change(w, call).Ok?
    requires Decides(call.command)
    ensures var s := Change(w, call).value.state; s.handoffs == w.handoffs && Lawful(s)
  {
    DecidingFrame(w, call);
    DecidedLawful(w, Change(w, call).value.state);
  }

  lemma BaselineLawful(w: Workspace, call: Call, scope: Scope, limit: nat, expiresAt: Time)
    requires Lawful(w) && SetBaselineChange(w, call, scope, limit, expiresAt).Ok?
    ensures var s := SetBaselineChange(w, call, scope, limit, expiresAt).value.state;
      s.handoffs == w.handoffs && Lawful(s)
  {
    LawfulKept(w, SetBaselineChange(w, call, scope, limit, expiresAt).value.state);
  }

  lemma BaselineCommandLawful(w: Workspace, call: Call)
    requires Lawful(w) && call.command.SetBaseline? && Change(w, call).Ok?
    ensures var s := Change(w, call).value.state; s.handoffs == w.handoffs && Lawful(s)
  {
    BaselineLawful(w, call, call.command.scope, call.command.limit, call.command.expiresAt);
  }

  /** Every command keeps every case lawful. */
  lemma ChangeKeepsLawful(w: Workspace, call: Call)
    requires Safe(w.tasks, w.cases) && Tidy(w) && Lawful(w) && FreshCall(w, call) && Change(w, call).Ok?
    ensures Lawful(Change(w, call).value.state)
    ensures HandoffsKept(w.handoffs, Change(w, call).value.state.handoffs)
  {
    if Clerical(call.command) {
      ClericalLawful(w, call);
    } else if Raises(call.command) {
      RaisingLawful(w, call);
    } else if call.command.SetBaseline? {
      BaselineCommandLawful(w, call);
    } else if call.command.Resolve? {
      ResolvingLawful(w, call);
    } else {
      DecidingLawful(w, call);
    }
  }

  /** The current version of a case is odd exactly while the case is open. */
  lemma OddIffOpen(w: Workspace, c: Id)
    requires Tidy(w) && Lawful(w) && c in w.cases
    ensures w.cases[c].version % 2 == 1 <==> w.cases[c].status == Open
  {
    var h := w.caseHistory[c];
    assert CaseHistoryIntact(w.cases[c], h);
    assert EntryLawful(h, |h| - 1, c, w.cases[c].scope, w.handoffs, w.reports);
  }
}
