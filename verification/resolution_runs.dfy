/** Every resolution on a run, traced back to the investigation and the review it rests on. */
module ResolutionRuns {
  import opened Common
  import opened CaseworkModels
  import opened CasePolicy
  import opened Commands
  import opened Envelope
  import opened Safety
  import opened Integrity
  import opened Lifecycle
  import opened Runs

  // ----- Only an investigation stores a report -----

  lemma ClericalReports(w: Workspace, call: Call)
    requires Clerical(call.command) && !call.command.Investigate? && Change(w, call).Ok?
    ensures Change(w, call).value.state.reports == w.reports
  {
    match call.command
    case HandoffReport(c, reportId, reviewerId) => HandoffFrame(w, call, c, reportId, reviewerId);
    case AcceptHandoff(h) => AcceptFrame(w, call, h);
    case PrepareReview(t, d) => PrepareFrame(w, call, t, d);
    case ReserveSource(c, _, resource, force) => ReserveFrame(w, call, c, resource, force);
    case FinishSource(c, id, fetched) => FinishFrame(w, call, c, id, fetched);
    case _ =>
  }

  lemma OtherReports(w: Workspace, call: Call)
    requires Inv(w) && FreshCall(w, call) && !call.command.Investigate? && Change(w, call).Ok?
    ensures Change(w, call).value.state.reports == w.reports
  {
    if Clerical(call.command) {
      ClericalReports(w, call);
    } else if Raises(call.command) {
      var reason := RaiseEffect(w, call);
    } else if Decides(call.command) {
      DecidingFrame(w, call);
    } else if call.command.Resolve? {
      var noted := ResolveEffect(w, call);
    } else {
      BaselineReports(w, call);
    }
  }

  lemma BaselineReports(w: Workspace, call: Call)
    requires call.command.SetBaseline? && Change(w, call).Ok?
    ensures Change(w, call).value.state.reports == w.reports
  {
  }

  // An accepted investigation of case c was drafted on the basis it found, and stores its report.
  ghost predicate Reports(w: Workspace, call: Call, s: Workspace, c: Id) {
    && call.command == Investigate(c) && call.carried.Draft? && c in w.cases
    && var body := call.carried.report;
    && body.caseId == c && InvestigationBasisOf(w, c) == Ok(body.basis)
    && s.reports == w.reports[body.reportId := Report(body, body)]
  }

  lemma InvestigationReports(w: Workspace, call: Call)
    requires Accepted(w, call) && call.command.Investigate?
    ensures Reports(w, call, Next(w, call), call.command.caseId)
  {
    NextMeaning(w, call);
    assert Change(w, call) == InvestigateChange(w, call, call.command.caseId);
    InvestigateFrame(w, call, call.command.caseId);
  }

  lemma NextReports(w: Workspace, call: Call)
    requires Inv(w) && FreshCall(w, call)
    ensures Next(w, call).reports == w.reports
      || (Accepted(w, call) && call.command.Investigate? && Reports(w, call, Next(w, call), call.command.caseId))
  {
    NextMeaning(w, call);
    if Accepted(w, call) {
      if call.command.Investigate? {
        InvestigationReports(w, call);
      } else {
        OtherReports(w, call);
      }
    }
  }

  // Call i took effect and stored report r about case c.
  ghost predicate ReportsAt(ws: seq<Workspace>, calls: seq<Call>, i: nat, c: Id, r: Id)
    requires i < |calls| && |ws| == |calls| + 1
  {
    CommitsAt(ws, i) && Reports(ws[i], calls[i], ws[i + 1], c) && calls[i].carried.report.reportId == r
  }

  lemma StepReports(ws: seq<Workspace>, calls: seq<Call>, tenantId: Id, i: nat)
    requires Run(ws, calls, tenantId) && i < |calls|
    ensures ws[i + 1].reports == ws[i].reports
      || (calls[i].command.Investigate? && calls[i].carried.Draft?
          && ReportsAt(ws, calls, i, calls[i].command.caseId, calls[i].carried.report.reportId))
  {
    RunStep(ws, calls, tenantId, i);
    CommitsIffAccepted(ws, calls, tenantId, i);
    NextReports(ws[i], calls[i]);
  }

  /** Every stored report was committed by an investigation, on the basis it was drafted on. */
  lemma {:induction false} ReportWasCommitted(ws: seq<Workspace>, calls: seq<Call>, tenantId: Id, n: nat, r: Id)
    returns (i: nat)
    requires Run(ws, calls, tenantId) && n < |ws| && r in ws[n].reports
    ensures i < n && calls[i].command.Investigate? && ReportsAt(ws, calls, i, calls[i].command.caseId, r)
    ensures ws[n].reports[r].body == calls[i].carried.report
    decreases n
  {
    StepReports(ws, calls, tenantId, n - 1);
    if r in ws[n - 1].reports && ws[n].reports[r] == ws[n - 1].reports[r] {
      i := ReportWasCommitted(ws, calls, tenantId, n - 1, r);
    } else {
      i := n - 1;
    }
  }

  // ----- Only a resolution resolves -----

  // A history stays, or gains one entry, which is a resolution only if this call made it.
  ghost predicate Grown(h: seq<RiskCase>, h': seq<RiskCase>, resolving: bool) {
    h' == h || (|h'| == |h| + 1 && h <= h' && (h'[|h|].status == Resolved ==> resolving))
  }

  ghost predicate HistoryGrown(w: Workspace, s: Workspace, call: Call, c: Id) {
    Grown(History(w.caseHistory, c), History(s.caseHistory, c), call.command.Resolve? && call.command.caseId == c)
  }

  lemma RaisedGrows(w: Workspace, s: Workspace, call: Call, next: RiskCase, reason: TaintReason, c: Id)
    requires Raised(w, s, next, reason)
    ensures HistoryGrown(w, s, call, c)
  {
  }

  lemma ResolvedGrows(w: Workspace, s: Workspace, noted: Workspace, call: Call, next: RiskCase, c: Id)
    requires ResolvedInto(w, s, noted, call, next) && call.command.Resolve? && next.caseId == call.command.caseId
    ensures HistoryGrown(w, s, call, c)
  {
  }

  lemma ChangeGrowsHistory(w: Workspace, call: Call, c: Id)
    requires Inv(w) && FreshCall(w, call) && Change(w, call).Ok?
    ensures HistoryGrown(w, Change(w, call).value.state, call, c)
  {
    if Clerical(call.command) {
      ClericalFrame(w, call);
    } else if Raises(call.command) {
      var reason := RaiseEffect(w, call);
      RaisedGrows(w, Change(w, call).value.state, call, RaisedCase(w, call), reason, c);
    } else if Decides(call.command) {
      DecidingFrame(w, call);
    } else {
      match call.command
      case SetBaseline(_, _, _) =>
      case Resolve(resolved, _, resolution, _) =>
        var noted := ResolveEffect(w, call);
        ResolvedGrows(w, Change(w, call).value.state, noted, call, ResolvedCase(w, call, resolved, resolution), c);
    }
  }

  lemma StepGrowsHistory(ws: seq<Workspace>, calls: seq<Call>, tenantId: Id, i: nat, c: Id)
    requires Run(ws, calls, tenantId) && i < |calls|
    ensures HistoryGrown(ws[i], ws[i + 1], calls[i], c) && (ws[i + 1] == ws[i] || CommitsAt(ws, i))
  {
    RunStep(ws, calls, tenantId, i);
    CommitsIffAccepted(ws, calls, tenantId, i);
    NextMeaning(ws[i], calls[i]);
    if Accepted(ws[i], calls[i]) {
      ChangeGrowsHistory(ws[i], calls[i], c);
    }
  }

  // Call j took effect, resolved case c, and so made entry e of its history.
  ghost predicate ResolvesAt(ws: seq<Workspace>, calls: seq<Call>, j: nat, c: Id, e: nat)
    requires j < |calls| && |ws| == |calls| + 1
  {
    && CommitsAt(ws, j) && calls[j].command.Resolve? && calls[j].command.caseId == c
    && |History(ws[j].caseHistory, c)| == e && |History(ws[j + 1].caseHistory, c)| == e + 1
  }

  lemma {:induction false} EntryWasResolved(ws: seq<Workspace>, calls: seq<Call>, tenantId: Id, n: nat, c: Id, e: nat)
    returns (j: nat)
    requires Run(ws, calls, tenantId) && n < |ws|
    requires e < |History(ws[n].caseHistory, c)| && History(ws[n].caseHistory, c)[e].status == Resolved
    ensures j < n && ResolvesAt(ws, calls, j, c, e)
    decreases n
  {
    StepGrowsHistory(ws, calls, tenantId, n - 1, c);
    if e < |History(ws[n - 1].caseHistory, c)| {
      j := EntryWasResolved(ws, calls, tenantId, n - 1, c, e);
    } else {
      j := n - 1;
    }
  }

  // ----- The resolution and the report it rests on -----

  lemma ResolutionRests(ws: seq<Workspace>, calls: seq<Call>, tenantId: Id, j: nat)
    requires Run(ws, calls, tenantId) && j < |calls| && CommitsAt(ws, j) && calls[j].command.Resolve?
    ensures RestsOnReview(ws[j], calls[j].actor, calls[j].command.caseId, calls[j].command.handoffId)
    ensures calls[j].actor.role == Reviewer
  {
    RunStep(ws, calls, tenantId, j);
    CommitsIffAccepted(ws, calls, tenantId, j);
    AcceptedRests(ws[j], calls[j]);
  }

  lemma AcceptedRests(w: Workspace, call: Call)
    requires Inv(w) && Accepted(w, call) && call.command.Resolve?
    ensures RestsOnReview(w, call.actor, call.command.caseId, call.command.handoffId) && call.actor.role == Reviewer
  {
    NextMeaning(w, call);
    ResolutionRestsOn(w, call);
  }

  // Handoff h, at point j, hands off the report that call i stored.
  ghost predicate HandsOff(ws: seq<Workspace>, calls: seq<Call>, i: nat, j: nat, h: Id)
    requires i < |calls| && j < |ws|
  {
    calls[i].carried.Draft? && h in ws[j].handoffs && ws[j].handoffs[h].reportId == calls[i].carried.report.reportId
  }

  /**
   A case is resolved on the basis its report was committed on: if call i stored a report and call j resolves by a
   handoff of it, the investigation basis of the case at j is the one at i.
   */
  lemma ResolvedOnCommittedBasis(ws: seq<Workspace>, calls: seq<Call>, tenantId: Id, i: nat, j: nat, c: Id, r: Id)
    requires Run(ws, calls, tenantId) && i < j < |calls| && ReportsAt(ws, calls, i, c, r)
    requires CommitsAt(ws, j) && calls[j].command.Resolve? && HandsOff(ws, calls, i, j, calls[j].command.handoffId)
    ensures calls[j].command.caseId == c && c in ws[i].cases && c in ws[j].cases
    ensures InvestigationBasisOf(ws[j], c) == InvestigationBasisOf(ws[i], c) == Ok(calls[i].carried.report.basis)
  {
    ResolutionRests(ws, calls, tenantId, j);
    RunExtends(ws, calls, tenantId, i + 1, j);
    assert ws[j].reports[r] == ws[i + 1].reports[r];
  }

  // What stands behind one resolved entry: the investigation i, and the resolution j by an independent reviewer.
  ghost predicate Traced(ws: seq<Workspace>, calls: seq<Call>, i: nat, j: nat, c: Id, e: nat)
    requires i < j < |calls| && |ws| == |calls| + 1
  {
    && calls[i].carried.Draft? && ReportsAt(ws, calls, i, c, calls[i].carried.report.reportId)
    && ResolvesAt(ws, calls, j, c, e) && HandsOff(ws, calls, i, j, calls[j].command.handoffId)
    && c in ws[i].cases && c in ws[j].cases && InvestigationBasisOf(ws[j], c) == InvestigationBasisOf(ws[i], c)
    && calls[j].actor.role == Reviewer && ws[j].handoffs[calls[j].command.handoffId].accepted
    && calls[j].actor.actorId != calls[i].carried.report.investigatorId
    && calls[j].actor.actorId != ws[j].cases[c].openedBy
  }

  lemma ResolutionTraced(ws: seq<Workspace>, calls: seq<Call>, tenantId: Id, j: nat, c: Id, e: nat) returns (i: nat)
    requires Run(ws, calls, tenantId) && j < |calls| && ResolvesAt(ws, calls, j, c, e)
    ensures i < j && Traced(ws, calls, i, j, c, e)
  {
    ResolutionRests(ws, calls, tenantId, j);
    var h := calls[j].command.handoffId;
    i := ReportWasCommitted(ws, calls, tenantId, j, ws[j].handoffs[h].reportId);
    ResolvedOnCommittedBasis(ws, calls, tenantId, i, j, calls[i].command.caseId, ws[j].handoffs[h].reportId);
  }

  /**
   Every resolved entry of every case history, at any point of any run, goes back to two calls that took effect: an
   investigation that committed a report, and a later resolution that made the entry, on the same investigation basis,
   by a reviewer who had accepted the report's handoff, is not its author and did not open the case.
   */
  lemma EveryResolutionIsTraced(ws: seq<Workspace>, calls: seq<Call>, tenantId: Id, n: nat, c: Id, e: nat)
    returns (i: nat, j: nat)
    requires Run(ws, calls, tenantId) && n < |ws|
    requires e < |History(ws[n].caseHistory, c)| && History(ws[n].caseHistory, c)[e].status == Resolved
    ensures i < j < n && Traced(ws, calls, i, j, c, e)
    ensures History(ws[j + 1].caseHistory, c) <= History(ws[n].caseHistory, c)
  {
    j := EntryWasResolved(ws, calls, tenantId, n, c, e);
    i := ResolutionTraced(ws, calls, tenantId, j, c, e);
    RunExtends(ws, calls, tenantId, j + 1, n);
  }
}
