/** Integrity of a stored workspace, and the envelope that makes every command one atomic step. */
module Envelope {
  import opened Common
  import opened CaseworkModels
  import opened CasePolicy
  import opened Commands

  // ----- Integrity -----

  function LastHash(audit: seq<AuditEntry>): EventHash {
    if audit == [] then Genesis else audit[|audit| - 1].hash
  }

  // Each event is numbered, names its predecessor's hash and carries its own.
  predicate Chained(audit: seq<AuditEntry>) {
    forall i | 0 <= i < |audit| ::
      && audit[i].event.sequence == i + 1
      && audit[i].event.previous == LastHash(audit[..i])
      && audit[i].hash == EventHash(audit[i].event)
  }

  // Versions 1..n, ending in the current record.
  predicate CaseHistoryIntact(current: RiskCase, h: seq<RiskCase>) {
    && h != [] && h[|h| - 1] == current && |h| == current.version
    && forall i | 0 <= i < |h| :: h[i].version == i + 1
  }

  predicate BaselineHistoryIntact(current: Baseline, h: seq<Baseline>) {
    && h != [] && h[|h| - 1] == current && |h| == current.version
    && forall i | 0 <= i < |h| :: h[i].version == i + 1
  }

  predicate CasesIntact(cases: map<Id, RiskCase>, history: map<Id, seq<RiskCase>>) {
    forall c | c in cases :: c in history && CaseHistoryIntact(cases[c], history[c])
  }

  predicate BaselinesIntact(baselines: map<Scope, Baseline>, history: map<Scope, seq<Baseline>>) {
    forall s | s in baselines :: s in history && BaselineHistoryIntact(baselines[s], history[s])
  }

  predicate DecisionsIntact(decisions: map<Id, Decision>) {
    forall d | d in decisions :: decisions[d].body.decisionId == d && decisions[d].proofRoot == decisions[d].body
  }

  predicate ReportsIntact(reports: map<Id, Report>) {
    forall r | r in reports :: reports[r].body.reportId == r && reports[r].root == reports[r].body
  }

  predicate Intact(w: Workspace) {
    && Chained(w.audit)
    && |w.audit| == w.revision
    && CasesIntact(w.cases, w.caseHistory)
    && BaselinesIntact(w.baselines, w.baselineHistory)
    && DecisionsIntact(w.decisions)
    && ReportsIntact(w.reports)
  }

  /** The checks made whenever a workspace is loaded, in their order. */
  function Validate(s: Sealed): Result<()> {
    var w := s.body;
    if s.root != w then Err(MemoryIntegrityFailed)
    else if !Chained(w.audit) then Err(AuditIntegrityFailed)
    else if |w.audit| != w.revision then Err(MemoryRevisionInvalid)
    else if !CasesIntact(w.cases, w.caseHistory) then Err(CaseHistoryIntegrityFailed)
    else if !BaselinesIntact(w.baselines, w.baselineHistory) then Err(BaselineHistoryIntegrityFailed)
    else if !DecisionsIntact(w.decisions) then Err(DecisionIntegrityFailed)
    else if !ReportsIntact(w.reports) then Err(ReportIntegrityFailed)
    else Ok(())
  }

  lemma ValidateMeaning(s: Sealed)
    ensures Validate(s).Ok? <==> s.root == s.body && Intact(s.body)
  {
  }

  // ----- The same checks, as the loops that make them -----

  method CheckChain(audit: seq<AuditEntry>) returns (ok: bool)
    ensures ok <==> Chained(audit)
  {
    var previous := Genesis;
    for i := 0 to |audit|
      invariant Chained(audit[..i]) && previous == LastHash(audit[..i])
    {
      var entry := audit[i];
      if entry.event.sequence != i + 1 || entry.event.previous != previous || entry.hash != EventHash(entry.event) {
        return false;
      }
      previous := entry.hash;
      ChainedStep(audit, i);
    }
    assert audit[..|audit|] == audit;
    return true;
  }

  lemma ChainedStep(audit: seq<AuditEntry>, i: nat)
    requires i < |audit| && Chained(audit[..i])
    requires audit[i].event.sequence == i + 1 && audit[i].event.previous == LastHash(audit[..i])
    requires audit[i].hash == EventHash(audit[i].event)
    ensures Chained(audit[..i + 1]) && LastHash(audit[..i + 1]) == audit[i].hash
  {
    var longer := audit[..i + 1];
    forall j | 0 <= j <= i
      ensures longer[j].event.sequence == j + 1 && longer[j].event.previous == LastHash(longer[..j])
      ensures longer[j].hash == EventHash(longer[j].event)
    {
      assert longer[..j] == audit[..j] == audit[..i][..j];
      if j < i {
        assert audit[..i][j] == longer[j];
      }
    }
  }

  method CheckCases(cases: map<Id, RiskCase>, history: map<Id, seq<RiskCase>>) returns (ok: bool)
    ensures ok <==> CasesIntact(cases, history)
  {
    var rest := cases.Keys;
    while rest != {}
      invariant rest <= cases.Keys
      invariant forall c | c in cases && c !in rest :: c in history && CaseHistoryIntact(cases[c], history[c])
      decreases rest
    {
      var c :| c in rest;
      if c !in history || !CaseHistoryIntact(cases[c], history[c]) {
        return false;
      }
      rest := rest - {c};
    }
    return true;
  }

  method CheckBaselines(baselines: map<Scope, Baseline>, history: map<Scope, seq<Baseline>>) returns (ok: bool)
    ensures ok <==> BaselinesIntact(baselines, history)
  {
    var rest := baselines.Keys;
    while rest != {}
      invariant rest <= baselines.Keys
      invariant forall b | b in baselines && b !in rest :: b in history && BaselineHistoryIntact(baselines[b], history[b])
      decreases rest
    {
      var b :| b in rest;
      if b !in history || !BaselineHistoryIntact(baselines[b], history[b]) {
        return false;
      }
      rest := rest - {b};
    }
    return true;
  }

  method CheckDecisions(decisions: map<Id, Decision>) returns (ok: bool)
    ensures ok <==> DecisionsIntact(decisions)
  {
    var rest := decisions.Keys;
    while rest != {}
      invariant rest <= decisions.Keys
      invariant forall d | d in decisions && d !in rest ::
        decisions[d].body.decisionId == d && decisions[d].proofRoot == decisions[d].body
      decreases rest
    {
      var d :| d in rest;
      if decisions[d].body.decisionId != d || decisions[d].proofRoot != decisions[d].body {
        return false;
      }
      rest := rest - {d};
    }
    return true;
  }

  method CheckReports(reports: map<Id, Report>) returns (ok: bool)
    ensures ok <==> ReportsIntact(reports)
  {
    var rest := reports.Keys;
    while rest != {}
      invariant rest <= reports.Keys
      invariant forall r | r in reports && r !in rest :: reports[r].body.reportId == r && reports[r].root == reports[r].body
      decreases rest
    {
      var r :| r in rest;
      if reports[r].body.reportId != r || reports[r].root != reports[r].body {
        return false;
      }
      rest := rest - {r};
    }
    return true;
  }

  /** Every loaded workspace passes through here before anything reads it. */
  method ValidateWorkspace(s: Sealed) returns (r: Result<()>)
    ensures r == Validate(s)
    ensures r.Ok? <==> s.root == s.body && Intact(s.body)
  {
    var w := s.body;
    if s.root != w {
      return Err(MemoryIntegrityFailed);
    }
    var chained := CheckChain(w.audit);
    if !chained {
      return Err(AuditIntegrityFailed);
    }
    if |w.audit| != w.revision {
      return Err(MemoryRevisionInvalid);
    }
    var cases := CheckCases(w.cases, w.caseHistory);
    if !cases {
      return Err(CaseHistoryIntegrityFailed);
    }
    var baselines := CheckBaselines(w.baselines, w.baselineHistory);
    if !baselines {
      return Err(BaselineHistoryIntegrityFailed);
    }
    var decisions := CheckDecisions(w.decisions);
    if !decisions {
      return Err(DecisionIntegrityFailed);
    }
    var reports := CheckReports(w.reports);
    if !reports {
      return Err(ReportIntegrityFailed);
    }
    return Ok(());
  }

  // ----- The envelope -----

  function FingerprintOf(call: Call): Fingerprint {
    Fingerprint(call.command, call.actor.actorId, call.session)
  }

  function KeyOf(call: Call): (Id, IdemKey) {
    (call.actor.actorId, call.key)
  }

  // The checks made outside the envelope, before the store is touched.
  function Admit(call: Call): Result<()> {
    if !Permitted(call.actor, call.command) then Err(ForbiddenError)
    else if call.command.SetBaseline? && call.command.expiresAt <= call.env.at then Err(BaselineMustExpireInFuture)
    else Ok(())
  }

  // A prepared review is replayed only while it could still be prepared.
  function ReplayCheck(w: Workspace, call: Call): Result<()>
    requires Precheck(w, call.actor, call.command).Ok?
  {
    match call.command
    case PrepareReview(t, d) =>
      var v :- PolicyOf(w, t, call.env.at, false);
      if d !in w.decisions || w.tasks[t].current != Some(w.decisions[d].body.decisionId)
         || v.verdict != Ready || w.decisions[d].body.expiresAt <= call.env.at
         || BasisOf(w, t) != Ok(w.decisions[d].body.basis)
      then Err(StaleOrBlockedReview) else Ok(())
    case _ => Ok(())
  }

  // An investigation is bound to what it read; every other command to the revision it expects.
  ghost function Current(w: Workspace, call: Call): Result<()> {
    match call.command
    case Investigate(c) =>
      if c !in w.cases || !call.carried.Draft? then Err(StaleInvestigation)
      else
        var basis :- InvestigationBasisOf(w, c);
        if basis != call.carried.report.basis then Err(StaleInvestigation) else Ok(())
    case _ => if w.revision != call.expected then Err(RevisionConflict) else Ok(())
  }

  function EventFor(w: Workspace, call: Call, outcome: Outcome): Event {
    Event(w.revision + 1, call.env.at, call.actor.actorId, call.actor.role,
          FingerprintOf(call), outcome, LastHash(w.audit))
  }

  // Advances the revision, extends the audit chain and stores the response under the key.
  function Record(w: Workspace, state: Workspace, call: Call, outcome: Outcome): Workspace {
    var event := EventFor(w, call, outcome);
    var response := Response(outcome, w.revision + 1, EventHash(event), false);
    state.(revision := w.revision + 1,
           audit := w.audit + [AuditEntry(event, EventHash(event))],
           completed := w.completed[KeyOf(call) := Completed(FingerprintOf(call), response)])
  }

  datatype Taken = Taken(state: Workspace, response: Response)

  /** One command against the loaded workspace: replayed, refused, or applied once and recorded. */
  ghost function Attempt(w: Workspace, call: Call): Result<Taken> {
    var _ :- Precheck(w, call.actor, call.command);
    if KeyOf(call) in w.completed then
      if w.completed[KeyOf(call)].request != FingerprintOf(call) then Err(IdempotencyConflict)
      else
        var _ :- ReplayCheck(w, call);
        Ok(Taken(w, w.completed[KeyOf(call)].response.(replayed := true)))
    else
      var _ :- Current(w, call);
      if call.command.Bootstrap? && w.revision > 0 then Err(WorkspaceAlreadyExists)
      else if w.revision >= MAX_REVISION then Err(WorkspaceCapacityReached)
      else
        var changed :- Change(w, call);
        var next := Record(w, changed.state, call, changed.outcome);
        Ok(Taken(next, next.completed[KeyOf(call)].response))
  }

  ghost predicate Accepted(w: Workspace, call: Call) {
    && Admit(call).Ok? && KeyOf(call) !in w.completed && Attempt(w, call).Ok?
  }

  /** The workspace after a call, whether it was accepted, replayed or refused. */
  ghost function Next(w: Workspace, call: Call): Workspace {
    if Admit(call).Ok? && Attempt(w, call).Ok? then Attempt(w, call).value.state else w
  }

  lemma NextMeaning(w: Workspace, call: Call)
    ensures Accepted(w, call) ==>
      && Precheck(w, call.actor, call.command).Ok? && Current(w, call).Ok? && Change(w, call).Ok?
      && w.revision < MAX_REVISION
      && Next(w, call) == Record(w, Change(w, call).value.state, call, Change(w, call).value.outcome)
    ensures !Accepted(w, call) ==> Next(w, call) == w
  {
  }
}
