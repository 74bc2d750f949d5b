/** The audit chain commits to its events, and every command keeps a stored workspace intact. */
module Integrity {
  import opened Common
  import opened CaseworkModels
  import opened Commands
  import opened Envelope
  import opened Safety

  // ----- The chain as a commitment -----

  lemma ChainedPrefix(audit: seq<AuditEntry>, n: nat)
    requires Chained(audit) && n <= |audit|
    ensures Chained(audit[..n])
  {
    forall i | 0 <= i < n
      ensures audit[..n][..i] == audit[..i]
    {
    }
  }

  /** Two chains of equal length with the same last hash record the same events. */
  lemma {:induction false} ChainCommits(a: seq<AuditEntry>, b: seq<AuditEntry>)
    requires Chained(a) && Chained(b) && |a| == |b| && LastHash(a) == LastHash(b)
    ensures a == b
  {
    if a == [] {
    } else {
      var n := |a| - 1;
      ChainedPrefix(a, n);
      ChainedPrefix(b, n);
      assert a[n] == b[n];
      ChainCommits(a[..n], b[..n]);
      assert a == a[..n] + [a[n]] && b == b[..n] + [b[n]];
    }
  }

  /** Two intact workspaces at one revision with the same last event hash have the same audit. */
  lemma IntactAuditsAgree(v: Workspace, w: Workspace)
    requires Intact(v) && Intact(w) && v.revision == w.revision && LastHash(v.audit) == LastHash(w.audit)
    ensures v.audit == w.audit
  {
    ChainCommits(v.audit, w.audit);
  }

  lemma ChainExtends(audit: seq<AuditEntry>, event: Event)
    requires Chained(audit) && event.sequence == |audit| + 1 && event.previous == LastHash(audit)
    ensures Chained(audit + [AuditEntry(event, EventHash(event))])
  {
    var longer := audit + [AuditEntry(event, EventHash(event))];
    forall i | 0 <= i < |longer|
      ensures longer[i].event.previous == LastHash(longer[..i])
    {
      if i < |audit| {
        assert longer[..i] == audit[..i];
      } else {
        assert longer[..i] == audit;
      }
    }
  }

  // ----- Records are only ever added -----

  ghost predicate HistoriesExtend<K, V>(a: map<K, seq<V>>, b: map<K, seq<V>>) {
    forall k | k in a :: k in b && a[k] <= b[k]
  }

  ghost predicate RecordsKept<K, V>(a: map<K, V>, b: map<K, V>) {
    forall k | k in a :: k in b && a[k] == b[k]
  }

  /** Histories and the audit grow at the end; stored decisions and reports never change. */
  ghost predicate Extends(w: Workspace, s: Workspace) {
    && HistoriesExtend(w.caseHistory, s.caseHistory)
    && HistoriesExtend(w.baselineHistory, s.baselineHistory)
    && RecordsKept(w.decisions, s.decisions)
    && RecordsKept(w.reports, s.reports)
    && w.audit <= s.audit
  }

  // An identifier that no record uses.
  ghost predicate Unused(w: Workspace, id: Id) {
    && id !in w.tasks && id !in w.decisions && id !in w.cases && id !in w.caseHistory
    && id !in w.reports && id !in w.handoffs && id !in w.lessons
    && ReceiptKey(id) !in w.artifacts && IncidentKey(id) !in w.artifacts
  }

  // The call's new identifiers are new, as random identifiers are.
  ghost predicate FreshCall(w: Workspace, call: Call) {
    && Unused(w, call.env.newId)
    && (call.carried.Draft? ==>
          call.carried.report.reportId !in w.reports && BundleKey(call.carried.report.reportId) !in w.artifacts)
  }

  // Everything but the chain is intact, and histories belong to present records.
  ghost predicate Tidy(w: Workspace) {
    && CasesIntact(w.cases, w.caseHistory) && BaselinesIntact(w.baselines, w.baselineHistory)
    && DecisionsIntact(w.decisions) && ReportsIntact(w.reports)
    && w.caseHistory.Keys == w.cases.Keys && w.baselineHistory.Keys == w.baselines.Keys
    && forall s | s in w.baselines :: w.baselines[s].scope == s
  }

  // s has every history and record of w.
  ghost predicate Retained(w: Workspace, s: Workspace) {
    && HistoriesExtend(w.caseHistory, s.caseHistory) && HistoriesExtend(w.baselineHistory, s.baselineHistory)
    && RecordsKept(w.decisions, s.decisions) && RecordsKept(w.reports, s.reports)
  }

  lemma CaseAppended(w: Workspace, next: RiskCase)
    requires Tidy(w) && Advances(w.cases, next) && (next.caseId !in w.cases ==> next.version == 1)
    ensures var s := WithCase(w, next); CasesIntact(s.cases, s.caseHistory)
    ensures HistoriesExtend(w.caseHistory, WithCase(w, next).caseHistory)
  {
  }

  lemma BaselineAppended(w: Workspace, call: Call, scope: Scope, limit: nat, expiresAt: Time)
    requires Tidy(w)
    ensures var s := WithBaseline(w, NextBaseline(w, call, scope, limit, expiresAt));
      Tidy(s) && Retained(w, s)
  {
  }

  // What a decision leaves alone in the aggregate.
  ghost predicate OnlyDecided(w: Workspace, s: Workspace) {
    && s.tenantId == w.tenantId && s.baselines == w.baselines && s.baselineHistory == w.baselineHistory
    && s.cases == w.cases && s.caseHistory == w.caseHistory
    && s.reports == w.reports && s.handoffs == w.handoffs && s.lessons == w.lessons
    && RecordsKept(w.decisions, s.decisions) && DecisionsIntact(s.decisions)
  }

  lemma DecideFrame(w: Workspace, t: Id, call: Call, explicit: bool)
    requires t in w.tasks && Decide(w, t, call, explicit).Ok?
    requires call.env.newId !in w.decisions && DecisionsIntact(w.decisions)
    ensures OnlyDecided(w, Decide(w, t, call, explicit).value.state)
  {
    DecisionParts(w, t, call, explicit);
  }

  lemma RegisterParts(w: Workspace, call: Call, intent: Intent, dependsOn: seq<Id>) returns (made: DecisionMade)
    requires RegisterChange(w, call, intent, dependsOn).Ok?
    ensures CheckParents(w, call.actor, intent.scope.subject, dependsOn).Ok?
    ensures Decide(WithTask(w, call, intent, dependsOn), call.env.newId, call, false) == Ok(made)
    ensures RegisterChange(w, call, intent, dependsOn).value.state == made.state
  {
    made := Decide(WithTask(w, call, intent, dependsOn), call.env.newId, call, false).value;
  }

  lemma FrameThrough(w: Workspace, added: Workspace, s: Workspace)
    requires added == w.(tasks := added.tasks) && OnlyDecided(added, s)
    ensures OnlyDecided(w, s)
  {
  }

  lemma RegisterFrame(w: Workspace, call: Call, intent: Intent, dependsOn: seq<Id>)
    requires RegisterChange(w, call, intent, dependsOn).Ok?
    requires call.env.newId !in w.decisions && DecisionsIntact(w.decisions)
    ensures OnlyDecided(w, RegisterChange(w, call, intent, dependsOn).value.state)
  {
    var added := WithTask(w, call, intent, dependsOn);
    var made := RegisterParts(w, call, intent, dependsOn);
    DecideFrame(added, call.env.newId, call, false);
    FrameThrough(w, added, made.state);
  }

  lemma EvaluateFrame(w: Workspace, call: Call, t: Id, explicit: bool)
    requires EvaluateChange(w, call, t, explicit).Ok?
    requires call.env.newId !in w.decisions && DecisionsIntact(w.decisions)
    ensures OnlyDecided(w, EvaluateChange(w, call, t, explicit).value.state)
  {
    DecideFrame(w, t, call, explicit);
  }

  predicate Decides(command: Command) {
    command.RegisterTask? || command.Evaluate? || command.Reconsider?
  }

  lemma DecidingFrame(w: Workspace, call: Call)
    requires Tidy(w) && Unused(w, call.env.newId) && Change(w, call).Ok? && Decides(call.command)
    ensures OnlyDecided(w, Change(w, call).value.state)
  {
    match call.command
    case RegisterTask(intent, dependsOn) => RegisterFrame(w, call, intent, dependsOn);
    case Evaluate(t) => EvaluateFrame(w, call, t, false);
    case Reconsider(t) => EvaluateFrame(w, call, t, true);
  }

  lemma DecidingRecords(w: Workspace, call: Call)
    requires Tidy(w) && Unused(w, call.env.newId) && Change(w, call).Ok? && Decides(call.command)
    ensures var s := Change(w, call).value.state; Tidy(s) && Retained(w, s)
  {
    DecidingFrame(w, call);
  }

  lemma ClericalRecords(w: Workspace, call: Call)
    requires Tidy(w) && FreshCall(w, call) && Clerical(call.command) && Change(w, call).Ok?
    ensures var s := Change(w, call).value.state; Tidy(s) && Retained(w, s)
  {
    ClericalFrame(w, call);
    ClericalKeepsReports(w, call);
  }

  // Only an investigation adds a report, a new one with its own root.
  lemma ClericalKeepsReports(w: Workspace, call: Call)
    requires ReportsIntact(w.reports) && FreshCall(w, call) && Clerical(call.command) && Change(w, call).Ok?
    ensures var s := Change(w, call).value.state; ReportsIntact(s.reports) && RecordsKept(w.reports, s.reports)
  {
    match call.command
    case Investigate(c) => InvestigateFrame(w, call, c);
    case HandoffReport(c, reportId, reviewerId) => HandoffFrame(w, call, c, reportId, reviewerId);
    case AcceptHandoff(h) => AcceptFrame(w, call, h);
    case PrepareReview(t, d) => PrepareFrame(w, call, t, d);
    case ReserveSource(c, _, resource, force) => ReserveFrame(w, call, c, resource, force);
    case FinishSource(c, id, fetched) => FinishFrame(w, call, c, id, fetched);
    case _ =>
  }

  // What opening, ingesting, reopening and resolving share: one case gains one version.
  lemma CaseRecords(w: Workspace, s: Workspace, next: RiskCase)
    requires Tidy(w) && Advances(w.cases, next) && (next.caseId !in w.cases ==> next.version == 1)
    requires s.cases == WithCase(w, next).cases && s.caseHistory == WithCase(w, next).caseHistory
    requires s.baselines == w.baselines && s.baselineHistory == w.baselineHistory
    requires s.decisions == w.decisions && s.reports == w.reports
    ensures Tidy(s) && Retained(w, s)
  {
    CaseAppended(w, next);
  }

  lemma BaselineRecords(w: Workspace, call: Call, scope: Scope, limit: nat, expiresAt: Time)
    requires Tidy(w) && SetBaselineChange(w, call, scope, limit, expiresAt).Ok?
    ensures var s := SetBaselineChange(w, call, scope, limit, expiresAt).value.state; Tidy(s) && Retained(w, s)
  {
    BaselineAppended(w, call, scope, limit, expiresAt);
  }

  lemma RaisingRecords(w: Workspace, call: Call)
    requires Safe(w.tasks, w.cases) && Tidy(w) && FreshCall(w, call) && Change(w, call).Ok?
    requires Raises(call.command)
    ensures var s := Change(w, call).value.state; Tidy(s) && Retained(w, s)
  {
    var reason := RaiseEffect(w, call);
    CaseRecords(w, Change(w, call).value.state, RaisedCase(w, call));
  }

  lemma ResolvingRecords(w: Workspace, call: Call)
    requires Safe(w.tasks, w.cases) && Tidy(w) && Change(w, call).Ok? && call.command.Resolve?
    ensures var s := Change(w, call).value.state; Tidy(s) && Retained(w, s)
  {
    var noted := ResolveEffect(w, call);
    CaseRecords(w, Change(w, call).value.state, ResolvedCase(w, call, call.command.caseId, call.command.resolution));
  }

  /** Every command keeps the records intact and only adds to them. */
  lemma ChangeKeepsRecords(w: Workspace, call: Call)
    requires Safe(w.tasks, w.cases) && Tidy(w) && FreshCall(w, call) && Change(w, call).Ok?
    ensures var s := Change(w, call).value.state; Tidy(s) && Retained(w, s)
  {
    if Clerical(call.command) {
      ClericalRecords(w, call);
    } else if Raises(call.command) {
      RaisingRecords(w, call);
    } else {
      match call.command
      case SetBaseline(scope, limit, expiresAt) => BaselineRecords(w, call, scope, limit, expiresAt);
      case Resolve(_, _, _, _) => ResolvingRecords(w, call);
      case _ => DecidingRecords(w, call);
    }
  }

  lemma RecordKeeps(w: Workspace, s: Workspace, call: Call, outcome: Outcome)
    requires Intact(w) && Tidy(s) && Retained(w, s)
    ensures var next := Record(w, s, call, outcome); Intact(next) && Tidy(next) && Extends(w, next)
  {
    ChainExtends(w.audit, EventFor(w, call, outcome));
  }

  /** A call leaves an intact workspace that extends the one it found. */
  lemma NextKeepsIntact(w: Workspace, call: Call)
    requires Safe(w.tasks, w.cases) && Tidy(w) && Intact(w) && FreshCall(w, call)
    ensures Intact(Next(w, call)) && Tidy(Next(w, call)) && Extends(w, Next(w, call))
  {
    NextMeaning(w, call);
    if Accepted(w, call) {
      ChangeKeepsRecords(w, call);
      var changed := Change(w, call).value;
      RecordKeeps(w, changed.state, call, changed.outcome);
    }
  }
}
