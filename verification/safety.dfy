/** What every command keeps about tasks and the cases that reach them. */
module Safety {
  import opened Common
  import opened CaseworkModels
  import opened DependencyGraph
  import opened EvidenceDesk
  import opened CasePolicy
  import opened Commands

  // ----- Shape: what closures depend on -----

  ghost predicate SameShape(a: map<Id, Task>, b: map<Id, Task>) {
    && a.Keys == b.Keys
    && forall t | t in a :: a[t].dependsOn == b[t].dependsOn && a[t].intent == b[t].intent
  }

  lemma ShapeFrame(a: map<Id, Task>, b: map<Id, Task>)
    requires SameShape(a, b)
    ensures GraphOf(a) == GraphOf(b)
    ensures forall t :: ClosureOf(a, t) == ClosureOf(b, t)
    ensures forall c | Listed(a, c) :: Listed(b, c) && Scopes(a, c) == Scopes(b, c)
    ensures forall s :: Affected(a, s) == Affected(b, s)
  {
    assert GraphOf(a) == GraphOf(b);
    forall s
      ensures Seeds(a, s) == Seeds(b, s)
    {
    }
    forall c | Listed(a, c)
      ensures Scopes(a, c) == Scopes(b, c)
    {
      assert forall k | k in c :: a[k].intent.scope == b[k].intent.scope;
    }
  }

  // The scopes of everything a task depends on.
  function ScopesOf(tasks: map<Id, Task>, t: Id): set<Scope>
    requires ClosureOf(tasks, t).Ok?
  {
    Scopes(tasks, ClosureOf(tasks, t).value)
  }

  lemma GraphOkClosure(tasks: map<Id, Task>, t: Id)
    requires GraphOk(GraphOf(tasks)) && t in tasks
    ensures ClosureOf(tasks, t).Ok?
  {
    assert t in GraphOf(tasks);
  }

  /** Blast radius: the downward fixed point finds exactly the tasks whose upward closure meets the scope. */
  lemma AffectedExact(tasks: map<Id, Task>, scope: Scope, t: Id)
    requires GraphOk(GraphOf(tasks)) && t in tasks
    ensures ClosureOf(tasks, t).Ok?
    ensures t in Affected(tasks, scope) <==> scope in ScopesOf(tasks, t)
  {
    var g := GraphOf(tasks);
    GraphOkClosure(tasks, t);
    DownstreamIsClosureMeets(g, Seeds(tasks, scope));
    if t in Affected(tasks, scope) {
      assert Closure(g, t) * Seeds(tasks, scope) != {};
      var k :| k in Closure(g, t) * Seeds(tasks, scope);
      assert k in ClosureOf(tasks, t).value;
    }
    if scope in ScopesOf(tasks, t) {
      var k :| k in ClosureOf(tasks, t).value && tasks[k].intent.scope == scope;
      assert k in Closure(g, t) * Seeds(tasks, scope);
    }
  }

  // ----- The invariant -----

  // READY means untainted; every open case in the closure is among the taints; case taints are about real cases.
  ghost predicate TaskSafe(t: Id, task: Task, scopes: set<Scope>, cases: map<Id, RiskCase>) {
    && task.taskId == t
    && (task.status == Of(Ready) ==> task.taints == map[])
    && (forall c | c in cases && cases[c].status == Open && cases[c].scope in scopes ::
          CaseToken(c, cases[c].version) in task.taints)
    && (forall token | token in task.taints && token.CaseToken? ::
          && token.caseId in cases && cases[token.caseId].scope in scopes
          && token.version <= cases[token.caseId].version)
  }

  ghost predicate Safe(tasks: map<Id, Task>, cases: map<Id, RiskCase>) {
    && GraphOk(GraphOf(tasks))
    && (forall c | c in cases :: cases[c].caseId == c)
    && (forall t | t in tasks :: (GraphOkClosure(tasks, t); TaskSafe(t, tasks[t], ScopesOf(tasks, t), cases)))
  }

  // ----- Suspension: a baseline or a case changes in a scope -----

  lemma InvalidateShape(tasks: map<Id, Task>, impacted: set<Id>, token: Token, reason: TaintReason)
    ensures SameShape(tasks, Invalidate(tasks, impacted, token, reason))
  {
  }

  lemma BaselineKeepsSafe(tasks: map<Id, Task>, cases: map<Id, RiskCase>, impacted: set<Id>, s: Scope, n: nat)
    requires Safe(tasks, cases)
    ensures Safe(Invalidate(tasks, impacted, BaselineToken(s, n), BaselineChanged), cases)
  {
    var tasks' := Invalidate(tasks, impacted, BaselineToken(s, n), BaselineChanged);
    InvalidateShape(tasks, impacted, BaselineToken(s, n), BaselineChanged);
    ShapeFrame(tasks, tasks');
    forall t | t in tasks'
      ensures ClosureOf(tasks', t).Ok? && TaskSafe(t, tasks'[t], ScopesOf(tasks', t), cases)
    {
      GraphOkClosure(tasks, t);
      assert TaskSafe(t, tasks[t], ScopesOf(tasks, t), cases);
    }
  }

  // A case enters its next version in its scope.
  ghost predicate Advances(cases: map<Id, RiskCase>, next: RiskCase) {
    var c := next.caseId;
    c in cases ==> cases[c].scope == next.scope && next.version == cases[c].version + 1
  }

  // A task outside the scope is untouched by the case; one inside gains its token and is not READY.
  lemma RaisedTaskSafe(t: Id, task: Task, task': Task, scopes: set<Scope>, cases: map<Id, RiskCase>, next: RiskCase,
                       reason: TaintReason)
    requires TaskSafe(t, task, scopes, cases) && Advances(cases, next) && next.status == Open
    requires task' == if next.scope in scopes
                      then task.(taints := task.taints[CaseToken(next.caseId, next.version) := reason], status := Suspended)
                      else task
    ensures TaskSafe(t, task', scopes, cases[next.caseId := next])
  {
  }

  lemma RaiseKeepsSafe(tasks: map<Id, Task>, cases: map<Id, RiskCase>, next: RiskCase, reason: TaintReason)
    requires Safe(tasks, cases) && Advances(cases, next) && next.status == Open
    ensures Safe(
      Invalidate(tasks, Affected(tasks, next.scope), CaseToken(next.caseId, next.version), reason),
      cases[next.caseId := next])
  {
    var token := CaseToken(next.caseId, next.version);
    var impacted := Affected(tasks, next.scope);
    var tasks', cases' := Invalidate(tasks, impacted, token, reason), cases[next.caseId := next];
    InvalidateShape(tasks, impacted, token, reason);
    ShapeFrame(tasks, tasks');
    forall t | t in tasks'
      ensures ClosureOf(tasks', t).Ok? && TaskSafe(t, tasks'[t], ScopesOf(tasks', t), cases')
    {
      AffectedExact(tasks, next.scope, t);
      RaisedTaskSafe(t, tasks[t], tasks'[t], ScopesOf(tasks, t), cases, next, reason);
    }
  }

  lemma ResolvedTasksShape(w: Workspace, impacted: set<Id>, token: Token, at: Time)
    ensures SameShape(w.tasks, ResolvedTasks(w, impacted, token, at))
  {
  }

  // A resolution taints an affected task further and never leaves it READY.
  ghost predicate Reviewed(task: Task, task': Task, token: Token) {
    || task' == task
    || (task'.taskId == task.taskId && task'.status != Of(Ready)
        && task'.taints == task.taints[token := ReconsiderRequired])
  }

  lemma ResolvedTasksReview(w: Workspace, impacted: set<Id>, token: Token, at: Time, t: Id)
    requires t in w.tasks
    ensures Reviewed(w.tasks[t], ResolvedTasks(w, impacted, token, at)[t], token)
  {
  }

  lemma ReviewedTaskSafe(t: Id, task: Task, task': Task, scopes: set<Scope>, cases: map<Id, RiskCase>, next: RiskCase)
    requires TaskSafe(t, task, scopes, cases) && next.caseId in cases && Advances(cases, next) && next.status == Resolved
    requires Reviewed(task, task', ResolutionToken(next.caseId, next.version))
    ensures TaskSafe(t, task', scopes, cases[next.caseId := next])
  {
  }

  lemma ResolveKeepsSafe(w: Workspace, cases: map<Id, RiskCase>, next: RiskCase, impacted: set<Id>, at: Time)
    requires Safe(w.tasks, cases) && next.caseId in cases && Advances(cases, next) && next.status == Resolved
    ensures Safe(
      ResolvedTasks(w, impacted, ResolutionToken(next.caseId, next.version), at),
      cases[next.caseId := next])
  {
    var tasks, token := w.tasks, ResolutionToken(next.caseId, next.version);
    var tasks' := ResolvedTasks(w, impacted, token, at);
    ResolvedTasksShape(w, impacted, token, at);
    ShapeFrame(tasks, tasks');
    forall t | t in tasks
      ensures Reviewed(tasks[t], tasks'[t], token)
    {
      ResolvedTasksReview(w, impacted, token, at, t);
    }
    ReviewKeepsSafe(tasks, tasks', cases, next);
  }

  lemma ReviewKeepsSafe(tasks: map<Id, Task>, tasks': map<Id, Task>, cases: map<Id, RiskCase>, next: RiskCase)
    requires Safe(tasks, cases) && next.caseId in cases && Advances(cases, next) && next.status == Resolved
    requires SameShape(tasks, tasks')
    requires forall t | t in tasks :: Reviewed(tasks[t], tasks'[t], ResolutionToken(next.caseId, next.version))
    ensures Safe(tasks', cases[next.caseId := next])
  {
    ShapeFrame(tasks, tasks');
    forall t | t in tasks'
      ensures ClosureOf(tasks', t).Ok? && TaskSafe(t, tasks'[t], ScopesOf(tasks', t), cases[next.caseId := next])
    {
      GraphOkClosure(tasks, t);
      ReviewedTaskSafe(t, tasks[t], tasks'[t], ScopesOf(tasks, t), cases, next);
    }
  }

  // ----- Decisions -----

  // The task being decided need not yet carry the tokens of open cases: the decision adds them.
  ghost predicate Undecided(t: Id, task: Task, scopes: set<Scope>, cases: map<Id, RiskCase>) {
    && task.taskId == t
    && (forall token | token in task.taints && token.CaseToken? ::
          && token.caseId in cases && cases[token.caseId].scope in scopes
          && token.version <= cases[token.caseId].version)
    && (forall c | c in cases && cases[c].status == Open && cases[c].scope in scopes ::
          task.taints == map[] || CaseToken(c, cases[c].version) in task.taints)
  }

  ghost predicate SafeBut(tasks: map<Id, Task>, cases: map<Id, RiskCase>, added: Id) {
    && GraphOk(GraphOf(tasks))
    && (forall c | c in cases :: cases[c].caseId == c)
    && (forall t | t in tasks && t != added :: (GraphOkClosure(tasks, t); TaskSafe(t, tasks[t], ScopesOf(tasks, t), cases)))
    && (added in tasks ==> (GraphOkClosure(tasks, added); Undecided(added, tasks[added], ScopesOf(tasks, added), cases)))
  }

  // The decided task carries every open case it reaches, and READY leaves nothing to carry.
  lemma DecidedTaskSafe(w: Workspace, t: Id, scopes: set<Scope>, decision: Decision, explicit: bool)
    requires t in w.tasks && decision.body.blockers == Blockers(w.cases, scopes)
    requires Undecided(t, w.tasks[t], scopes, w.cases)
    requires decision.body.verdict == Ready ==> decision.body.blockers == {} && (explicit || w.tasks[t].taints == map[])
    ensures TaskSafe(t, DecidedTask(w, t, decision, explicit), scopes, w.cases)
  {
    var blockers := decision.body.blockers;
    var task' := DecidedTask(w, t, decision, explicit);
    forall c | c in w.cases && w.cases[c].status == Open && w.cases[c].scope in scopes
      ensures CaseToken(c, w.cases[c].version) in task'.taints
    {
      assert c in blockers;
      assert CaseToken(c, w.cases[c].version) in BlockerTokens(w.cases, blockers);
    }
    if decision.body.verdict == Ready {
      assert BlockerTokens(w.cases, blockers) == {};
    }
  }

  lemma OneTaskSafe(tasks: map<Id, Task>, cases: map<Id, RiskCase>, t: Id, task: Task)
    requires SafeBut(tasks, cases, t) && t in tasks
    requires task.dependsOn == tasks[t].dependsOn && task.intent == tasks[t].intent
    requires ClosureOf(tasks, t).Ok? && TaskSafe(t, task, ScopesOf(tasks, t), cases)
    ensures Safe(tasks[t := task], cases)
  {
    var tasks' := tasks[t := task];
    ShapeFrame(tasks, tasks');
    forall k | k in tasks'
      ensures ClosureOf(tasks', k).Ok? && TaskSafe(k, tasks'[k], ScopesOf(tasks', k), cases)
    {
      GraphOkClosure(tasks, k);
    }
  }

  // The parts of a decision that its task's safety rests on.
  lemma DecisionParts(w: Workspace, t: Id, call: Call, explicit: bool)
    requires t in w.tasks && Decide(w, t, call, explicit).Ok?
    ensures var made := Decide(w, t, call, explicit).value;
      && ClosureOf(w.tasks, t).Ok?
      && made.decision.body.blockers == Blockers(w.cases, ScopesOf(w.tasks, t))
      && (made.decision.body.verdict == Ready ==>
            made.decision.body.blockers == {} && (explicit || w.tasks[t].taints == map[]))
      && made.state == RecordDecision(w, t, made.decision, explicit)
  {
    PolicyMeaning(w, t, call.env.at, explicit);
  }

  lemma DecideKeepsSafe(w: Workspace, t: Id, call: Call, explicit: bool)
    requires t in w.tasks && Decide(w, t, call, explicit).Ok?
    requires SafeBut(w.tasks, w.cases, t)
    ensures Safe(Decide(w, t, call, explicit).value.state.tasks, w.cases)
  {
    var decision := Decide(w, t, call, explicit).value.decision;
    DecisionParts(w, t, call, explicit);
    DecidedTaskSafe(w, t, ScopesOf(w.tasks, t), decision, explicit);
    OneTaskSafe(w.tasks, w.cases, t, DecidedTask(w, t, decision, explicit));
  }

  // ----- Registration -----

  lemma {:induction false} ParentsExist(w: Workspace, actor: Actor, subject: Id, parents: seq<Id>)
    requires CheckParents(w, actor, subject, parents).Ok?
    ensures forall p | p in parents :: p in w.tasks && w.tasks[p].intent.scope.subject == subject
  {
    if parents == [] {
    } else {
      ParentsExist(w, actor, subject, parents[1..]);
      assert parents == [parents[0]] + parents[1..];
    }
  }

  lemma ExtendFrame(tasks: map<Id, Task>, added: Task)
    requires GraphOk(GraphOf(tasks)) && added.taskId !in tasks
    requires forall p | p in added.dependsOn :: p in tasks
    ensures var tasks' := tasks[added.taskId := added];
      && GraphOk(GraphOf(tasks'))
      && forall k | k in tasks :: ClosureOf(tasks', k) == ClosureOf(tasks, k)
                                  && ClosureOf(tasks, k).Ok? && ScopesOf(tasks', k) == ScopesOf(tasks, k)
  {
    var tasks' := tasks[added.taskId := added];
    GraphExtended(GraphOf(tasks), added.taskId, added.dependsOn);
    assert GraphOf(tasks') == GraphOf(tasks)[added.taskId := added.dependsOn];
    forall k | k in tasks
      ensures ClosureOf(tasks', k) == ClosureOf(tasks, k)
      ensures ClosureOf(tasks, k).Ok? && ScopesOf(tasks', k) == ScopesOf(tasks, k)
    {
      GraphOkClosure(tasks, k);
      assert k in GraphOf(tasks);
      var c := ClosureOf(tasks, k).value;
      assert forall a | a in c :: tasks'[a] == tasks[a];
    }
  }

  lemma WithTaskSafe(w: Workspace, call: Call, intent: Intent, dependsOn: seq<Id>)
    requires Safe(w.tasks, w.cases) && call.env.newId !in w.tasks
    requires CheckParents(w, call.actor, intent.scope.subject, dependsOn).Ok?
    ensures SafeBut(WithTask(w, call, intent, dependsOn).tasks, w.cases, call.env.newId)
  {
    var tasks' := WithTask(w, call, intent, dependsOn).tasks;
    ParentsExist(w, call.actor, intent.scope.subject, dependsOn);
    SortIsSorted(dependsOn);
    ExtendFrame(w.tasks, tasks'[call.env.newId]);
    forall t | t in tasks' && t != call.env.newId
      ensures ClosureOf(tasks', t).Ok? && TaskSafe(t, tasks'[t], ScopesOf(tasks', t), w.cases)
    {
      assert TaskSafe(t, w.tasks[t], ScopesOf(w.tasks, t), w.cases);
    }
    GraphOkClosure(tasks', call.env.newId);
  }

  // ----- Every command -----

  lemma RememberFrame(w: Workspace, desk: Option<Config>, c: Id, sources: set<Id>)
    requires c in w.cases && Remember(w, desk, c, sources).Ok?
    ensures var noted := Remember(w, desk, c, sources).value; noted == w.(artifacts := noted.artifacts)
  {
  }

  // Commands that only write records other commands read later.
  predicate Clerical(command: Command) {
    match command
    case Bootstrap => true
    case QuarantineNote(_, _) => true
    case Investigate(_) => true
    case HandoffReport(_, _, _) => true
    case AcceptHandoff(_) => true
    case PrepareReview(_, _) => true
    case ReserveSource(_, _, _, _) => true
    case FinishSource(_, _, _) => true
    case _ => false
  }

  ghost predicate CoreUnchanged(w: Workspace, s: Workspace) {
    && s.tasks == w.tasks && s.cases == w.cases && s.caseHistory == w.caseHistory
    && s.baselines == w.baselines && s.baselineHistory == w.baselineHistory
    && s.decisions == w.decisions && s.lessons == w.lessons && s.tenantId == w.tenantId
  }

  lemma ReserveInFrame(w: Workspace, call: Call, c: Id, resource: Resource, force: bool)
    requires c in w.cases && call.carried.Reservation? && call.env.desk.Some?
    requires Reserve(w, call, c, resource, force).Ok?
    ensures var s := Reserve(w, call, c, resource, force).value.state; s == w.(artifacts := s.artifacts)
  {
  }

  lemma ReserveFrame(w: Workspace, call: Call, c: Id, resource: Resource, force: bool)
    requires ReserveChange(w, call, c, resource, force).Ok?
    ensures CoreUnchanged(w, ReserveChange(w, call, c, resource, force).value.state)
    ensures var s := ReserveChange(w, call, c, resource, force).value.state; s.reports == w.reports && s.handoffs == w.handoffs
  {
    RememberFrame(w, call.env.desk, c, {call.carried.spec.sourceId});
    ReserveInFrame(Remember(w, call.env.desk, c, {call.carried.spec.sourceId}).value, call, c, resource, force);
  }

  lemma FinishFrame(w: Workspace, call: Call, c: Id, id: RequestId, fetched: FetchResult)
    requires FinishChange(w, call, c, id, fetched).Ok?
    ensures CoreUnchanged(w, FinishChange(w, call, c, id, fetched).value.state)
    ensures var s := FinishChange(w, call, c, id, fetched).value.state; s.reports == w.reports && s.handoffs == w.handoffs
  {
  }

  lemma HandoffFrame(w: Workspace, call: Call, c: Id, reportId: Id, reviewerId: Id)
    requires HandoffChange(w, call, c, reportId, reviewerId).Ok?
    ensures var s := HandoffChange(w, call, c, reportId, reviewerId).value.state;
      CoreUnchanged(w, s) && s.reports == w.reports && s.artifacts == w.artifacts
  {
  }

  lemma AcceptFrame(w: Workspace, call: Call, h: Id)
    requires AcceptChange(w, call, h).Ok?
    ensures var s := AcceptChange(w, call, h).value.state;
      CoreUnchanged(w, s) && s.reports == w.reports && s.artifacts == w.artifacts
  {
  }

  lemma PrepareFrame(w: Workspace, call: Call, t: Id, d: Id)
    requires PrepareChange(w, call, t, d).Ok?
    ensures var s := PrepareChange(w, call, t, d).value.state;
      CoreUnchanged(w, s) && s.reports == w.reports && s.handoffs == w.handoffs
  {
  }

  lemma InvestigateFrame(w: Workspace, call: Call, c: Id)
    requires InvestigateChange(w, call, c).Ok?
    ensures var s := InvestigateChange(w, call, c).value.state;
      CoreUnchanged(w, s) && s.handoffs == w.handoffs && call.carried.Draft? && s == WithReport(w, call.carried)
  {
  }

  lemma ClericalFrame(w: Workspace, call: Call)
    requires Clerical(call.command) && Change(w, call).Ok?
    ensures CoreUnchanged(w, Change(w, call).value.state)
  {
    match call.command
    case Investigate(c) => InvestigateFrame(w, call, c);
    case HandoffReport(c, reportId, reviewerId) => HandoffFrame(w, call, c, reportId, reviewerId);
    case AcceptHandoff(h) => AcceptFrame(w, call, h);
    case PrepareReview(t, d) => PrepareFrame(w, call, t, d);
    case ReserveSource(c, _, resource, force) => ReserveFrame(w, call, c, resource, force);
    case FinishSource(c, id, fetched) => FinishFrame(w, call, c, id, fetched);
    case _ =>
  }

  // What a change of a case looks like, in one shape for opening, ingesting and reopening.
  ghost predicate Raised(w: Workspace, s: Workspace, next: RiskCase, reason: TaintReason) {
    && Advances(w.cases, next) && next.status == Open
    && s.cases == w.cases[next.caseId := next]
    && s.caseHistory == w.caseHistory[next.caseId := History(w.caseHistory, next.caseId) + [next]]
    && s.tasks == Invalidate(w.tasks, Affected(w.tasks, next.scope), CaseToken(next.caseId, next.version), reason)
    && s.baselines == w.baselines && s.baselineHistory == w.baselineHistory && s.decisions == w.decisions
    && s.reports == w.reports && s.handoffs == w.handoffs && s.lessons == w.lessons && s.tenantId == w.tenantId
    && (next.caseId !in w.cases ==> next.version == 1)
    && next.openedSeq == w.revision + 1
  }

  predicate Raises(command: Command) {
    command.OpenCase? || command.IngestIncident? || command.ReopenCase?
  }

  ghost function RaisedCase(w: Workspace, call: Call): RiskCase
    requires Raises(call.command)
    requires call.command.ReopenCase? ==> call.command.caseId in w.cases
  {
    match call.command
    case OpenCase(scope, kind, evidence) => NewCase(w, call, scope, kind, evidence)
    case IngestIncident(_, _, scope, kind, evidence, _) => NewCase(w, call, scope, kind, evidence)
    case ReopenCase(c, evidence) => ReopenedCase(w, call, c, evidence)
  }

  lemma RaiseCaseEffect(w: Workspace, call: Call, next: RiskCase, reason: TaintReason)
    requires RaiseCase(w, call, next, reason).Ok?
    requires Advances(w.cases, next) && next.status == Open && next.openedSeq == w.revision + 1
    requires next.caseId !in w.cases ==> next.version == 1
    ensures Raised(w, RaiseCase(w, call, next, reason).value.state, next, reason)
  {
    RememberFrame(WithCase(w, next), call.env.desk, next.caseId, {});
  }

  lemma OpenEffect(w: Workspace, call: Call, scope: Scope, kind: RiskKind, evidence: Digest, reason: TaintReason)
    requires OpenChange(w, call, scope, kind, evidence, reason).Ok? && call.env.newId !in w.cases
    ensures Raised(w, OpenChange(w, call, scope, kind, evidence, reason).value.state, NewCase(w, call, scope, kind, evidence), reason)
  {
    RaiseCaseEffect(w, call, NewCase(w, call, scope, kind, evidence), reason);
  }

  lemma IngestEffect(w: Workspace, call: Call, source: Id, scope: Scope, kind: RiskKind, evidence: Digest, payload: Id)
    requires IngestChange(w, call, source, scope, kind, evidence, payload).Ok? && call.env.newId !in w.cases
    ensures Raised(w, IngestChange(w, call, source, scope, kind, evidence, payload).value.state,
                   NewCase(w, call, scope, kind, evidence), SignedIncident)
  {
    OpenEffect(w, call, scope, kind, evidence, SignedIncident);
  }

  lemma ReopenEffect(w: Workspace, call: Call, c: Id, evidence: Digest)
    requires ReopenChange(w, call, c, evidence).Ok?
    requires forall k | k in w.cases :: w.cases[k].caseId == k
    ensures c in w.cases && w.cases[c].status == Resolved
    ensures Raised(w, ReopenChange(w, call, c, evidence).value.state, ReopenedCase(w, call, c, evidence), RiskReopened)
  {
    RaiseCaseEffect(w, call, ReopenedCase(w, call, c, evidence), RiskReopened);
  }

  lemma OpenCommandEffect(w: Workspace, call: Call)
    requires call.command.OpenCase? && Change(w, call).Ok? && call.env.newId !in w.cases
    ensures Raised(w, Change(w, call).value.state, RaisedCase(w, call), NewRisk)
  {
    OpenEffect(w, call, call.command.scope, call.command.kind, call.command.evidence, NewRisk);
  }

  lemma IngestCommandEffect(w: Workspace, call: Call)
    requires call.command.IngestIncident? && Change(w, call).Ok? && call.env.newId !in w.cases
    ensures Raised(w, Change(w, call).value.state, RaisedCase(w, call), SignedIncident)
  {
    var command := call.command;
    assert Change(w, call) == IngestChange(w, call, command.sourceId, command.scope, command.kind, command.evidence, command.payload);
    IngestEffect(w, call, command.sourceId, command.scope, command.kind, command.evidence, command.payload);
  }

  lemma ReopenCommandEffect(w: Workspace, call: Call)
    requires call.command.ReopenCase? && Change(w, call).Ok?
    requires forall c | c in w.cases :: w.cases[c].caseId == c
    ensures call.command.caseId in w.cases && w.cases[call.command.caseId].status == Resolved
    ensures Raised(w, Change(w, call).value.state, RaisedCase(w, call), RiskReopened)
  {
    ReopenEffect(w, call, call.command.caseId, call.command.evidence);
  }

  lemma RaiseEffect(w: Workspace, call: Call) returns (reason: TaintReason)
    requires Raises(call.command) && Change(w, call).Ok?
    requires call.env.newId !in w.cases
    requires forall c | c in w.cases :: w.cases[c].caseId == c
    ensures call.command.ReopenCase? ==>
      call.command.caseId in w.cases && w.cases[call.command.caseId].status == Resolved
    ensures Raised(w, Change(w, call).value.state, RaisedCase(w, call), reason)
  {
    if call.command.OpenCase? {
      OpenCommandEffect(w, call);
      reason := NewRisk;
    } else if call.command.IngestIncident? {
      IngestCommandEffect(w, call);
      reason := SignedIncident;
    } else {
      ReopenCommandEffect(w, call);
      reason := RiskReopened;
    }
  }

  // What an accepted resolution does to the aggregate.
  ghost predicate ResolvedInto(w: Workspace, s: Workspace, noted: Workspace, call: Call, next: RiskCase) {
    && next.caseId in w.cases && Advances(w.cases, next) && next.status == Resolved
    && noted.tasks == w.tasks && noted.cases == w.cases[next.caseId := next]
    && s.cases == noted.cases && s.decisions == w.decisions && s.baselines == w.baselines
    && s.caseHistory == w.caseHistory[next.caseId := History(w.caseHistory, next.caseId) + [next]]
    && s.tasks == ResolvedTasks(noted, Affected(w.tasks, next.scope), ResolutionToken(next.caseId, next.version), call.env.at)
    && s.baselineHistory == w.baselineHistory && s.reports == w.reports && s.handoffs == w.handoffs
    && s.tenantId == w.tenantId
  }

  lemma CompleteEffect(w: Workspace, call: Call, c: Id, h: Id, report: Report, resolution: Resolution, evidence: Digest)
    returns (noted: Workspace)
    requires c in w.cases && w.cases[c].caseId == c
    requires CompleteResolution(w, call, c, h, report, resolution, evidence).Ok?
    ensures var s := CompleteResolution(w, call, c, h, report, resolution, evidence).value.state;
      ResolvedInto(w, s, noted, call, ResolvedCase(w, call, c, resolution))
  {
    var resolved := ResolvedCase(w, call, c, resolution);
    RememberFrame(WithCase(WithLink(w, call, resolved, report, h, evidence), resolved), call.env.desk, c, {});
    noted := NotedResolution(w, call, c, h, report, resolution, evidence).value;
  }

  // What a resolution checks before it completes.
  lemma ResolveChecks(w: Workspace, call: Call, c: Id, h: Id, resolution: Resolution, evidence: Digest)
    returns (report: Report)
    requires ResolveChange(w, call, c, h, resolution, evidence).Ok?
    ensures SeesCase(w, call.actor, c) && AcknowledgedReview(w, call, c, h)
    ensures ValidReport(w, call.env.desk, c, w.handoffs[h].reportId, call.env.at) == Ok(report)
    ensures w.handoffs[h].caseVersion == w.cases[c].version && w.cases[c].status == Open
    ensures ResolveChange(w, call, c, h, resolution, evidence) == CompleteResolution(w, call, c, h, report, resolution, evidence)
  {
    report := ValidReport(w, call.env.desk, c, w.handoffs[h].reportId, call.env.at).value;
  }

  lemma ResolveEffect(w: Workspace, call: Call) returns (noted: Workspace)
    requires call.command.Resolve? && Change(w, call).Ok?
    requires forall c | c in w.cases :: w.cases[c].caseId == c
    ensures var c := call.command.caseId;
      && SeesCase(w, call.actor, c) && AcknowledgedReview(w, call, c, call.command.handoffId)
      && ValidReport(w, call.env.desk, c, w.handoffs[call.command.handoffId].reportId, call.env.at).Ok?
      && w.handoffs[call.command.handoffId].caseVersion == w.cases[c].version
      && w.cases[c].status == Open
      && ResolvedInto(w, Change(w, call).value.state, noted, call, ResolvedCase(w, call, c, call.command.resolution))
  {
    var c, h, resolution, evidence := call.command.caseId, call.command.handoffId, call.command.resolution, call.command.evidence;
    assert Change(w, call) == ResolveChange(w, call, c, h, resolution, evidence);
    var report := ResolveChecks(w, call, c, h, resolution, evidence);
    noted := CompleteEffect(w, call, c, h, report, resolution, evidence);
  }

  lemma SafeIsSafeBut(tasks: map<Id, Task>, cases: map<Id, RiskCase>, t: Id)
    requires Safe(tasks, cases)
    ensures SafeBut(tasks, cases, t)
  {
  }

  lemma RegisterKeepsSafe(w: Workspace, call: Call, intent: Intent, dependsOn: seq<Id>)
    requires Safe(w.tasks, w.cases) && call.env.newId !in w.tasks
    requires RegisterChange(w, call, intent, dependsOn).Ok?
    ensures var s := RegisterChange(w, call, intent, dependsOn).value.state; Safe(s.tasks, s.cases)
  {
    var added := WithTask(w, call, intent, dependsOn);
    assert CheckParents(w, call.actor, intent.scope.subject, dependsOn).Ok?;
    WithTaskSafe(w, call, intent, dependsOn);
    DecideKeepsSafe(added, call.env.newId, call, false);
    DecisionParts(added, call.env.newId, call, false);
  }

  lemma EvaluateKeepsSafe(w: Workspace, call: Call, t: Id, explicit: bool)
    requires Safe(w.tasks, w.cases) && EvaluateChange(w, call, t, explicit).Ok?
    ensures var s := EvaluateChange(w, call, t, explicit).value.state; Safe(s.tasks, s.cases)
  {
    SafeIsSafeBut(w.tasks, w.cases, t);
    DecideKeepsSafe(w, t, call, explicit);
  }

  /** Every command keeps tasks safe. */
  lemma ChangeKeepsSafe(w: Workspace, call: Call)
    requires Safe(w.tasks, w.cases) && Change(w, call).Ok?
    requires call.env.newId !in w.tasks && call.env.newId !in w.cases
    ensures var s := Change(w, call).value.state; Safe(s.tasks, s.cases)
  {
    if Clerical(call.command) {
      ClericalFrame(w, call);
    } else if Raises(call.command) {
      var reason := RaiseEffect(w, call);
      RaiseKeepsSafe(w.tasks, w.cases, RaisedCase(w, call), reason);
    } else {
      match call.command
      case SetBaseline(scope, limit, expiresAt) =>
        BaselineKeepsSafe(w.tasks, w.cases, Affected(w.tasks, scope), scope,
                          NextBaseline(w, call, scope, limit, expiresAt).version);
      case RegisterTask(intent, dependsOn) => RegisterKeepsSafe(w, call, intent, dependsOn);
      case Evaluate(t) => EvaluateKeepsSafe(w, call, t, false);
      case Reconsider(t) => EvaluateKeepsSafe(w, call, t, true);
      case Resolve(c, h, resolution, evidence) =>
        var noted := ResolveEffect(w, call);
        ResolveKeepsSafe(noted, w.cases, ResolvedCase(w, call, c, resolution), Affected(w.tasks, w.cases[c].scope), call.env.at);
    }
  }
}
