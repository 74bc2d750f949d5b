/** Who may do what, and what an accepted command does to tasks, decisions, baselines and cases, field by field. */
module CommandLaws {
  import opened Common
  import opened CaseworkModels
  import opened DependencyGraph
  import opened SourceGuard
  import opened EvidenceDesk
  import opened CasePolicy
  import opened Commands
  import opened Envelope
  import opened Safety
  import opened Integrity
  import opened ProofValidity

  // ----- Authorization and visibility -----

  predicate Shows(w: Workspace, actor: Actor, c: Id) {
    c in w.cases && w.cases[c].scope.subject in actor.subjects
  }

  predicate ShowsTask(w: Workspace, actor: Actor, t: Id) {
    t in w.tasks && w.tasks[t].intent.scope.subject in actor.subjects
  }

  // The role that a command asks for, and the task, case or scope its actor must be allowed to see.
  ghost predicate Authorized(w: Workspace, call: Call) {
    var actor := call.actor;
    var acts, reviews := actor.role in {Owner, Investigator}, actor.role == Reviewer;
    match call.command
    case Bootstrap => actor.role == Owner
    case SetBaseline(scope, _, expiresAt) =>
      actor.role == Owner && scope.subject in actor.subjects && call.env.at < expiresAt
    case RegisterTask(intent, _) => acts && intent.scope.subject in actor.subjects
    case Evaluate(t) => (acts || reviews) && ShowsTask(w, actor, t)
    case Reconsider(t) => reviews && ShowsTask(w, actor, t)
    case OpenCase(scope, _, _) => acts && scope.subject in actor.subjects
    case IngestIncident(_, _, scope, _, _, _) => acts && scope.subject in actor.subjects
    case ReopenCase(c, _) => acts && Shows(w, actor, c)
    case QuarantineNote(scope, _) => acts && scope.subject in actor.subjects
    case Investigate(c) => actor.role == Investigator && Shows(w, actor, c)
    case HandoffReport(c, _, _) => actor.role == Investigator && Shows(w, actor, c)
    case AcceptHandoff(h) =>
      reviews && h in w.handoffs && w.handoffs[h].reviewerId == actor.actorId && Shows(w, actor, w.handoffs[h].caseId)
    case Resolve(c, _, _, _) => reviews && Shows(w, actor, c)
    case PrepareReview(t, _) => (acts || reviews) && ShowsTask(w, actor, t)
    case ReserveSource(c, _, _, _) => acts && Shows(w, actor, c)
    case FinishSource(c, _, _) => acts && Shows(w, actor, c)
  }

  // What the command expects is still so: its investigation basis, or the revision it states.
  ghost predicate StillExpected(w: Workspace, call: Call) {
    if call.command.Investigate? then
      var c := call.command.caseId;
      c in w.cases && call.carried.Draft? && InvestigationBasisOf(w, c) == Ok(call.carried.report.basis)
    else w.revision == call.expected
  }

  /**
   A command takes effect exactly when its actor is authorized, its key is new, what it expects is still so, there is
   room, and its own conditions hold.
   */
  lemma AcceptedIff(w: Workspace, call: Call)
    ensures Accepted(w, call) <==>
      && Authorized(w, call) && (call.actor.actorId, call.key) !in w.completed && StillExpected(w, call)
      && w.revision < 5000 && (call.command.Bootstrap? ==> w.revision == 0) && Change(w, call).Ok?
  {
    AuthorizedIff(w, call);
    ExpectedIff(w, call);
  }

  lemma AuthorizedIff(w: Workspace, call: Call)
    ensures Admit(call).Ok? && Precheck(w, call.actor, call.command).Ok? <==> Authorized(w, call)
  {
  }

  lemma ExpectedIff(w: Workspace, call: Call)
    ensures Current(w, call).Ok? <==> StillExpected(w, call)
  {
  }

  // ----- What every accepted command records -----

  /** One event is appended, saying who asked for what, when and with which outcome, and the response is kept under the key. */
  lemma RecordSays(w: Workspace, call: Call)
    requires Accepted(w, call)
    ensures var s := Next(w, call);
      && s.revision == w.revision + 1 && |s.audit| == |w.audit| + 1 && s.audit[..|w.audit|] == w.audit
      && var last := s.audit[|w.audit|];
      && last.event == Event(w.revision + 1, call.env.at, call.actor.actorId, call.actor.role,
                             Fingerprint(call.command, call.actor.actorId, call.session), last.event.outcome,
                             if w.audit == [] then Genesis else w.audit[|w.audit| - 1].hash)
      && last.hash == EventHash(last.event)
      && s.completed == w.completed[(call.actor.actorId, call.key) :=
           Completed(Fingerprint(call.command, call.actor.actorId, call.session),
                     Response(last.event.outcome, w.revision + 1, EventHash(last.event), false))]
      && Change(w, call).Ok? && last.event.outcome == Change(w, call).value.outcome
      && s == Change(w, call).value.state.(revision := s.revision, audit := s.audit, completed := s.completed)
  {
    NextMeaning(w, call);
    var event := EventFor(w, call, Change(w, call).value.outcome);
    assert Next(w, call).audit == w.audit + [AuditEntry(event, EventHash(event))];
  }

  // ----- Suspension -----

  // The task depends, directly or not, on work in a scope.
  ghost predicate DependsOn(tasks: map<Id, Task>, t: Id, scope: Scope) {
    t in tasks && ClosureOf(tasks, t).Ok? && exists k :: k in ClosureOf(tasks, t).value && tasks[k].intent.scope == scope
  }

  lemma AffectedDepends(tasks: map<Id, Task>, scope: Scope, t: Id)
    requires GraphOk(GraphOf(tasks))
    ensures t in Affected(tasks, scope) <==> DependsOn(tasks, t, scope)
  {
    if t in tasks {
      AffectedExact(tasks, scope, t);
    }
  }

  // Exactly the tasks that depend on the scope gained the taint and were suspended.
  ghost predicate Suspends(tasks: map<Id, Task>, tasks': map<Id, Task>, scope: Scope, token: Token,
                           reason: TaintReason) {
    && tasks'.Keys == tasks.Keys
    && forall t | t in tasks ::
         tasks'[t] ==
           if DependsOn(tasks, t, scope)
           then tasks[t].(taints := tasks[t].taints[token := reason], status := Suspended) else tasks[t]
  }

  lemma InvalidateSuspends(tasks: map<Id, Task>, scope: Scope, token: Token, reason: TaintReason)
    requires GraphOk(GraphOf(tasks))
    ensures Suspends(tasks, Invalidate(tasks, Affected(tasks, scope), token, reason), scope, token, reason)
  {
    forall t | t in tasks
      ensures t in Affected(tasks, scope) <==> DependsOn(tasks, t, scope)
    {
      AffectedDepends(tasks, scope, t);
    }
  }

  // ----- Baselines -----

  /** Setting a baseline puts exactly the commanded limit and expiry in force, for that scope alone. */
  lemma SetBaselineSays(w: Workspace, call: Call)
    requires WellFounded(w) && Accepted(w, call) && call.command.SetBaseline?
    ensures var s, scope := Next(w, call), call.command.scope;
      && scope in s.baselines
      && s.baselines[scope] ==
           Baseline(scope, if scope in w.baselines then w.baselines[scope].version + 1 else 1,
                    call.command.limit, call.command.expiresAt, call.actor.actorId, w.revision + 1)
      && (forall o | o != scope :: (o in s.baselines <==> o in w.baselines) && (o in w.baselines ==> s.baselines[o] == w.baselines[o]))
      && scope in s.baselineHistory
      && s.baselineHistory[scope] ==
           (if scope in w.baselineHistory then w.baselineHistory[scope] else []) + [s.baselines[scope]]
      && Suspends(w.tasks, s.tasks, scope, BaselineToken(scope, s.baselines[scope].version), BaselineChanged)
      && s.cases == w.cases && s.decisions == w.decisions && s.artifacts == w.artifacts && s.lessons == w.lessons
  {
    RecordSays(w, call);
    assert Change(w, call) == SetBaselineChange(w, call, call.command.scope, call.command.limit, call.command.expiresAt);
    InvalidateSuspends(w.tasks, call.command.scope,
                       BaselineToken(call.command.scope, Next(w, call).baselines[call.command.scope].version), BaselineChanged);
  }

  // ----- Decisions -----

  /**
   A decision says what the policy says now, about this task's action and basis, for at most ten minutes, and becomes
   the task's current one; one that is not READY is escalated, and one that is asks for human review.
   */
  lemma DecisionIs(w: Workspace, t: Id, call: Call, explicit: bool)
    requires t in w.tasks && Decide(w, t, call, explicit).Ok?
    ensures ClosureOf(w.tasks, t).Ok?
    ensures var made, v := Decide(w, t, call, explicit).value, PolicyOf(w, t, call.env.at, explicit).value;
      var d, s := made.decision.body, made.state;
      && made.decision.proofRoot == d
      && d.decisionId == call.env.newId && d.taskId == t && d.action == (call.actor.tenantId, w.tasks[t].intent)
      && d.verdict == v.verdict && d.reasons == v.reasons && d.causal == v.causal && d.blockers == v.blockers
      && Ok(d.basis) == BasisOf(w, t) && d.revision == w.revision + 1 && d.session == call.session
      && d.createdAt == call.env.at && d.expiresAt <= call.env.at + 600_000_000
      && (d.verdict != Ready ==> d.expiresAt == call.env.at + 600_000_000)
      && d.tool == (if d.verdict == Ready then HumanReviewPrepare else OperatorEscalationCreate)
      && s.decisions == w.decisions[d.decisionId := made.decision]
      && (d.verdict == Ready ==> s.artifacts == w.artifacts)
      && (d.verdict != Ready ==> s.artifacts == w.artifacts[EscalationKey(t, d.decisionId) := EscalationArtifact(d)])
      && s.tasks.Keys == w.tasks.Keys && (forall k | k in w.tasks && k != t :: s.tasks[k] == w.tasks[k])
      && s.tasks[t].current == Some(d.decisionId) && s.tasks[t].status == Of(d.verdict)
      && s.tasks[t].intent == w.tasks[t].intent && s.tasks[t].dependsOn == w.tasks[t].dependsOn
      && s == w.(decisions := s.decisions, artifacts := s.artifacts, tasks := s.tasks)
  {
    DecisionSays(w, t, call, explicit);
    if Decide(w, t, call, explicit).value.decision.body.verdict == Ready {
      LimitOverIsMinimum(w, t, ClosureOf(w.tasks, t).value, call.env.at + TEN_MINUTES);
    }
  }

  /** What a decision does to taints: a READY review clears them, any other adds exactly the open cases in its way. */
  lemma DecisionTaints(w: Workspace, t: Id, call: Call, explicit: bool, token: Token)
    requires t in w.tasks && Decide(w, t, call, explicit).Ok?
    ensures ClosureOf(w.tasks, t).Ok?
    ensures var made := Decide(w, t, call, explicit).value;
      var taints, c := made.state.tasks[t].taints, ClosureOf(w.tasks, t).value;
      if explicit && made.decision.body.verdict == Ready then taints == map[]
      else
        && (token in taints <==>
              || token in w.tasks[t].taints
              || (token.CaseToken? && token.caseId in w.cases && w.cases[token.caseId].status == Open
                  && w.cases[token.caseId].version == token.version
                  && exists k :: k in c && w.tasks[k].intent.scope == w.cases[token.caseId].scope))
  {
    DecisionSays(w, t, call, explicit);
    PolicyMeaning(w, t, call.env.at, explicit);
    BlockersMean(w, ClosureOf(w.tasks, t).value);
  }

  /** On a well-founded graph a decision can always be made. */
  lemma AlwaysDecidable(w: Workspace, t: Id, call: Call, explicit: bool)
    requires t in w.tasks && ClosureOf(w.tasks, t).Ok?
    ensures Decide(w, t, call, explicit).Ok?
  {
    if PolicyOf(w, t, call.env.at, explicit).value.verdict == Ready {
      ExpirySoundAndTight(w, t, call.env.at, explicit);
    }
  }

  lemma {:induction false} ParentsPass(w: Workspace, actor: Actor, subject: Id, parents: seq<Id>)
    ensures CheckParents(w, actor, subject, parents).Ok? <==>
      forall p | p in parents :: ParentFits(w, actor, subject, p)
  {
    if parents == [] {
    } else {
      ParentsPass(w, actor, subject, parents[1..]);
      assert CheckParents(w, actor, subject, parents).Ok? <==>
        ParentFits(w, actor, subject, parents[0]) && CheckParents(w, actor, subject, parents[1..]).Ok?;
      assert forall p :: p in parents <==> p == parents[0] || p in parents[1..];
    }
  }

  // A task that another of the subject may depend on.
  predicate ParentFits(w: Workspace, actor: Actor, subject: Id, p: Id) {
    ShowsTask(w, actor, p) && w.tasks[p].intent.scope.subject == subject
  }

  /**
   A task is registered exactly when there are fewer than 250, no parent is named twice and every parent is visible and
   of its subject.
   */
  lemma RegisteredIff(w: Workspace, call: Call)
    requires WellFounded(w) && call.command.RegisterTask? && call.env.newId !in w.tasks
    ensures var intent, parents := call.command.intent, call.command.dependsOn;
      Change(w, call).Ok? <==>
        && |w.tasks| < 250 && NoDuplicates(parents)
        && (forall p | p in parents :: ParentFits(w, call.actor, intent.scope.subject, p))
  {
    assert Change(w, call) == RegisterChange(w, call, call.command.intent, call.command.dependsOn);
    RegistrationPasses(w, call, call.command.intent, call.command.dependsOn);
  }

  lemma RegistrationPasses(w: Workspace, call: Call, intent: Intent, parents: seq<Id>)
    requires WellFounded(w) && call.env.newId !in w.tasks
    ensures RegisterChange(w, call, intent, parents).Ok? <==>
      && |w.tasks| < 250 && NoDuplicates(parents)
      && (forall p | p in parents :: ParentFits(w, call.actor, intent.scope.subject, p))
  {
    ParentsPass(w, call.actor, intent.scope.subject, parents);
    if |w.tasks| < 250 && NoDuplicates(parents) && CheckParents(w, call.actor, intent.scope.subject, parents).Ok? {
      RegisteredDecidable(w, call, intent, parents);
      RegistrationDecides(w, call, intent, parents);
    } else {
      RegistrationRefused(w, call, intent, parents);
    }
  }

  lemma RegistrationDecides(w: Workspace, call: Call, intent: Intent, parents: seq<Id>)
    requires |w.tasks| < 250 && NoDuplicates(parents) && CheckParents(w, call.actor, intent.scope.subject, parents).Ok?
    requires Decide(WithTask(w, call, intent, parents), call.env.newId, call, false).Ok?
    ensures RegisterChange(w, call, intent, parents).Ok?
  {
  }

  lemma RegistrationRefused(w: Workspace, call: Call, intent: Intent, parents: seq<Id>)
    requires |w.tasks| >= 250 || !NoDuplicates(parents) || CheckParents(w, call.actor, intent.scope.subject, parents).Err?
    ensures RegisterChange(w, call, intent, parents).Err?
  {
  }

  // The new task is stored as it was asked for, its parents in order, and has been decided.
  ghost predicate Registered(w: Workspace, s: Workspace, t: Id, intent: Intent, parents: seq<Id>) {
    && t in s.tasks && s.tasks.Keys == w.tasks.Keys + {t} && (forall k | k in w.tasks :: s.tasks[k] == w.tasks[k])
    && s.tasks[t].intent == intent && multiset(s.tasks[t].dependsOn) == multiset(parents) && Ascending(s.tasks[t].dependsOn)
    && t in s.decisions && s.decisions[t].body.taskId == t && s.tasks[t].current == Some(t)
    && s.tasks[t].status == Of(s.decisions[t].body.verdict)
  }

  /** A registered task is stored as it was asked for, its parents in order, and decided at once. */
  lemma RegisterSays(w: Workspace, call: Call)
    requires call.command.RegisterTask? && call.env.newId !in w.tasks && Change(w, call).Ok?
    ensures Registered(w, Change(w, call).value.state, call.env.newId, call.command.intent, call.command.dependsOn)
  {
    assert Change(w, call) == RegisterChange(w, call, call.command.intent, call.command.dependsOn);
    var made := RegisterParts(w, call, call.command.intent, call.command.dependsOn);
    RegisteredAs(w, call, call.command.intent, call.command.dependsOn, made);
  }

  lemma RegisteredAs(w: Workspace, call: Call, intent: Intent, parents: seq<Id>, made: DecisionMade)
    requires call.env.newId !in w.tasks
    requires Decide(WithTask(w, call, intent, parents), call.env.newId, call, false) == Ok(made)
    ensures Registered(w, made.state, call.env.newId, intent, parents)
  {
    SortIsSorted(parents);
    DecidedAs(WithTask(w, call, intent, parents), call.env.newId, call, made);
  }

  lemma DecidedAs(w: Workspace, t: Id, call: Call, made: DecisionMade)
    requires t in w.tasks && t == call.env.newId && Decide(w, t, call, false) == Ok(made)
    ensures var s := made.state;
      && s.tasks.Keys == w.tasks.Keys && (forall k | k in w.tasks && k != t :: s.tasks[k] == w.tasks[k])
      && s.tasks[t].intent == w.tasks[t].intent && s.tasks[t].dependsOn == w.tasks[t].dependsOn
      && t in s.decisions && s.decisions[t].body.taskId == t && s.tasks[t].current == Some(t)
      && s.tasks[t].status == Of(s.decisions[t].body.verdict)
  {
    DecisionIs(w, t, call, false);
  }

  lemma RegisteredDecidable(w: Workspace, call: Call, intent: Intent, parents: seq<Id>)
    requires WellFounded(w) && call.env.newId !in w.tasks
    requires CheckParents(w, call.actor, intent.scope.subject, parents).Ok?
    ensures Decide(WithTask(w, call, intent, parents), call.env.newId, call, false).Ok?
  {
    var added := WithTask(w, call, intent, parents);
    ParentsExist(w, call.actor, intent.scope.subject, parents);
    SortIsSorted(parents);
    ExtendFrame(w.tasks, added.tasks[call.env.newId]);
    GraphOkClosure(added.tasks, call.env.newId);
    AlwaysDecidable(added, call.env.newId, call, false);
  }

  /** A visible task is always decided anew, explicitly exactly when it is reconsidered. */
  lemma EvaluateSays(w: Workspace, call: Call, t: Id)
    requires WellFounded(w) && (call.command == Evaluate(t) || call.command == Reconsider(t))
    ensures Change(w, call).Ok? <==> ShowsTask(w, call.actor, t)
    ensures Change(w, call).Ok? ==>
      && Decide(w, t, call, call.command.Reconsider?).Ok?
      && var made, changed := Decide(w, t, call, call.command.Reconsider?).value, Change(w, call).value;
      && changed.state == made.state
      && changed.outcome == Decided(made.decision, w.tasks[t].current, made.state.tasks[t].taints.Keys)
  {
    assert Change(w, call) == EvaluateChange(w, call, t, call.command.Reconsider?);
    if t in w.tasks {
      GraphOkClosure(w.tasks, t);
      AlwaysDecidable(w, t, call, call.command.Reconsider?);
    }
  }

  /**
   A review is prepared exactly for a visible task whose current decision is the named one, READY like the task, live,
   on the present basis, and still READY under the policy without review.
   */
  lemma PrepareSays(w: Workspace, call: Call, t: Id, d: Id)
    requires WellFounded(w) && call.command == PrepareReview(t, d)
    ensures Change(w, call).Ok? <==>
      && ShowsTask(w, call.actor, t) && d in w.decisions && w.decisions[d].body.taskId == t
      && w.tasks[t].current == Some(d) && w.tasks[t].status == Of(Ready) && w.decisions[d].body.verdict == Ready
      && w.decisions[d].body.expiresAt > call.env.at && BasisOf(w, t) == Ok(w.decisions[d].body.basis)
      && ReadyNow(w, t, call.env.at)
    ensures Change(w, call).Ok? ==>
      && d in w.decisions
      && Change(w, call).value.state ==
           w.(artifacts := w.artifacts[ReviewKey(t, d) := ReviewArtifact(t, d, w.decisions[d].proofRoot)])
  {
    assert Change(w, call) == PrepareChange(w, call, t, d);
    if t in w.tasks {
      GraphOkClosure(w.tasks, t);
      PolicyMeaning(w, t, call.env.at, false);
    }
  }

  ghost predicate ReadyNow(w: Workspace, t: Id, at: Time) {
    t in w.tasks && ClosureOf(w.tasks, t).Ok? && ReadyConditions(w, t, at, false)
  }

  // ----- Cases -----

  // The policy configured for a case can be noted: none was owed and removed or undercut.
  ghost predicate PolicyNotable(w: Workspace, call: Call, c: Id, scope: Scope) {
    call.env.desk.Some? ==>
      EffectivePolicy(w.artifacts, c, PolicyFor(call.env.desk.value.policies, w.tenantId, scope)).Ok?
  }

  // The case is stored as it is with its history, and suspends what depends on its scope.
  ghost predicate CaseStored(w: Workspace, s: Workspace, riskCase: RiskCase, reason: TaintReason) {
    var c := riskCase.caseId;
    && s.cases == w.cases[c := riskCase]
    && s.caseHistory == w.caseHistory[c := (if c in w.caseHistory then w.caseHistory[c] else []) + [riskCase]]
    && Suspends(w.tasks, s.tasks, riskCase.scope, CaseToken(c, riskCase.version), reason)
    && s.baselines == w.baselines && s.decisions == w.decisions && s.reports == w.reports
    && s.handoffs == w.handoffs && s.lessons == w.lessons
  }

  lemma RaisedIff(w: Workspace, call: Call, riskCase: RiskCase, reason: TaintReason)
    ensures RaiseCase(w, call, riskCase, reason).Ok? <==> PolicyNotable(w, call, riskCase.caseId, riskCase.scope)
  {
  }

  lemma RaisedSays(w: Workspace, call: Call, riskCase: RiskCase, reason: TaintReason)
    requires WellFounded(w) && RaiseCase(w, call, riskCase, reason).Ok?
    ensures CaseStored(w, RaiseCase(w, call, riskCase, reason).value.state, riskCase, reason)
  {
    InvalidateSuspends(w.tasks, riskCase.scope, CaseToken(riskCase.caseId, riskCase.version), reason);
    RememberFrame(WithCase(w, riskCase), call.env.desk, riskCase.caseId, {});
  }

  lemma RaiseSays(w: Workspace, call: Call, riskCase: RiskCase, reason: TaintReason)
    requires WellFounded(w)
    ensures RaiseCase(w, call, riskCase, reason).Ok? <==> PolicyNotable(w, call, riskCase.caseId, riskCase.scope)
    ensures RaiseCase(w, call, riskCase, reason).Ok? ==> CaseStored(w, RaiseCase(w, call, riskCase, reason).value.state, riskCase, reason)
  {
    RaisedIff(w, call, riskCase, reason);
    if RaiseCase(w, call, riskCase, reason).Ok? {
      RaisedSays(w, call, riskCase, reason);
    }
  }

  /** Opening a case, by an operator or by a signed incident, stores it open at version 1, as reported, by its opener. */
  lemma OpenSays(w: Workspace, call: Call)
    requires WellFounded(w) && (call.command.OpenCase? || call.command.IngestIncident?)
    ensures Change(w, call).Ok? <==> |w.cases| < 500 && PolicyNotable(w, call, call.env.newId, call.command.scope)
    ensures Change(w, call).Ok? ==>
      CaseStored(w, Change(w, call).value.state,
                 RiskCase(call.env.newId, call.command.scope, call.command.kind, 1, Open, call.actor.actorId,
                          w.revision + 1, call.command.evidence, None, None, None),
                 if call.command.OpenCase? then NewRisk else SignedIncident)
  {
    var command := call.command;
    var raised := NewCase(w, call, command.scope, command.kind, command.evidence);
    if command.OpenCase? {
      assert Change(w, call) == OpenChange(w, call, command.scope, command.kind, command.evidence, NewRisk);
      RaiseSays(w, call, raised, NewRisk);
    } else {
      IngestIs(w, call);
      RaiseSays(w, call, raised, SignedIncident);
    }
  }

  /** A signed incident is a case opened like any other, with its receipt kept beside it. */
  lemma IngestIs(w: Workspace, call: Call)
    requires call.command.IngestIncident?
    ensures var command := call.command;
      var raised := OpenChange(w, call, command.scope, command.kind, command.evidence, SignedIncident);
      && (Change(w, call).Ok? <==> raised.Ok?)
      && (raised.Ok? ==>
            Change(w, call).value.state == raised.value.state.(artifacts := raised.value.state.artifacts[
              IncidentKey(call.env.newId) :=
                IncidentArtifact(call.env.newId, command.sourceId, call.actor.actorId, call.env.at, command.payload)]))
  {
    var command := call.command;
    assert Change(w, call) == IngestChange(w, call, command.sourceId, command.scope, command.kind, command.evidence, command.payload);
  }

  /** Reopening, of a resolved case only, opens its next version anew, by its reopener and on the new evidence. */
  lemma ReopenSays(w: Workspace, call: Call, c: Id)
    requires WellFounded(w) && call.command.ReopenCase? && call.command.caseId == c
    requires forall k | k in w.cases :: w.cases[k].caseId == k
    ensures Change(w, call).Ok? <==>
      Shows(w, call.actor, c) && w.cases[c].status == Resolved && PolicyNotable(w, call, c, w.cases[c].scope)
    ensures Change(w, call).Ok? ==>
      && c in w.cases
      && CaseStored(w, Change(w, call).value.state,
                    RiskCase(c, w.cases[c].scope, w.cases[c].kind, w.cases[c].version + 1, Open, call.actor.actorId,
                             w.revision + 1, call.command.evidence, None, None, None),
                    RiskReopened)
  {
    assert Change(w, call) == ReopenChange(w, call, c, call.command.evidence);
    if c in w.cases {
      RaiseSays(w, call, ReopenedCase(w, call, c, call.command.evidence), RiskReopened);
    }
  }

  /** Bootstrapping and quarantining a note always succeed and change nothing but the record. */
  lemma NothingElse(w: Workspace, call: Call)
    requires call.command.Bootstrap? || call.command.QuarantineNote?
    ensures Change(w, call).Ok? && Change(w, call).value.state == w
    ensures call.command.QuarantineNote? ==> Change(w, call).value.outcome == Quarantined(call.command.textHash)
  {
  }

  // ----- What the actor is told -----

  // The set lists exactly the tasks that depend on work in the scope.
  ghost predicate Reaches(tasks: map<Id, Task>, scope: Scope, affected: set<Id>) {
    forall t :: t in affected <==> DependsOn(tasks, t, scope)
  }

  lemma AffectedReaches(tasks: map<Id, Task>, scope: Scope)
    requires GraphOk(GraphOf(tasks))
    ensures Reaches(tasks, scope, Affected(tasks, scope))
  {
    forall t
      ensures t in Affected(tasks, scope) <==> DependsOn(tasks, t, scope)
    {
      AffectedDepends(tasks, scope, t);
    }
  }

  /** The owner is told the version that was set and exactly the tasks that were suspended. */
  lemma BaselineAnswers(w: Workspace, call: Call, scope: Scope, limit: nat, expiresAt: Time)
    requires WellFounded(w) && call.command == SetBaseline(scope, limit, expiresAt)
    ensures Change(w, call).Ok?
    ensures var changed := Change(w, call).value;
      && changed.outcome.BaselineSet? && changed.outcome.scope == scope && scope in changed.state.baselines
      && changed.outcome.version == changed.state.baselines[scope].version
      && Reaches(w.tasks, scope, changed.outcome.affected)
  {
    AffectedReaches(w.tasks, scope);
    assert Change(w, call) == SetBaselineChange(w, call, scope, limit, expiresAt);
  }

  lemma RaisedAnswers(w: Workspace, call: Call, riskCase: RiskCase, reason: TaintReason)
    requires WellFounded(w) && RaiseCase(w, call, riskCase, reason).Ok?
    ensures var outcome := RaiseCase(w, call, riskCase, reason).value.outcome;
      outcome.CaseOpened? && outcome.riskCase == riskCase && Reaches(w.tasks, riskCase.scope, outcome.affected)
  {
    AffectedReaches(w.tasks, riskCase.scope);
  }

  lemma OpenAnswers(w: Workspace, call: Call, scope: Scope, kind: RiskKind, evidence: Digest, reason: TaintReason)
    requires WellFounded(w) && OpenChange(w, call, scope, kind, evidence, reason).Ok?
    ensures var outcome := OpenChange(w, call, scope, kind, evidence, reason).value.outcome;
      && outcome.CaseOpened? && outcome.riskCase.caseId == call.env.newId && outcome.riskCase.scope == scope
      && Reaches(w.tasks, scope, outcome.affected)
  {
    RaisedAnswers(w, call, NewCase(w, call, scope, kind, evidence), reason);
  }

  lemma ReopenAnswers(w: Workspace, call: Call, c: Id, evidence: Digest)
    requires WellFounded(w) && ReopenChange(w, call, c, evidence).Ok?
    requires forall k | k in w.cases :: w.cases[k].caseId == k
    ensures var outcome := ReopenChange(w, call, c, evidence).value.outcome;
      outcome.CaseOpened? && outcome.riskCase.caseId == c && c in w.cases && Reaches(w.tasks, w.cases[c].scope, outcome.affected)
  {
    RaisedAnswers(w, call, ReopenedCase(w, call, c, evidence), RiskReopened);
  }

  /** Whoever opens a case, or passes an incident on, is told which case and exactly the tasks that were suspended. */
  lemma CaseAnswers(w: Workspace, call: Call, scope: Scope, kind: RiskKind, evidence: Digest)
    requires WellFounded(w) && call.command == OpenCase(scope, kind, evidence) && Change(w, call).Ok?
    ensures var outcome := Change(w, call).value.outcome;
      && outcome.CaseOpened? && outcome.riskCase.caseId == call.env.newId && Reaches(w.tasks, scope, outcome.affected)
  {
    assert Change(w, call) == OpenChange(w, call, scope, kind, evidence, NewRisk);
    OpenAnswers(w, call, scope, kind, evidence, NewRisk);
  }

  lemma IncidentAnswers(w: Workspace, call: Call)
    requires WellFounded(w) && call.command.IngestIncident? && Change(w, call).Ok?
    ensures var outcome := Change(w, call).value.outcome;
      && outcome.CaseOpened? && outcome.riskCase.caseId == call.env.newId
      && Reaches(w.tasks, call.command.scope, outcome.affected)
  {
    var command := call.command;
    IngestedAnswers(w, call, command.sourceId, command.scope, command.kind, command.evidence, command.payload);
  }

  lemma IngestedAnswers(w: Workspace, call: Call, source: Id, scope: Scope, kind: RiskKind, evidence: Digest, payload: Id)
    requires WellFounded(w) && IngestChange(w, call, source, scope, kind, evidence, payload).Ok?
    ensures var outcome := IngestChange(w, call, source, scope, kind, evidence, payload).value.outcome;
      && outcome.CaseOpened? && outcome.riskCase.caseId == call.env.newId && outcome.riskCase.scope == scope
      && Reaches(w.tasks, scope, outcome.affected)
  {
    OpenAnswers(w, call, scope, kind, evidence, SignedIncident);
  }

  /** A registration is answered with the task and the decision that were stored, a prepared review with its proof. */
  lemma TaskAnswers(w: Workspace, call: Call)
    requires Change(w, call).Ok? && call.env.newId !in w.tasks
    ensures var changed := Change(w, call).value;
      && (call.command.RegisterTask? ==>
            && call.env.newId in changed.state.tasks && call.env.newId in changed.state.decisions
            && changed.outcome == Outcome.Registered(changed.state.tasks[call.env.newId], changed.state.decisions[call.env.newId]))
      && (call.command.PrepareReview? ==>
            && call.command.decisionId in w.decisions
            && changed.outcome == ReviewPrepared(call.command.taskId, call.command.decisionId,
                                                 w.decisions[call.command.decisionId].proofRoot))
  {
    if call.command.RegisterTask? {
      RegisterAnswers(w, call, call.command.intent, call.command.dependsOn);
    } else if call.command.PrepareReview? {
      assert Change(w, call) == PrepareChange(w, call, call.command.taskId, call.command.decisionId);
    }
  }

  lemma RegisterAnswers(w: Workspace, call: Call, intent: Intent, parents: seq<Id>)
    requires RegisterChange(w, call, intent, parents).Ok? && call.env.newId !in w.tasks
    ensures var changed := RegisterChange(w, call, intent, parents).value;
      && call.env.newId in changed.state.tasks && call.env.newId in changed.state.decisions
      && changed.outcome == Outcome.Registered(changed.state.tasks[call.env.newId], changed.state.decisions[call.env.newId])
  {
    DecisionSays(WithTask(w, call, intent, parents), call.env.newId, call, false);
  }
}
