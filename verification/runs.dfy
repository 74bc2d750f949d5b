/** Whole runs: any sequence of calls, accepted or not, from an empty workspace. */
module Runs {
  import opened Common
  import opened CaseworkModels
  import opened DependencyGraph
  import opened SourceState
  import opened SourceGuard
  import opened EvidenceBinding
  import opened EvidenceDesk
  import opened CasePolicy
  import opened Commands
  import opened Envelope
  import opened Safety
  import opened Integrity
  import opened Lifecycle
  import opened ProofValidity
  import opened ArtifactGrowth

  /** What holds of every workspace a run can reach. */
  ghost predicate Inv(w: Workspace) {
    && Safe(w.tasks, w.cases)
    && Intact(w) && Tidy(w) && Lawful(w)
    && ReadyReasoned(w.decisions) && CurrentsKnown(w)
    && Keyed(w.artifacts) && RequestsKnown(w)
  }

  lemma EmptyInv(tenantId: Id)
    ensures Inv(EmptyWorkspace(tenantId))
  {
  }

  // ----- One step -----

  lemma DecideKeepsCurrents(w: Workspace, t: Id, call: Call, explicit: bool)
    requires t in w.tasks && Decide(w, t, call, explicit).Ok? && ReadyReasoned(w.decisions)
    requires CurrentsKnown(w) && call.env.newId !in w.decisions
    ensures var s := Decide(w, t, call, explicit).value.state; ReadyReasoned(s.decisions) && CurrentsKnown(s)
  {
    DecisionSays(w, t, call, explicit);
    ReadyIsReasoned(w, t, call.env.at, explicit);
  }

  lemma RegisterKeepsCurrents(w: Workspace, call: Call, intent: Intent, dependsOn: seq<Id>)
    requires RegisterChange(w, call, intent, dependsOn).Ok? && ReadyReasoned(w.decisions)
    requires CurrentsKnown(w) && call.env.newId !in w.decisions
    ensures var s := RegisterChange(w, call, intent, dependsOn).value.state; ReadyReasoned(s.decisions) && CurrentsKnown(s)
  {
    var made := RegisterParts(w, call, intent, dependsOn);
    WithTaskCurrents(w, call, intent, dependsOn);
    MadeKeepsCurrents(WithTask(w, call, intent, dependsOn), call.env.newId, call, false, made);
  }

  lemma WithTaskCurrents(w: Workspace, call: Call, intent: Intent, dependsOn: seq<Id>)
    requires CurrentsKnown(w)
    ensures var added := WithTask(w, call, intent, dependsOn); CurrentsKnown(added) && added.decisions == w.decisions
  {
  }

  lemma MadeKeepsCurrents(w: Workspace, t: Id, call: Call, explicit: bool, made: DecisionMade)
    requires t in w.tasks && Decide(w, t, call, explicit) == Ok(made) && ReadyReasoned(w.decisions)
    requires CurrentsKnown(w) && call.env.newId !in w.decisions
    ensures ReadyReasoned(made.state.decisions) && CurrentsKnown(made.state)
  {
    DecideKeepsCurrents(w, t, call, explicit);
  }

  lemma EvaluateKeepsCurrents(w: Workspace, call: Call, t: Id, explicit: bool)
    requires EvaluateChange(w, call, t, explicit).Ok? && ReadyReasoned(w.decisions)
    requires CurrentsKnown(w) && call.env.newId !in w.decisions
    ensures var s := EvaluateChange(w, call, t, explicit).value.state; ReadyReasoned(s.decisions) && CurrentsKnown(s)
  {
    DecideKeepsCurrents(w, t, call, explicit);
  }

  // Tasks kept their current decision, and decisions are the same.
  lemma SameCurrents(w: Workspace, s: Workspace)
    requires CurrentsKnown(w) && s.decisions == w.decisions && s.tasks.Keys == w.tasks.Keys
    requires forall t | t in w.tasks :: s.tasks[t].current == w.tasks[t].current
    ensures CurrentsKnown(s)
  {
  }

  lemma DecidingKeepsCurrents(w: Workspace, call: Call)
    requires Decides(call.command) && Change(w, call).Ok?
    requires ReadyReasoned(w.decisions) && CurrentsKnown(w) && call.env.newId !in w.decisions
    ensures var s := Change(w, call).value.state; ReadyReasoned(s.decisions) && CurrentsKnown(s)
  {
    match call.command
    case RegisterTask(intent, dependsOn) => RegisterKeepsCurrents(w, call, intent, dependsOn);
    case Evaluate(t) => EvaluateKeepsCurrents(w, call, t, false);
    case Reconsider(t) => EvaluateKeepsCurrents(w, call, t, true);
  }

  lemma BaselineKeepsCurrents(w: Workspace, call: Call, scope: Scope, limit: nat, expiresAt: Time)
    requires SetBaselineChange(w, call, scope, limit, expiresAt).Ok? && CurrentsKnown(w)
    ensures var s := SetBaselineChange(w, call, scope, limit, expiresAt).value.state;
      s.decisions == w.decisions && CurrentsKnown(s)
  {
  }

  lemma RaisedKeepsCurrents(w: Workspace, s: Workspace, next: RiskCase, reason: TaintReason)
    requires Raised(w, s, next, reason) && CurrentsKnown(w)
    ensures s.decisions == w.decisions && CurrentsKnown(s)
  {
    SameCurrents(w, s);
  }

  lemma ResolvedKeepsCurrents(w: Workspace, s: Workspace, noted: Workspace, call: Call, next: RiskCase)
    requires ResolvedInto(w, s, noted, call, next) && CurrentsKnown(w)
    ensures s.decisions == w.decisions && CurrentsKnown(s)
  {
    SameCurrents(w, s);
  }

  lemma RaisingKeepsCurrents(w: Workspace, call: Call)
    requires Safe(w.tasks, w.cases) && FreshCall(w, call) && Change(w, call).Ok?
    requires Raises(call.command) && CurrentsKnown(w)
    ensures var s := Change(w, call).value.state; s.decisions == w.decisions && CurrentsKnown(s)
  {
    var reason := RaiseEffect(w, call);
    RaisedKeepsCurrents(w, Change(w, call).value.state, RaisedCase(w, call), reason);
  }

  lemma ChangeKeepsCurrents(w: Workspace, call: Call)
    requires Safe(w.tasks, w.cases) && FreshCall(w, call) && Change(w, call).Ok?
    requires ReadyReasoned(w.decisions) && CurrentsKnown(w)
    ensures var s := Change(w, call).value.state; ReadyReasoned(s.decisions) && CurrentsKnown(s)
  {
    if Clerical(call.command) {
      ClericalFrame(w, call);
    } else if Raises(call.command) {
      RaisingKeepsCurrents(w, call);
    } else if Decides(call.command) {
      DecidingKeepsCurrents(w, call);
    } else {
      match call.command
      case SetBaseline(scope, limit, expiresAt) => BaselineKeepsCurrents(w, call, scope, limit, expiresAt);
      case Resolve(c, _, resolution, _) =>
        var noted := ResolveEffect(w, call);
        ResolvedKeepsCurrents(w, Change(w, call).value.state, noted, call, ResolvedCase(w, call, c, resolution));
    }
  }

  lemma NewRequest(w: Workspace, call: Call, k: Key)
    requires Safe(w.tasks, w.cases) && Keyed(w.artifacts) && FreshCall(w, call) && Change(w, call).Ok?
    requires k in Change(w, call).value.state.artifacts && k.RequestKey?
    ensures k in w.artifacts || k == RequestKey(RequestId(call.actor.actorId, call.key))
  {
    if Acquires(call.command) {
      match call.command
      case ReserveSource(c, _, resource, force) => ReservedKeys(w, call, c, resource, force, k);
      case FinishSource(c, id, fetched) => FinishedKeys(w, call, c, id, fetched, k);
    } else {
      OrdinaryGrows(w, call);
    }
  }

  lemma NewRequestIsKnown(w: Workspace, call: Call)
    requires Inv(w) && FreshCall(w, call) && Accepted(w, call)
    ensures RequestsKnown(Next(w, call))
  {
    NextMeaning(w, call);
    var next := Next(w, call);
    forall k | k in next.artifacts && k.RequestKey?
      ensures (k.requestId.actorId, k.requestId.key) in next.completed
    {
      NewRequest(w, call, k);
    }
  }

  lemma ReservedKeys(w: Workspace, call: Call, c: Id, resource: Resource, force: bool, k: Key)
    requires ReserveChange(w, call, c, resource, force).Ok? && Keyed(w.artifacts)
    requires k in ReserveChange(w, call, c, resource, force).value.state.artifacts && k.RequestKey?
    ensures k in w.artifacts || k == RequestKey(RequestId(call.actor.actorId, call.key))
  {
    var source := call.carried.spec.sourceId;
    RememberGrows(w, call.env.desk, c, {source});
    ReserveEither(Remember(w, call.env.desk, c, {source}).value, call, c, resource, force);
  }

  lemma FinishedKeys(w: Workspace, call: Call, c: Id, id: RequestId, fetched: FetchResult, k: Key)
    requires FinishChange(w, call, c, id, fetched).Ok?
    requires k in FinishChange(w, call, c, id, fetched).value.state.artifacts && k.RequestKey?
    ensures k in w.artifacts
  {
  }

  lemma InvParts(w: Workspace, s: Workspace, next: Workspace)
    requires Safe(s.tasks, s.cases) && Lawful(s) && ReadyReasoned(s.decisions) && CurrentsKnown(s) && Keyed(s.artifacts)
    requires Intact(next) && Tidy(next) && RequestsKnown(next)
    requires next == s.(revision := next.revision, audit := next.audit, completed := next.completed)
    ensures Inv(next)
  {
  }

  /** Every call keeps the invariant. */
  lemma NextKeepsInv(w: Workspace, call: Call)
    requires Inv(w) && FreshCall(w, call)
    ensures Inv(Next(w, call))
  {
    NextMeaning(w, call);
    if Accepted(w, call) {
      ChangeKeepsSafe(w, call);
      NextKeepsIntact(w, call);
      ChangeKeepsLawful(w, call);
      ChangeKeepsCurrents(w, call);
      ChangeGrows(w, call);
      NewRequestIsKnown(w, call);
      InvParts(w, Change(w, call).value.state, Next(w, call));
    }
  }

  lemma NextKeepsTenant(w: Workspace, call: Call)
    requires Inv(w) && FreshCall(w, call)
    ensures Next(w, call).tenantId == w.tenantId
  {
    NextMeaning(w, call);
    if Accepted(w, call) {
      ChangeKeepsTenant(w, call);
    }
  }

  lemma ChangeKeepsTenant(w: Workspace, call: Call)
    requires Inv(w) && FreshCall(w, call) && Change(w, call).Ok?
    ensures Change(w, call).value.state.tenantId == w.tenantId
  {
    if Clerical(call.command) {
      ClericalFrame(w, call);
    } else if Raises(call.command) {
      var reason := RaiseEffect(w, call);
    } else if Decides(call.command) {
      DecidingFrame(w, call);
    } else {
      match call.command
      case SetBaseline(_, _, _) =>
      case Resolve(_, _, _, _) => var noted := ResolveEffect(w, call);
    }
  }

  // ----- Runs -----

  // Workspace i + 1 is what call i, with fresh identifiers, makes of workspace i.
  ghost predicate StepAt(ws: seq<Workspace>, calls: seq<Call>, i: nat)
    requires i < |calls| && |ws| == |calls| + 1
  {
    FreshCall(ws[i], calls[i]) && ws[i + 1] == Next(ws[i], calls[i])
  }

  /** A run: each workspace follows from the one before by a call with fresh identifiers. */
  ghost predicate Run(ws: seq<Workspace>, calls: seq<Call>, tenantId: Id) {
    && |ws| == |calls| + 1 && ws[0] == EmptyWorkspace(tenantId)
    && forall i: nat | i < |calls| :: StepAt(ws, calls, i)
  }

  /** Every workspace on a run satisfies the invariant; in particular its closures never fail. */
  lemma {:induction false} RunKeepsInv(ws: seq<Workspace>, calls: seq<Call>, tenantId: Id, i: nat)
    requires Run(ws, calls, tenantId) && i < |ws|
    ensures Inv(ws[i])
    decreases i
  {
    if i == 0 {
      EmptyInv(tenantId);
    } else {
      RunKeepsInv(ws, calls, tenantId, i - 1);
      assert StepAt(ws, calls, i - 1);
      NextKeepsInv(ws[i - 1], calls[i - 1]);
    }
  }

  lemma RunStep(ws: seq<Workspace>, calls: seq<Call>, tenantId: Id, i: nat)
    requires Run(ws, calls, tenantId) && i < |calls|
    ensures Inv(ws[i]) && FreshCall(ws[i], calls[i]) && ws[i + 1] == Next(ws[i], calls[i])
  {
    RunKeepsInv(ws, calls, tenantId, i);
    assert StepAt(ws, calls, i);
  }

  lemma BasisExists(w: Workspace, c: Id)
    requires Inv(w) && c in w.cases
    ensures InvestigationBasisOf(w, c).Ok?
  {
    BasesExist(w, w.cases[c].scope);
    HeadsUnambiguous(w, c);
  }

  /**
   On every run, the checks made on loading a sealed workspace pass, and no closure, basis of a task or basis of an
   investigation raises.
   */
  lemma RunNeverFailsIntegrity(ws: seq<Workspace>, calls: seq<Call>, tenantId: Id, i: nat, t: Id, c: Id)
    requires Run(ws, calls, tenantId) && i < |ws|
    ensures Validate(Sealed(ws[i], ws[i])).Ok?
    ensures t in ws[i].tasks ==> Ancestors(GraphOf(ws[i].tasks), t).Ok? && BasisOf(ws[i], t).Ok?
    ensures c in ws[i].cases ==> InvestigationBasisOf(ws[i], c).Ok?
  {
    RunKeepsInv(ws, calls, tenantId, i);
    ValidateMeaning(Sealed(ws[i], ws[i]));
    if t in ws[i].tasks {
      ClosureExists(ws[i], t);
    }
    if c in ws[i].cases {
      BasisExists(ws[i], c);
    }
  }

  /**
   Run safety. A READY task carries no taint and reaches no open case; every open case a task reaches is
   among its taints, under the case's present version.
   */
  lemma RunIsSafe(ws: seq<Workspace>, calls: seq<Call>, tenantId: Id, i: nat, t: Id, c: Id)
    requires Run(ws, calls, tenantId) && i < |ws| && t in ws[i].tasks && c in ws[i].cases
    ensures ClosureOf(ws[i].tasks, t).Ok?
    ensures ws[i].tasks[t].status == Of(Ready) ==> ws[i].tasks[t].taints == map[]
    ensures ws[i].cases[c].status == Open && ws[i].cases[c].scope in ScopesOf(ws[i].tasks, t) ==>
      && CaseToken(c, ws[i].cases[c].version) in ws[i].tasks[t].taints
      && ws[i].tasks[t].status != Of(Ready)
  {
    RunKeepsInv(ws, calls, tenantId, i);
    GraphOkClosure(ws[i].tasks, t);
    assert TaskSafe(t, ws[i].tasks[t], ScopesOf(ws[i].tasks, t), ws[i].cases);
  }

  lemma StepExtends(ws: seq<Workspace>, calls: seq<Call>, tenantId: Id, i: nat)
    requires Run(ws, calls, tenantId) && i < |calls|
    ensures Extends(ws[i], ws[i + 1])
  {
    RunStep(ws, calls, tenantId, i);
    NextKeepsIntact(ws[i], calls[i]);
  }

  /** Histories and the audit only grow, and stored decisions and reports never change, between any two points of a run. */
  lemma {:induction false} RunExtends(ws: seq<Workspace>, calls: seq<Call>, tenantId: Id, i: nat, j: nat)
    requires Run(ws, calls, tenantId) && i <= j < |ws|
    ensures Extends(ws[i], ws[j])
    decreases j
  {
    if i == j {
    } else {
      RunExtends(ws, calls, tenantId, i, j - 1);
      StepExtends(ws, calls, tenantId, j - 1);
      ExtendsThrough(ws[i], ws[j - 1], ws[j]);
    }
  }

  lemma ExtendsThrough(a: Workspace, b: Workspace, c: Workspace)
    requires Extends(a, b) && Extends(b, c)
    ensures Extends(a, c)
  {
    forall k | k in a.caseHistory
      ensures k in c.caseHistory && a.caseHistory[k] <= c.caseHistory[k]
    {
      assert a.caseHistory[k] <= b.caseHistory[k] <= c.caseHistory[k];
    }
    forall k | k in a.baselineHistory
      ensures k in c.baselineHistory && a.baselineHistory[k] <= c.baselineHistory[k]
    {
      assert a.baselineHistory[k] <= b.baselineHistory[k] <= c.baselineHistory[k];
    }
  }

  lemma NextGrows(w: Workspace, call: Call, c: Id)
    requires Inv(w) && FreshCall(w, call)
    ensures Below(Obligations(w.artifacts, c), Obligations(Next(w, call).artifacts, c))
  {
    NextMeaning(w, call);
    if Accepted(w, call) {
      ChangeGrows(w, call);
      GrowsRetains(w.artifacts, Next(w, call).artifacts, c);
    }
  }

  lemma StepGrows(ws: seq<Workspace>, calls: seq<Call>, tenantId: Id, i: nat, c: Id)
    requires Run(ws, calls, tenantId) && i < |calls|
    ensures Below(Obligations(ws[i].artifacts, c), Obligations(ws[i + 1].artifacts, c))
  {
    RunStep(ws, calls, tenantId, i);
    NextGrows(ws[i], calls[i], c);
  }

  /** Obligations only grow between any two points of a run, whatever configurations the calls saw. */
  lemma {:induction false} RunObligationsGrow(ws: seq<Workspace>, calls: seq<Call>, tenantId: Id, i: nat, j: nat, c: Id)
    requires Run(ws, calls, tenantId) && i <= j < |ws|
    ensures Below(Obligations(ws[i].artifacts, c), Obligations(ws[j].artifacts, c))
    decreases j
  {
    if i == j {
    } else {
      RunObligationsGrow(ws, calls, tenantId, i, j - 1, c);
      StepGrows(ws, calls, tenantId, j - 1, c);
    }
  }

  // ----- Recovery only through review -----

  // What a change does to one taint of one task.
  ghost predicate TaintKept(s: Workspace, t: Id, token: Token) {
    t in s.tasks && token in s.tasks[t].taints
  }

  lemma DecideTaints(w: Workspace, k: Id, call: Call, explicit: bool, t: Id, token: Token)
    requires k in w.tasks && Decide(w, k, call, explicit).Ok? && TaintKept(w, t, token)
    ensures var made := Decide(w, k, call, explicit).value;
      || TaintKept(made.state, t, token)
      || (k == t && explicit && made.decision.body.verdict == Ready && made.state.tasks[t].status == Of(Ready))
  {
    DecisionSays(w, k, call, explicit);
  }

  lemma RegisterTaints(w: Workspace, call: Call, intent: Intent, dependsOn: seq<Id>, t: Id, token: Token)
    requires RegisterChange(w, call, intent, dependsOn).Ok? && call.env.newId !in w.tasks && TaintKept(w, t, token)
    ensures TaintKept(RegisterChange(w, call, intent, dependsOn).value.state, t, token)
  {
    var made := RegisterParts(w, call, intent, dependsOn);
    DecideTaints(WithTask(w, call, intent, dependsOn), call.env.newId, call, false, t, token);
  }

  lemma ResolvedTaints(w: Workspace, impacted: set<Id>, token': Token, at: Time, t: Id, token: Token)
    requires t in w.tasks && token in w.tasks[t].taints
    ensures token in ResolvedTasks(w, impacted, token', at)[t].taints
  {
  }

  // The one way to lose a taint: a reviewer's reconsideration that came out READY.
  ghost predicate Reconsidered(w: Workspace, call: Call, t: Id) {
    && call.command == Reconsider(t) && t in w.tasks && Decide(w, t, call, true).Ok?
    && Decide(w, t, call, true).value.decision.body.verdict == Ready
    && Decide(w, t, call, true).value.state.tasks[t].status == Of(Ready)
  }

  lemma RaisedTaints(w: Workspace, s: Workspace, next: RiskCase, reason: TaintReason, t: Id, token: Token)
    requires Raised(w, s, next, reason) && TaintKept(w, t, token)
    ensures TaintKept(s, t, token)
  {
  }

  lemma ResolvedIntoTaints(w: Workspace, s: Workspace, noted: Workspace, call: Call, next: RiskCase, t: Id,
                           token: Token)
    requires ResolvedInto(w, s, noted, call, next) && TaintKept(w, t, token)
    ensures TaintKept(s, t, token)
  {
    ResolvedTaints(noted, Affected(w.tasks, next.scope), ResolutionToken(next.caseId, next.version), call.env.at, t, token);
  }

  lemma BaselineTaints(w: Workspace, call: Call, scope: Scope, limit: nat, expiresAt: Time, t: Id, token: Token)
    requires SetBaselineChange(w, call, scope, limit, expiresAt).Ok? && TaintKept(w, t, token)
    ensures TaintKept(SetBaselineChange(w, call, scope, limit, expiresAt).value.state, t, token)
  {
  }

  lemma EvaluateTaints(w: Workspace, call: Call, k: Id, explicit: bool, t: Id, token: Token)
    requires EvaluateChange(w, call, k, explicit).Ok? && TaintKept(w, t, token)
    ensures k in w.tasks && Decide(w, k, call, explicit).Ok?
    ensures TaintKept(EvaluateChange(w, call, k, explicit).value.state, t, token)
      || (k == t && explicit && Decide(w, k, call, explicit).value.decision.body.verdict == Ready
          && Decide(w, k, call, explicit).value.state.tasks[t].status == Of(Ready))
  {
    DecideTaints(w, k, call, explicit, t, token);
  }

  lemma RaisingTaints(w: Workspace, call: Call, t: Id, token: Token)
    requires Safe(w.tasks, w.cases) && FreshCall(w, call) && Change(w, call).Ok? && TaintKept(w, t, token)
    requires Raises(call.command)
    ensures TaintKept(Change(w, call).value.state, t, token)
  {
    var reason := RaiseEffect(w, call);
    RaisedTaints(w, Change(w, call).value.state, RaisedCase(w, call), reason, t, token);
  }

  lemma EvaluatingTaints(w: Workspace, call: Call, t: Id, token: Token)
    requires call.command.Evaluate? && Change(w, call).Ok? && TaintKept(w, t, token)
    ensures TaintKept(Change(w, call).value.state, t, token)
  {
    EvaluateTaints(w, call, call.command.taskId, false, t, token);
  }

  lemma ReconsideringTaints(w: Workspace, call: Call, t: Id, token: Token)
    requires call.command.Reconsider? && Change(w, call).Ok? && TaintKept(w, t, token)
    ensures TaintKept(Change(w, call).value.state, t, token) || Reconsidered(w, call, t)
  {
    EvaluateTaints(w, call, call.command.taskId, true, t, token);
  }

  lemma RegisteringTaints(w: Workspace, call: Call, t: Id, token: Token)
    requires call.command.RegisterTask? && Change(w, call).Ok? && TaintKept(w, t, token)
    requires call.env.newId !in w.tasks
    ensures TaintKept(Change(w, call).value.state, t, token)
  {
    RegisterTaints(w, call, call.command.intent, call.command.dependsOn, t, token);
  }

  lemma DecidingTaints(w: Workspace, call: Call, t: Id, token: Token)
    requires call.env.newId !in w.tasks && Change(w, call).Ok? && TaintKept(w, t, token)
    requires Decides(call.command)
    ensures TaintKept(Change(w, call).value.state, t, token) || Reconsidered(w, call, t)
  {
    if call.command.RegisterTask? {
      RegisteringTaints(w, call, t, token);
    } else if call.command.Evaluate? {
      EvaluatingTaints(w, call, t, token);
    } else {
      ReconsideringTaints(w, call, t, token);
    }
  }

  lemma ChangeTaints(w: Workspace, call: Call, t: Id, token: Token)
    requires Safe(w.tasks, w.cases) && FreshCall(w, call) && Change(w, call).Ok? && TaintKept(w, t, token)
    ensures TaintKept(Change(w, call).value.state, t, token) || Reconsidered(w, call, t)
  {
    if Clerical(call.command) {
      ClericalFrame(w, call);
    } else if Raises(call.command) {
      RaisingTaints(w, call, t, token);
    } else if Decides(call.command) {
      DecidingTaints(w, call, t, token);
    } else {
      match call.command
      case SetBaseline(scope, limit, expiresAt) => BaselineTaints(w, call, scope, limit, expiresAt, t, token);
      case Resolve(c, _, resolution, _) =>
        var noted := ResolveEffect(w, call);
        ResolvedIntoTaints(w, Change(w, call).value.state, noted, call, ResolvedCase(w, call, c, resolution), t, token);
    }
  }

  /** A call at which a reviewer's reconsideration of t came out READY while case c was resolved. */
  ghost predicate Releases(w: Workspace, call: Call, t: Id, c: Id) {
    && Accepted(w, call)
    && call.command == Reconsider(t) && call.actor.role == Reviewer
    && c in w.cases && w.cases[c].status == Resolved
    && t in Next(w, call).tasks && Next(w, call).tasks[t].status == Of(Ready)
  }

  lemma TaintedIsNotReady(w: Workspace, t: Id, c: Id, n: nat)
    requires Inv(w) && TaintKept(w, t, CaseToken(c, n))
    ensures w.tasks[t].status != Of(Ready) && c in w.cases
    ensures ClosureOf(w.tasks, t).Ok? && w.cases[c].scope in ScopesOf(w.tasks, t)
  {
    GraphOkClosure(w.tasks, t);
    assert TaskSafe(t, w.tasks[t], ScopesOf(w.tasks, t), w.cases);
  }

  // A READY decision means that no case is open in the closure.
  lemma ReadyMeansResolved(w: Workspace, call: Call, t: Id, c: Id)
    requires t in w.tasks && Decide(w, t, call, true).Ok? && Decide(w, t, call, true).value.decision.body.verdict == Ready
    requires ClosureOf(w.tasks, t).Ok? && c in w.cases && w.cases[c].scope in ScopesOf(w.tasks, t)
    ensures w.cases[c].status == Resolved
  {
    DecisionSays(w, t, call, true);
    PolicyMeaning(w, t, call.env.at, true);
  }

  lemma ReconsideredIsNext(w: Workspace, call: Call, t: Id)
    requires Accepted(w, call) && Reconsidered(w, call, t)
    ensures call.actor.role == Reviewer && t in Next(w, call).tasks && Next(w, call).tasks[t].status == Of(Ready)
  {
    NextMeaning(w, call);
  }

  lemma LosingATaintReleases(w: Workspace, call: Call, t: Id, c: Id, n: nat)
    requires Inv(w) && FreshCall(w, call) && TaintKept(w, t, CaseToken(c, n)) && !TaintKept(Next(w, call), t, CaseToken(c, n))
    ensures Releases(w, call, t, c)
  {
    NextMeaning(w, call);
    ChangeTaints(w, call, t, CaseToken(c, n));
    TaintedIsNotReady(w, t, c, n);
    ReadyMeansResolved(w, call, t, c);
    ReconsideredIsNext(w, call, t);
  }

  // A taint that is there at i and gone at j was lost at some step in between.
  lemma {:induction false} LostAt(ws: seq<Workspace>, i: nat, j: nat, t: Id, token: Token) returns (k: nat)
    requires i <= j < |ws| && TaintKept(ws[i], t, token) && !TaintKept(ws[j], t, token)
    ensures i <= k < j && TaintKept(ws[k], t, token) && !TaintKept(ws[k + 1], t, token)
    decreases j - i
  {
    if TaintKept(ws[i + 1], t, token) {
      k := LostAt(ws, i + 1, j, t, token);
    } else {
      k := i;
    }
  }

  lemma ReadyLostItsTaint(ws: seq<Workspace>, calls: seq<Call>, tenantId: Id, j: nat, t: Id, c: Id, n: nat)
    requires Run(ws, calls, tenantId) && j < |ws| && t in ws[j].tasks && ws[j].tasks[t].status == Of(Ready)
    ensures !TaintKept(ws[j], t, CaseToken(c, n))
  {
    RunKeepsInv(ws, calls, tenantId, j);
    if TaintKept(ws[j], t, CaseToken(c, n)) {
      TaintedIsNotReady(ws[j], t, c, n);
    }
  }

  /**
   Recovery only through review. If a task carries a case's taint at one point of a run and is READY at a later
   one, then in between a reviewer reconsidered that very task, successfully, while that case was resolved.
   */
  lemma RecoveryOnlyByReview(ws: seq<Workspace>, calls: seq<Call>, tenantId: Id, i: nat, j: nat, t: Id, c: Id, n: nat)
    returns (k: nat)
    requires Run(ws, calls, tenantId) && i <= j < |ws|
    requires TaintKept(ws[i], t, CaseToken(c, n))
    requires t in ws[j].tasks && ws[j].tasks[t].status == Of(Ready)
    ensures i <= k < j && Releases(ws[k], calls[k], t, c)
  {
    ReadyLostItsTaint(ws, calls, tenantId, j, t, c, n);
    k := LostAt(ws, i, j, t, CaseToken(c, n));
    StepReleases(ws, calls, tenantId, k, t, c, n);
  }

  lemma StepReleases(ws: seq<Workspace>, calls: seq<Call>, tenantId: Id, i: nat, t: Id, c: Id, n: nat)
    requires Run(ws, calls, tenantId) && i < |calls|
    requires TaintKept(ws[i], t, CaseToken(c, n)) && !TaintKept(ws[i + 1], t, CaseToken(c, n))
    ensures Releases(ws[i], calls[i], t, c)
  {
    RunStep(ws, calls, tenantId, i);
    LosingATaintReleases(ws[i], calls[i], t, c, n);
  }

  // ----- At most once -----

  lemma AcceptedAdvances(w: Workspace, call: Call)
    ensures Next(w, call).revision == w.revision + (if Accepted(w, call) then 1 else 0)
    ensures forall k | k in w.completed :: k in Next(w, call).completed && Next(w, call).completed[k] == w.completed[k]
    ensures Accepted(w, call) ==> KeyOf(call) in Next(w, call).completed
  {
    NextMeaning(w, call);
  }

  lemma StepMonotone(ws: seq<Workspace>, calls: seq<Call>, tenantId: Id, i: nat)
    requires Run(ws, calls, tenantId) && i < |calls|
    ensures ws[i].revision <= ws[i + 1].revision && RecordsKept(ws[i].completed, ws[i + 1].completed)
  {
    RunStep(ws, calls, tenantId, i);
    AcceptedAdvances(ws[i], calls[i]);
  }

  lemma {:induction false} RunMonotone(ws: seq<Workspace>, calls: seq<Call>, tenantId: Id, i: nat, j: nat)
    requires Run(ws, calls, tenantId) && i <= j < |ws|
    ensures ws[i].revision <= ws[j].revision && RecordsKept(ws[i].completed, ws[j].completed)
    decreases j
  {
    if i < j {
      RunMonotone(ws, calls, tenantId, i, j - 1);
      StepMonotone(ws, calls, tenantId, j - 1);
    }
  }

  // An accepted call commits: it was current, used a new key, advanced the revision and stored its response.
  lemma AcceptedMeans(w: Workspace, call: Call)
    requires Accepted(w, call)
    ensures KeyOf(call) !in w.completed && (!call.command.Investigate? ==> call.expected == w.revision)
    ensures Next(w, call).revision == w.revision + 1
    ensures KeyOf(call) in Next(w, call).completed
    ensures Next(w, call).completed[KeyOf(call)] == Completed(FingerprintOf(call), Attempt(w, call).value.response)
  {
    NextMeaning(w, call);
  }

  // Call i took effect: the revision advanced.
  ghost predicate CommitsAt(ws: seq<Workspace>, i: nat)
    requires i + 1 < |ws|
  {
    ws[i + 1].revision == ws[i].revision + 1
  }

  /** A call takes effect exactly when it is accepted; otherwise it changes nothing at all. */
  lemma CommitsIffAccepted(ws: seq<Workspace>, calls: seq<Call>, tenantId: Id, i: nat)
    requires Run(ws, calls, tenantId) && i < |calls|
    ensures (CommitsAt(ws, i) <==> Accepted(ws[i], calls[i]))
    ensures !CommitsAt(ws, i) ==> ws[i + 1] == ws[i]
  {
    RunStep(ws, calls, tenantId, i);
    AcceptedAdvances(ws[i], calls[i]);
    NextMeaning(ws[i], calls[i]);
  }

  // What a commit shows: a new key, the revision it expected, and its fingerprint kept with its response.
  lemma CommitShows(ws: seq<Workspace>, calls: seq<Call>, tenantId: Id, i: nat)
    requires Run(ws, calls, tenantId) && i < |calls| && CommitsAt(ws, i)
    ensures KeyOf(calls[i]) !in ws[i].completed && KeyOf(calls[i]) in ws[i + 1].completed
    ensures !calls[i].command.Investigate? ==> calls[i].expected == ws[i].revision
    ensures ws[i + 1].completed[KeyOf(calls[i])].request == FingerprintOf(calls[i])
  {
    RunStep(ws, calls, tenantId, i);
    CommitsIffAccepted(ws, calls, tenantId, i);
    AcceptedMeans(ws[i], calls[i]);
  }

  /**
   At most once. Of two calls that took effect on one run, the keys differ; and if both state the revision they
   expect, the expected revisions differ.
   */
  lemma AcceptedOnce(ws: seq<Workspace>, calls: seq<Call>, tenantId: Id, i: nat, j: nat)
    requires Run(ws, calls, tenantId) && i < j < |calls| && CommitsAt(ws, i) && CommitsAt(ws, j)
    ensures KeyOf(calls[i]) != KeyOf(calls[j])
    ensures !calls[i].command.Investigate? && !calls[j].command.Investigate? ==> calls[i].expected != calls[j].expected
  {
    CommitShows(ws, calls, tenantId, i);
    CommitShows(ws, calls, tenantId, j);
    RunMonotone(ws, calls, tenantId, i + 1, j);
  }

  /**
   A retry under a key that took effect, at any later point, changes nothing: it is answered with the response kept
   from that commit, marked as replayed, exactly when it is the same request and its subject is still visible (a
   prepared review must also still hold); otherwise it is refused.
   */
  lemma RetryReplays(ws: seq<Workspace>, calls: seq<Call>, tenantId: Id, i: nat, j: nat, retry: Call)
    requires Run(ws, calls, tenantId) && i < j < |ws| && CommitsAt(ws, i) && KeyOf(retry) == KeyOf(calls[i])
    ensures Next(ws[j], retry) == ws[j]
    ensures Attempt(ws[j], retry).Ok? <==>
      FingerprintOf(retry) == FingerprintOf(calls[i]) && Replayable(ws[j], retry)
    ensures Attempt(ws[j], retry).Ok? ==>
      KeyOf(calls[i]) in ws[i + 1].completed
      && Attempt(ws[j], retry).value.response == ws[i + 1].completed[KeyOf(calls[i])].response.(replayed := true)
  {
    RunKeepsInv(ws, calls, tenantId, j);
    CommitShows(ws, calls, tenantId, i);
    RunMonotone(ws, calls, tenantId, i + 1, j);
    UsedKeyReplays(ws[j], retry);
  }

  // The subject is visible to the actor and, for a prepared review, could still be prepared.
  predicate Replayable(w: Workspace, retry: Call) {
    Precheck(w, retry.actor, retry.command).Ok? && ReplayCheck(w, retry).Ok?
  }

  // A key that was used is never applied again: the stored response, or a refusal.
  lemma UsedKeyReplays(w: Workspace, retry: Call)
    requires KeyOf(retry) in w.completed
    ensures Next(w, retry) == w
    ensures Attempt(w, retry).Ok? <==> w.completed[KeyOf(retry)].request == FingerprintOf(retry) && Replayable(w, retry)
    ensures Attempt(w, retry).Ok? ==> Attempt(w, retry).value.response == w.completed[KeyOf(retry)].response.(replayed := true)
  {
    NextMeaning(w, retry);
  }

  // ----- Case lifecycle on runs -----

  lemma VersionsOnlyRise(ws: seq<Workspace>, calls: seq<Call>, tenantId: Id, i: nat, j: nat, c: Id)
    requires Run(ws, calls, tenantId) && i <= j < |ws| && c in ws[i].cases
    ensures c in ws[j].cases && ws[i].cases[c].version <= ws[j].cases[c].version
  {
    RunKeepsInv(ws, calls, tenantId, i);
    RunKeepsInv(ws, calls, tenantId, j);
    RunExtends(ws, calls, tenantId, i, j);
    assert CaseHistoryIntact(ws[i].cases[c], ws[i].caseHistory[c]);
    assert c in ws[j].caseHistory.Keys;
    assert CaseHistoryIntact(ws[j].cases[c], ws[j].caseHistory[c]);
  }

  ghost predicate SameHandoff(a: Workspace, b: Workspace, h: Id) {
    h in a.handoffs && h in b.handoffs && b.handoffs[h].caseId == a.handoffs[h].caseId
    && b.handoffs[h].caseVersion == a.handoffs[h].caseVersion
  }

  lemma HandoffPersists(w: Workspace, call: Call, h: Id)
    requires Inv(w) && FreshCall(w, call) && h in w.handoffs
    ensures SameHandoff(w, Next(w, call), h)
  {
    NextMeaning(w, call);
    if Accepted(w, call) {
      ChangeKeepsLawful(w, call);
    }
  }

  lemma StepHandoff(ws: seq<Workspace>, calls: seq<Call>, tenantId: Id, i: nat, h: Id)
    requires Run(ws, calls, tenantId) && i < |calls| && h in ws[i].handoffs
    ensures SameHandoff(ws[i], ws[i + 1], h)
  {
    RunStep(ws, calls, tenantId, i);
    HandoffPersists(ws[i], calls[i], h);
  }

  lemma {:induction false} HandoffsPersist(ws: seq<Workspace>, calls: seq<Call>, tenantId: Id, i: nat, j: nat, h: Id)
    requires Run(ws, calls, tenantId) && i <= j < |ws| && h in ws[i].handoffs
    ensures SameHandoff(ws[i], ws[j], h)
    decreases j
  {
    if i < j {
      HandoffsPersist(ws, calls, tenantId, i, j - 1, h);
      StepHandoff(ws, calls, tenantId, j - 1, h);
    }
  }

  lemma ResolveAdvances(w: Workspace, call: Call)
    requires Inv(w) && FreshCall(w, call) && Accepted(w, call) && call.command.Resolve?
    ensures var c, h := call.command.caseId, call.command.handoffId;
      && c in w.cases && h in w.handoffs && w.handoffs[h].caseId == c
      && w.handoffs[h].caseVersion == w.cases[c].version
      && c in Next(w, call).cases && Next(w, call).cases[c].version == w.cases[c].version + 1
  {
    NextMeaning(w, call);
    var noted := ResolveEffect(w, call);
    ResolutionRestsOn(w, call);
  }

  // Call i resolves case c by handoff h: the handoff is for the case's version, which then advances.
  ghost predicate ResolvesBy(w: Workspace, w': Workspace, c: Id, h: Id) {
    && c in w.cases && h in w.handoffs && w.handoffs[h].caseId == c && w.handoffs[h].caseVersion == w.cases[c].version
    && c in w'.cases && w'.cases[c].version == w.cases[c].version + 1
  }

  lemma StepResolves(ws: seq<Workspace>, calls: seq<Call>, tenantId: Id, i: nat)
    requires Run(ws, calls, tenantId) && i < |calls|
    requires CommitsAt(ws, i) && calls[i].command.Resolve?
    ensures ResolvesBy(ws[i], ws[i + 1], calls[i].command.caseId, calls[i].command.handoffId)
  {
    RunStep(ws, calls, tenantId, i);
    CommitsIffAccepted(ws, calls, tenantId, i);
    ResolveAdvances(ws[i], calls[i]);
  }

  lemma ResolvedOnceBy(ws: seq<Workspace>, calls: seq<Call>, tenantId: Id, i: nat, j: nat, c: Id, h: Id, c': Id, h': Id)
    requires Run(ws, calls, tenantId) && i < j < |calls|
    requires ResolvesBy(ws[i], ws[i + 1], c, h) && ResolvesBy(ws[j], ws[j + 1], c', h')
    ensures h != h'
  {
    HandoffsPersist(ws, calls, tenantId, i, j, h);
    VersionsOnlyRise(ws, calls, tenantId, i + 1, j, c);
  }

  /** A handoff resolves at most one version: two accepted resolutions on one run never name the same handoff. */
  lemma HandoffResolvesOnce(ws: seq<Workspace>, calls: seq<Call>, tenantId: Id, i: nat, j: nat)
    requires Run(ws, calls, tenantId) && i < j < |calls|
    requires CommitsAt(ws, i) && calls[i].command.Resolve? && CommitsAt(ws, j) && calls[j].command.Resolve?
    ensures calls[i].command.handoffId != calls[j].command.handoffId
  {
    StepResolves(ws, calls, tenantId, i);
    StepResolves(ws, calls, tenantId, j);
    ResolvedOnceBy(ws, calls, tenantId, i, j, calls[i].command.caseId, calls[i].command.handoffId,
                   calls[j].command.caseId, calls[j].command.handoffId);
  }

  /** On every run a case version is odd exactly while open, and every entry of its history is lawful. */
  lemma RunCasesLawful(ws: seq<Workspace>, calls: seq<Call>, tenantId: Id, i: nat, c: Id)
    requires Run(ws, calls, tenantId) && i < |ws| && c in ws[i].cases
    ensures ws[i].cases[c].version % 2 == 1 <==> ws[i].cases[c].status == Open
    ensures c in ws[i].caseHistory
    ensures HistoryLawful(ws[i].caseHistory[c], c, ws[i].cases[c].scope, ws[i].handoffs, ws[i].reports)
  {
    RunKeepsInv(ws, calls, tenantId, i);
    OddIffOpen(ws[i], c);
  }

  // ----- Resolutions and evidence -----

  /**
   A resolution of a case with obligations was made with a desk, named exactly the bundle of the evidence of that
   instant, and that evidence covers every obliged source with a usable receipt, agrees, and has enough groups.
   */
  lemma ResolutionMeetsObligations(w: Workspace, call: Call)
    requires Inv(w) && FreshCall(w, call) && Accepted(w, call) && call.command.Resolve?
    requires HasObligations(w.artifacts, call.command.caseId)
    ensures var c := call.command.caseId;
      && c in w.cases && call.env.desk.Some?
      && var context := ContextOf(w, call.env.desk.value, c, call.env.at);
      && context.Ok? && call.command.evidence == BundleRoot(context.value)
      && context.value.rejected == map[] && Agree(context.value.receipts)
      && |Groups(context.value.receipts, context.value.required)| >= Obligations(w.artifacts, c).minGroups
      && forall s | s in Obligations(w.artifacts, c).required ::
           s in context.value.receipts && Covered(w, call.env.desk.value, c, call.env.at, s, context.value.receipts[s])
  {
    NextMeaning(w, call);
    GatePassed(w, call);
    CompleteContextCovers(w, call.env.desk.value, call.command.caseId, call.env.at);
  }

  lemma GatePassed(w: Workspace, call: Call)
    requires call.command.Resolve? && Change(w, call).Ok?
    requires HasObligations(w.artifacts, call.command.caseId)
    ensures var c := call.command.caseId;
      && c in w.cases && call.env.desk.Some?
      && ContextOf(w, call.env.desk.value, c, call.env.at).Ok?
      && ContextOf(w, call.env.desk.value, c, call.env.at).value.complete
      && call.command.evidence == BundleRoot(ContextOf(w, call.env.desk.value, c, call.env.at).value)
  {
  }
}
