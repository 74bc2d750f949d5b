/** Over whole runs: the owner's word on a scope stands until the owner's next, and no READY task exceeds it. */
module BaselineRuns {
  import opened Common
  import opened CaseworkModels
  import opened DependencyGraph
  import opened CasePolicy
  import opened Commands
  import opened Envelope
  import opened Safety
  import opened Integrity
  import opened CommandLaws
  import opened Runs

  // ----- What is in force -----

  // The call sets the baseline of a scope, and takes effect.
  ghost predicate Sets(w: Workspace, call: Call, scope: Scope) {
    Accepted(w, call) && call.command.SetBaseline? && call.command.scope == scope
  }

  // Both workspaces hold the same baseline for a scope, or neither holds one.
  ghost predicate SameBaseline(w: Workspace, s: Workspace, scope: Scope) {
    && (scope in s.baselines <==> scope in w.baselines) && (scope in w.baselines ==> s.baselines[scope] == w.baselines[scope])
  }

  lemma ChangeKeepsBaselines(w: Workspace, call: Call)
    requires Inv(w) && FreshCall(w, call) && Change(w, call).Ok? && !call.command.SetBaseline?
    ensures Change(w, call).value.state.baselines == w.baselines
  {
    if Clerical(call.command) {
      ClericalFrame(w, call);
    } else if Raises(call.command) {
      var reason := RaiseEffect(w, call);
    } else if Decides(call.command) {
      DecidingFrame(w, call);
    } else {
      var noted := ResolveEffect(w, call);
    }
  }

  lemma NextKeepsBaseline(w: Workspace, call: Call, scope: Scope)
    requires Inv(w) && FreshCall(w, call) && !Sets(w, call, scope)
    ensures SameBaseline(w, Next(w, call), scope)
  {
    NextMeaning(w, call);
    if Accepted(w, call) && call.command.SetBaseline? {
      SetBaselineSays(w, call);
    } else if Accepted(w, call) {
      ChangeKeepsBaselines(w, call);
    }
  }

  ghost predicate SetsAt(ws: seq<Workspace>, calls: seq<Call>, i: nat, scope: Scope)
    requires i < |calls| && |ws| == |calls| + 1
  {
    Sets(ws[i], calls[i], scope)
  }

  lemma StepKeepsBaseline(ws: seq<Workspace>, calls: seq<Call>, tenantId: Id, i: nat, scope: Scope)
    requires Run(ws, calls, tenantId) && i < |calls| && !SetsAt(ws, calls, i, scope)
    ensures SameBaseline(ws[i], ws[i + 1], scope)
  {
    RunStep(ws, calls, tenantId, i);
    NextKeepsBaseline(ws[i], calls[i], scope);
  }

  lemma {:induction false} BaselineStands(ws: seq<Workspace>, calls: seq<Call>, tenantId: Id, i: nat, j: nat,
                                          scope: Scope)
    requires Run(ws, calls, tenantId) && i <= j < |ws|
    requires forall k: nat | i <= k < j :: !SetsAt(ws, calls, k, scope)
    ensures SameBaseline(ws[i], ws[j], scope)
    decreases j
  {
    if i == j {
    } else {
      BaselineStands(ws, calls, tenantId, i, j - 1, scope);
      StepKeepsBaseline(ws, calls, tenantId, j - 1, scope);
    }
  }

  // The baseline a call sets: the commanded limit and expiry, by its actor, at its event, as the scope's next version.
  ghost predicate SetBy(w: Workspace, call: Call, b: Baseline) {
    && call.command.SetBaseline? && b.scope == call.command.scope
    && b.limit == call.command.limit && b.expiresAt == call.command.expiresAt
    && b.actorId == call.actor.actorId && b.eventSeq == w.revision + 1
    && b.version == if b.scope in w.baselines then w.baselines[b.scope].version + 1 else 1
  }

  /**
   What the owner sets for a scope is in force, with exactly that limit and expiry, until the owner next sets that very
   scope: no other command, and no other scope's baseline, changes it.
   */
  lemma BaselineInForce(ws: seq<Workspace>, calls: seq<Call>, tenantId: Id, i: nat, j: nat, scope: Scope)
    requires Run(ws, calls, tenantId) && i < j < |ws| && SetsAt(ws, calls, i, scope)
    requires forall k: nat | i < k < j :: !SetsAt(ws, calls, k, scope)
    ensures calls[i].actor.role == Owner && scope.subject in calls[i].actor.subjects
    ensures scope in ws[j].baselines && SetBy(ws[i], calls[i], ws[j].baselines[scope])
  {
    RunStep(ws, calls, tenantId, i);
    AcceptedIff(ws[i], calls[i]);
    SetBaselineSays(ws[i], calls[i]);
    BaselineStands(ws, calls, tenantId, i + 1, j, scope);
  }

  /** And nothing else puts a baseline in force: each was set by the last call on the run to set its scope. */
  lemma {:induction false} EveryBaselineWasSet(ws: seq<Workspace>, calls: seq<Call>, tenantId: Id, j: nat, scope: Scope)
    returns (i: nat)
    requires Run(ws, calls, tenantId) && j < |ws| && scope in ws[j].baselines
    ensures i < j && SetsAt(ws, calls, i, scope) && forall k: nat | i < k < j :: !SetsAt(ws, calls, k, scope)
    decreases j
  {
    if j == 0 {
      RunBegins(ws, calls, tenantId);
      assert false;
    } else if SetsAt(ws, calls, j - 1, scope) {
      i := j - 1;
    } else {
      StepKeepsBaseline(ws, calls, tenantId, j - 1, scope);
      i := EveryBaselineWasSet(ws, calls, tenantId, j - 1, scope);
    }
  }

  // ----- READY tasks stay within what is in force -----

  // Everything the task depends on, and the task itself, is within the limit stored for its scope.
  ghost predicate WithinLimits(w: Workspace, t: Id) {
    && ClosureOf(w.tasks, t).Ok?
    && forall k | k in ClosureOf(w.tasks, t).value ::
         && w.tasks[k].intent.scope in w.baselines
         && w.tasks[k].intent.amount <= w.baselines[w.tasks[k].intent.scope].limit
  }

  ghost predicate ReadyWithinLimits(w: Workspace) {
    forall t | t in w.tasks && w.tasks[t].status == Of(Ready) :: WithinLimits(w, t)
  }

  lemma StillWithin(w: Workspace, s: Workspace, t: Id)
    requires SameShape(w.tasks, s.tasks) && WithinLimits(w, t)
    requires forall scope | scope in ScopesOf(w.tasks, t) :: SameBaseline(w, s, scope)
    ensures WithinLimits(s, t)
  {
    ShapeFrame(w.tasks, s.tasks);
    forall k | k in ClosureOf(w.tasks, t).value
      ensures w.tasks[k].intent.scope in s.baselines
      ensures w.tasks[k].intent.amount <= s.baselines[w.tasks[k].intent.scope].limit
    {
      assert w.tasks[k].intent.scope in ScopesOf(w.tasks, t);
    }
  }

  // Nothing became READY, and the baselines are the same.
  lemma NothingReadier(w: Workspace, s: Workspace)
    requires ReadyWithinLimits(w) && SameShape(w.tasks, s.tasks) && s.baselines == w.baselines
    requires forall t | t in w.tasks && s.tasks[t].status == Of(Ready) :: w.tasks[t].status == Of(Ready)
    ensures ReadyWithinLimits(s)
  {
    forall t | t in s.tasks && s.tasks[t].status == Of(Ready)
      ensures WithinLimits(s, t)
    {
      StillWithin(w, s, t);
    }
  }

  lemma RaisingKeepsLimits(w: Workspace, s: Workspace, next: RiskCase, reason: TaintReason)
    requires ReadyWithinLimits(w) && Raised(w, s, next, reason)
    ensures ReadyWithinLimits(s)
  {
    InvalidateShape(w.tasks, Affected(w.tasks, next.scope), CaseToken(next.caseId, next.version), reason);
    NothingReadier(w, s);
  }

  lemma ResolvingKeepsLimits(w: Workspace, s: Workspace, noted: Workspace, call: Call, next: RiskCase)
    requires ReadyWithinLimits(w) && ResolvedInto(w, s, noted, call, next)
    ensures ReadyWithinLimits(s)
  {
    var impacted, token := Affected(w.tasks, next.scope), ResolutionToken(next.caseId, next.version);
    ResolvedTasksShape(noted, impacted, token, call.env.at);
    forall t | t in w.tasks
      ensures s.tasks[t].status == Of(Ready) ==> w.tasks[t].status == Of(Ready)
    {
      ResolvedTasksReview(noted, impacted, token, call.env.at, t);
    }
    NothingReadier(w, s);
  }

  // What a new baseline suspends loses READY; the rest stays within limits it does not touch.
  lemma SuspendingKeepsLimits(w: Workspace, s: Workspace, scope: Scope, token: Token, reason: TaintReason)
    requires WellFounded(w) && ReadyWithinLimits(w) && Suspends(w.tasks, s.tasks, scope, token, reason)
    requires forall o | o != scope :: SameBaseline(w, s, o)
    ensures ReadyWithinLimits(s)
  {
    forall t | t in s.tasks && s.tasks[t].status == Of(Ready)
      ensures WithinLimits(s, t)
    {
      assert !DependsOn(w.tasks, t, scope);
      GraphOkClosure(w.tasks, t);
      assert forall k | k in ClosureOf(w.tasks, t).value :: w.tasks[k].intent.scope != scope;
      StillWithin(w, s, t);
    }
  }

  lemma SettingKeepsLimits(w: Workspace, call: Call)
    requires WellFounded(w) && ReadyWithinLimits(w) && Accepted(w, call) && call.command.SetBaseline?
    ensures ReadyWithinLimits(Next(w, call))
  {
    var s, scope := Next(w, call), call.command.scope;
    SetBaselineSays(w, call);
    SuspendingKeepsLimits(w, s, scope, BaselineToken(scope, s.baselines[scope].version), BaselineChanged);
  }

  // A READY decision was made within the limits.
  lemma DecidedWithinLimits(w: Workspace, t: Id, call: Call, explicit: bool)
    requires t in w.tasks && Decide(w, t, call, explicit).Ok?
    requires Decide(w, t, call, explicit).value.state.tasks[t].status == Of(Ready)
    ensures WithinLimits(w, t)
  {
    DecisionIs(w, t, call, explicit);
    PolicyMeaning(w, t, call.env.at, explicit);
    assert forall k | k in ClosureOf(w.tasks, t).value :: WithinBaseline(w, k, call.env.at);
  }

  lemma DecidedFrame(w: Workspace, t: Id, call: Call, explicit: bool)
    requires t in w.tasks && Decide(w, t, call, explicit).Ok?
    ensures var s := Decide(w, t, call, explicit).value.state;
      && SameShape(w.tasks, s.tasks) && s.baselines == w.baselines
      && (forall k | k in w.tasks && k != t :: s.tasks[k] == w.tasks[k])
  {
    DecisionIs(w, t, call, explicit);
  }

  lemma DecidingKeepsLimits(w: Workspace, t: Id, call: Call, explicit: bool)
    requires t in w.tasks && Decide(w, t, call, explicit).Ok?
    requires forall k | k in w.tasks && k != t && w.tasks[k].status == Of(Ready) :: WithinLimits(w, k)
    ensures ReadyWithinLimits(Decide(w, t, call, explicit).value.state)
  {
    var s := Decide(w, t, call, explicit).value.state;
    DecidedFrame(w, t, call, explicit);
    if s.tasks[t].status == Of(Ready) {
      DecidedWithinLimits(w, t, call, explicit);
    }
    forall k | k in s.tasks && s.tasks[k].status == Of(Ready)
      ensures WithinLimits(s, k)
    {
      StillWithin(w, s, k);
    }
  }

  lemma RegisteringKeepsLimits(w: Workspace, call: Call, intent: Intent, parents: seq<Id>)
    requires WellFounded(w) && ReadyWithinLimits(w) && call.env.newId !in w.tasks
    requires RegisterChange(w, call, intent, parents).Ok?
    ensures ReadyWithinLimits(RegisterChange(w, call, intent, parents).value.state)
  {
    var added := WithTask(w, call, intent, parents);
    var made := RegisterParts(w, call, intent, parents);
    ParentsExist(w, call.actor, intent.scope.subject, parents);
    SortIsSorted(parents);
    ExtendFrame(w.tasks, added.tasks[call.env.newId]);
    AddedKeepsLimits(w, added, call.env.newId);
    DecidingKeepsLimits(added, call.env.newId, call, false);
  }

  lemma AddedKeepsLimits(w: Workspace, added: Workspace, t: Id)
    requires ReadyWithinLimits(w) && t in added.tasks && added == w.(tasks := w.tasks[t := added.tasks[t]]) && t !in w.tasks
    requires forall k | k in w.tasks :: ClosureOf(added.tasks, k) == ClosureOf(w.tasks, k)
    ensures forall k | k in added.tasks && k != t && added.tasks[k].status == Of(Ready) :: WithinLimits(added, k)
  {
    forall k | k in added.tasks && k != t && added.tasks[k].status == Of(Ready)
      ensures WithinLimits(added, k)
    {
      assert WithinLimits(w, k);
    }
  }

  lemma EvaluatingKeepsLimits(w: Workspace, call: Call, t: Id, explicit: bool)
    requires ReadyWithinLimits(w) && EvaluateChange(w, call, t, explicit).Ok?
    ensures ReadyWithinLimits(EvaluateChange(w, call, t, explicit).value.state)
  {
    DecidingKeepsLimits(w, t, call, explicit);
  }

  lemma ChangeKeepsLimits(w: Workspace, call: Call)
    requires Inv(w) && FreshCall(w, call) && ReadyWithinLimits(w) && Change(w, call).Ok? && !call.command.SetBaseline?
    ensures ReadyWithinLimits(Change(w, call).value.state)
  {
    if Clerical(call.command) {
      ClericalFrame(w, call);
      NothingReadier(w, Change(w, call).value.state);
    } else if Raises(call.command) {
      var reason := RaiseEffect(w, call);
      RaisingKeepsLimits(w, Change(w, call).value.state, RaisedCase(w, call), reason);
    } else {
      match call.command
      case RegisterTask(intent, parents) => RegisteringKeepsLimits(w, call, intent, parents);
      case Evaluate(t) => EvaluatingKeepsLimits(w, call, t, false);
      case Reconsider(t) => EvaluatingKeepsLimits(w, call, t, true);
      case Resolve(c, _, resolution, _) =>
        var noted := ResolveEffect(w, call);
        ResolvingKeepsLimits(w, Change(w, call).value.state, noted, call, ResolvedCase(w, call, c, resolution));
    }
  }

  lemma NextKeepsLimits(w: Workspace, call: Call)
    requires Inv(w) && FreshCall(w, call) && ReadyWithinLimits(w)
    ensures ReadyWithinLimits(Next(w, call))
  {
    NextMeaning(w, call);
    if Accepted(w, call) && call.command.SetBaseline? {
      SettingKeepsLimits(w, call);
    } else if Accepted(w, call) {
      ChangeKeepsLimits(w, call);
      RecordSays(w, call);
      NothingReadier(Change(w, call).value.state, Next(w, call));
    }
  }

  lemma StepKeepsLimits(ws: seq<Workspace>, calls: seq<Call>, tenantId: Id, i: nat)
    requires Run(ws, calls, tenantId) && i < |calls| && ReadyWithinLimits(ws[i])
    ensures ReadyWithinLimits(ws[i + 1])
  {
    RunStep(ws, calls, tenantId, i);
    NextKeepsLimits(ws[i], calls[i]);
  }

  lemma RunBegins(ws: seq<Workspace>, calls: seq<Call>, tenantId: Id)
    requires Run(ws, calls, tenantId)
    ensures ws[0].baselines == map[] && ws[0].tasks == map[]
  {
  }

  /** On every run, whatever a READY task depends on is within the limit now stored for its scope. */
  lemma {:induction false} RunReadyWithinLimits(ws: seq<Workspace>, calls: seq<Call>, tenantId: Id, j: nat)
    requires Run(ws, calls, tenantId) && j < |ws|
    ensures ReadyWithinLimits(ws[j])
    decreases j
  {
    if j == 0 {
      RunBegins(ws, calls, tenantId);
    } else {
      RunReadyWithinLimits(ws, calls, tenantId, j - 1);
      StepKeepsLimits(ws, calls, tenantId, j - 1);
    }
  }

  /**
   A limit binds from the moment it is set: until the scope's next baseline, a task that depends on work of that scope
   above the limit is stored READY at no point, and the policy says READY of it at no instant, reviewed or not.
   */
  lemma AboveTheLimitIsNeverReady(ws: seq<Workspace>, calls: seq<Call>, tenantId: Id, i: nat, j: nat, scope: Scope,
                                  t: Id, k: Id, at: Time, explicit: bool)
    requires Run(ws, calls, tenantId) && i < j < |ws| && SetsAt(ws, calls, i, scope)
    requires forall n: nat | i < n < j :: !SetsAt(ws, calls, n, scope)
    requires t in ws[j].tasks && ClosureOf(ws[j].tasks, t).Ok? && k in ClosureOf(ws[j].tasks, t).value
    requires ws[j].tasks[k].intent.scope == scope && calls[i].command.limit < ws[j].tasks[k].intent.amount
    ensures ws[j].tasks[t].status != Of(Ready)
    ensures PolicyOf(ws[j], t, at, explicit).value.verdict != Ready
  {
    BaselineInForce(ws, calls, tenantId, i, j, scope);
    RunReadyWithinLimits(ws, calls, tenantId, j);
    PolicyMeaning(ws[j], t, at, explicit);
    assert !WithinBaseline(ws[j], k, at);
  }
}
