/** The store of sealed workspaces, one per tenant, and every command as one transaction against it. */
module CaseworkStore {
  import opened Common
  import opened CaseworkModels
  import opened SourceGuard
  import opened EvidenceDesk
  import opened CasePolicy
  import opened Commands
  import opened Envelope
  import opened Integrity
  import opened Runs
  import opened Service

  type Store = map<Id, Sealed>

  // What a transaction loads: the stored workspace, or a new one for a bootstrap.
  function Loaded(store: Store, tenant: Id): Sealed {
    if tenant in store then store[tenant] else Sealed(EmptyWorkspace(tenant), EmptyWorkspace(tenant))
  }

  function Fit(store: Store, call: Call): Result<Workspace> {
    var tenant := call.actor.tenantId;
    if tenant !in store && !call.command.Bootstrap? then Err(WorkspaceMissing)
    else
      var _ :- Validate(Loaded(store, tenant));
      if Loaded(store, tenant).body.tenantId != tenant then Err(TenantBindingFailed) else Ok(Loaded(store, tenant).body)
  }

  datatype Handling = Handling(answer: Result<Response>, store: Store)

  /** A transaction gets a workspace exactly if its tenant has one, or starts one, that is valid and the tenant's own. */
  lemma FitsIff(store: Store, call: Call)
    ensures var t := call.actor.tenantId;
      Fit(store, call).Ok? <==>
        if t in store then Validate(store[t]).Ok? && store[t].body.tenantId == t else call.command.Bootstrap?
    ensures Fit(store, call).Ok? ==>
      Fit(store, call).value ==
        if call.actor.tenantId in store then store[call.actor.tenantId].body else EmptyWorkspace(call.actor.tenantId)
  {
  }

  // The store is saved only when a command was applied: neither a refusal nor a replay writes.
  ghost function Settled(store: Store, tenant: Id, applied: bool, taken: Result<Taken>): Handling {
    match taken
    case Err(e) => Handling(Err(e), store)
    case Ok(t) => Handling(Ok(t.response), if applied then store[tenant := Sealed(t.state, t.state)] else store)
  }

  /** One transaction. */
  ghost function Handle(store: Store, call: Call): Handling
  {
    match Fit(store, call)
    case Err(e) => Handling(Err(e), store)
    case Ok(w) => Settled(store, call.actor.tenantId, KeyOf(call) !in w.completed, Attempt(w, call))
  }

  // ----- What every reachable store satisfies -----

  ghost predicate StoreSound(store: Store) {
    forall t | t in store :: store[t].root == store[t].body && Inv(store[t].body) && store[t].body.tenantId == t
  }

  lemma SoundIsFit(store: Store, call: Call)
    requires StoreSound(store) && (call.actor.tenantId in store || call.command.Bootstrap?)
    ensures var w := Loaded(store, call.actor.tenantId).body; Inv(w) && Fit(store, call) == Ok(w)
  {
    EmptyInv(call.actor.tenantId);
    ValidateMeaning(Loaded(store, call.actor.tenantId));
  }

  lemma AttemptSettles(w: Workspace, call: Call)
    requires Admit(call).Ok?
    ensures Attempt(w, call).Ok? && KeyOf(call) !in w.completed ==> Attempt(w, call).value.state == Next(w, call)
    ensures !(Attempt(w, call).Ok? && KeyOf(call) !in w.completed) ==> Next(w, call) == w
  {
  }

  lemma SettledAsNext(store: Store, call: Call, w: Workspace)
    requires Inv(w) && Fit(store, call) == Ok(w) && Admit(call).Ok?
    requires w == Loaded(store, call.actor.tenantId).body
    ensures var t, after := call.actor.tenantId, Handle(store, call).store;
      && (after == store || after == store[t := Sealed(Next(w, call), Next(w, call))])
      && Loaded(after, t).body == Next(w, call)
  {
    AttemptSettles(w, call);
  }

  /**
   Every admitted transaction on a sound store is one step of its tenant's run: the stored workspace becomes exactly
   the next one, sealed; no integrity check fails, every other tenant is untouched, and the store stays sound.
   */
  lemma HandleIsOneStep(store: Store, call: Call)
    requires StoreSound(store) && Admit(call).Ok? && FreshCall(Loaded(store, call.actor.tenantId).body, call)
    requires call.actor.tenantId in store || call.command.Bootstrap?
    ensures var t, after := call.actor.tenantId, Handle(store, call).store;
      && StoreSound(after)
      && Loaded(after, t).body == Next(Loaded(store, t).body, call)
      && (forall o | o != t :: (o in after <==> o in store) && (o in store ==> after[o] == store[o]))
  {
    var t := call.actor.tenantId;
    var w := Loaded(store, t).body;
    SoundIsFit(store, call);
    SettledAsNext(store, call, w);
    NextFits(w, call);
    SavedSound(store, t, Next(w, call));
  }

  lemma NextFits(w: Workspace, call: Call)
    requires Inv(w) && FreshCall(w, call)
    ensures Inv(Next(w, call)) && Next(w, call).tenantId == w.tenantId
  {
    NextKeepsInv(w, call);
    NextKeepsTenant(w, call);
  }

  lemma SavedSound(store: Store, tenant: Id, next: Workspace)
    requires StoreSound(store) && Inv(next) && next.tenantId == tenant
    ensures StoreSound(store[tenant := Sealed(next, next)])
  {
  }

  /** A refused transaction, whatever the store holds, writes nothing. */
  lemma RefusedWritesNothing(store: Store, call: Call)
    requires Handle(store, call).answer.Err?
    ensures Handle(store, call).store == store
  {
  }

  // ----- Retrying on a revision conflict -----

  // What other clients may have done between two looks at the store.
  ghost predicate Meanwhile(before: Store, after: Store, tenant: Id) {
    && StoreSound(after) && tenant in before && tenant in after
    && (after[tenant] == before[tenant] || after[tenant].body.revision > before[tenant].body.revision)
  }

  // The stores that a retry loop meets: as it reads the revision, and as it then enters its transaction.
  datatype Window = Window(seen: Store, found: Store)

  function Restated(call: Call, window: Window): Call
    requires call.actor.tenantId in window.seen
  {
    call.(expected := window.seen[call.actor.tenantId].body.revision)
  }

  ghost predicate Collides(call: Call, window: Window)
    requires Meanwhile(window.seen, window.found, call.actor.tenantId)
  {
    Handle(window.found, Restated(call, window)).answer == Err(RevisionConflict)
  }

  // Neither command's own change reports a revision conflict; only the envelope does.
  lemma IngestMeansMoved(w: Workspace, call: Call)
    requires call.command.IngestIncident? && Attempt(w, call) == Err(RevisionConflict)
    ensures w.revision != call.expected
  {
    var command := call.command;
    IngestNeverConflicts(w, call, command.sourceId, command.scope, command.kind, command.evidence, command.payload);
  }

  lemma IngestNeverConflicts(w: Workspace, call: Call, source: Id, scope: Scope, kind: RiskKind, evidence: Digest,
                             payload: Id)
    ensures IngestChange(w, call, source, scope, kind, evidence, payload) != Err(RevisionConflict)
  {
  }

  lemma FinishMeansMoved(w: Workspace, call: Call)
    requires call.command.FinishSource? && Attempt(w, call) == Err(RevisionConflict)
    ensures w.revision != call.expected
  {
  }

  /** A conflicting try means that some other command was committed in its window. */
  lemma ConflictMeansCommit(call: Call, window: Window)
    requires StoreSound(window.seen) && Meanwhile(window.seen, window.found, call.actor.tenantId) && Collides(call, window)
    requires call.command.IngestIncident? || call.command.FinishSource?
    ensures window.found[call.actor.tenantId].body.revision > window.seen[call.actor.tenantId].body.revision
  {
    var t := call.actor.tenantId;
    var restated := Restated(call, window);
    SoundIsFit(window.found, restated);
    if call.command.IngestIncident? {
      IngestMeansMoved(window.found[t].body, restated);
    } else {
      FinishMeansMoved(window.found[t].body, restated);
    }
  }

  // handled[i] is what the transaction of window i comes to.
  ghost predicate HandledAt(call: Call, windows: seq<Window>, handled: seq<Handling>, i: nat)
    requires i < |windows| && |handled| == |windows|
  {
    && StoreSound(windows[i].seen) && Meanwhile(windows[i].seen, windows[i].found, call.actor.tenantId)
    && handled[i] == Handle(windows[i].found, Restated(call, windows[i]))
  }

  ghost predicate Handles(call: Call, windows: seq<Window>, handled: seq<Handling>) {
    |handled| == |windows| && forall i: nat | i < |windows| :: HandledAt(call, windows, handled, i)
  }

  // The outcome of the loop: the first try that does not collide, or contention once all have.
  ghost predicate RetriedTo(handled: seq<Handling>, k: nat, r: Result<Response>, store: Store) {
    && k <= |handled|
    && (forall i | 0 <= i < k :: handled[i].answer == Err(RevisionConflict))
    && (k == |handled| ==> r == Err(Contention))
    && (k < |handled| ==> handled[k].answer != Err(RevisionConflict) && Handling(r, store) == handled[k])
  }

  // ----- Investigating in two phases -----

  datatype Plan = Answered(answer: Result<Response>) | Proceed(call: Call)

  // What the snapshot decides: an answer at once, or a draft to commit.
  ghost function PlanOf(w: Workspace, call: Call, c: Id, withPrecedents: bool): Plan {
    if !SeesCase(w, call.actor, c) then Answered(Err(CaseNotFound))
    else if KeyOf(call) in w.completed then
      if w.completed[KeyOf(call)].request != FingerprintOf(call) then Answered(Err(IdempotencyConflict))
      else Answered(Ok(w.completed[KeyOf(call)].response.(replayed := true)))
    else if w.revision != call.expected then Answered(Err(RevisionConflict))
    else match DraftReport(w, call.actor, c, call.env, withPrecedents)
      case Err(e) => Answered(Err(e))
      case Ok(draft) => Proceed(call.(carried := draft))
  }

  ghost function PlanOn(store: Store, call: Call, c: Id, withPrecedents: bool): Plan {
    match Fit(store, call)
    case Err(e) => Answered(Err(e))
    case Ok(w) => PlanOf(w, call, c, withPrecedents)
  }

  /**
   An investigation goes on to commit exactly if the case is visible, its key is new, the workspace is at the revision it
   states and a draft can be made; a used key is answered from its stored response, marked as replayed.
   */
  lemma PlanSays(w: Workspace, call: Call, c: Id, withPrecedents: bool)
    ensures var plan, key := PlanOf(w, call, c, withPrecedents), (call.actor.actorId, call.key);
      && (plan.Proceed? <==>
            && c in w.cases && w.cases[c].scope.subject in call.actor.subjects && key !in w.completed
            && w.revision == call.expected && DraftReport(w, call.actor, c, call.env, withPrecedents).Ok?)
      && (plan.Proceed? ==>
            plan.call == call.(carried := DraftReport(w, call.actor, c, call.env, withPrecedents).value))
      && (plan.Answered? && plan.answer.Ok? <==>
            && c in w.cases && w.cases[c].scope.subject in call.actor.subjects && key in w.completed
            && w.completed[key].request == Fingerprint(call.command, call.actor.actorId, call.session))
      && (plan.Answered? && plan.answer.Ok? ==> plan.answer.value == w.completed[key].response.(replayed := true))
  {
  }

  /** What an investigation comes to: nothing written, or the transaction that commits its draft. */
  ghost function Investigated(store: Store, plan: Plan, found: Store): Handling
  {
    match plan
    case Answered(answer) => Handling(answer, store)
    case Proceed(next) => Handle(found, next)
  }

  // ----- The service -----

  ghost function Room(w: Workspace, call: Call): Result<()> {
    var _ :- Current(w, call);
    if call.command.Bootstrap? && w.revision > 0 then Err(WorkspaceAlreadyExists)
    else if w.revision >= MAX_REVISION then Err(WorkspaceCapacityReached)
    else Ok(())
  }

  // Recording only looks at what the edit left alone.
  lemma RecordSame(w: Workspace, s: Workspace, call: Call, outcome: Outcome)
    requires s.revision == w.revision && s.audit == w.audit && s.completed == w.completed
    ensures Record(s, s, call, outcome) == Record(w, s, call, outcome)
  {
  }

  ghost function Recorded(w: Workspace, call: Call, changed: Result<Changed>): Result<Taken> {
    match changed
    case Err(e) => Err(e)
    case Ok(c) =>
      var next := Record(w, c.state, call, c.outcome);
      Ok(Taken(next, next.completed[KeyOf(call)].response))
  }

  // An attempt under a new key is the checks, the change and the record.
  lemma NewKeyAttempt(w: Workspace, call: Call)
    requires Precheck(w, call.actor, call.command).Ok? && KeyOf(call) !in w.completed
    ensures Attempt(w, call) == if Room(w, call).Err? then Err(Room(w, call).error) else Recorded(w, call, Change(w, call))
  {
  }

  class CaseworkService {
    var store: Store

    constructor ()
      ensures store == map[] && StoreSound(store)
    {
      store := map[];
    }

    /** A prepared review is replayed only while it could still be prepared. */
    static method RecheckReview(w: Workspace, call: Call) returns (r: Result<()>)
      requires Precheck(w, call.actor, call.command).Ok?
      ensures r == ReplayCheck(w, call)
    {
      if !call.command.PrepareReview? {
        return Ok(());
      }
      var t, d := call.command.taskId, call.command.decisionId;
      var v := PolicyResult(w, t, call.env.at, false);
      if v.Err? {
        return Err(v.error);
      }
      if d !in w.decisions || w.tasks[t].current != Some(w.decisions[d].body.decisionId)
         || v.value.verdict != Ready || w.decisions[d].body.expiresAt <= call.env.at
         || BasisOf(w, t) != Ok(w.decisions[d].body.basis) {
        return Err(StaleOrBlockedReview);
      }
      return Ok(());
    }

    static method CheckCurrent(w: Workspace, call: Call) returns (r: Result<()>)
      ensures r == Current(w, call)
    {
      if !call.command.Investigate? {
        return if w.revision != call.expected then Err(RevisionConflict) else Ok(());
      }
      var c := call.command.caseId;
      if c !in w.cases || !call.carried.Draft? {
        return Err(StaleInvestigation);
      }
      var basis := BuildInvestigationBasis(w, c);
      if basis.Err? {
        return Err(basis.error);
      }
      return if basis.value != call.carried.report.basis then Err(StaleInvestigation) else Ok(());
    }

    // The checks between replay and application.
    static method CheckRoom(w: Workspace, call: Call) returns (r: Result<()>)
      ensures r == Room(w, call)
    {
      r := CheckCurrent(w, call);
      if r.Ok? {
        if call.command.Bootstrap? && w.revision > 0 {
          r := Err(WorkspaceAlreadyExists);
        } else if w.revision >= MAX_REVISION {
          r := Err(WorkspaceCapacityReached);
        }
      }
    }

    // Applies a command to the loaded workspace, extends the audit chain and keeps the response under the key.
    static method ApplyAndRecord(w: Workspace, call: Call) returns (r: Result<Response>, saved: Workspace)
      ensures match Change(w, call)
        case Err(e) => r == Err(e)
        case Ok(changed) => saved == Record(w, changed.state, call, changed.outcome) && r == Ok(saved.completed[KeyOf(call)].response)
    {
      saved := w;
      var live := new LiveWorkspace(w);
      var outcome := live.Apply(call);
      if outcome.Err? {
        return Err(outcome.error), saved;
      }
      ghost var edited := live.Snapshot();
      var response := live.Commit(call, outcome.value);
      RecordSame(w, edited, call, outcome.value);
      return Ok(response), live.Snapshot();
    }

    static method ApplyOnce(w: Workspace, call: Call) returns (r: Result<Response>, saved: Workspace)
      requires Precheck(w, call.actor, call.command).Ok? && KeyOf(call) !in w.completed
      ensures match Attempt(w, call)
        case Err(e) => r == Err(e)
        case Ok(taken) => r == Ok(taken.response) && saved == taken.state
    {
      NewKeyAttempt(w, call);
      var room := CheckRoom(w, call);
      if room.Err? {
        return Err(room.error), w;
      }
      r, saved := ApplyAndRecord(w, call);
    }

    // Loads and checks the stored workspace.
    method Load(call: Call) returns (r: Result<Workspace>)
      ensures r == Fit(store, call)
    {
      var tenant := call.actor.tenantId;
      if tenant !in store && !call.command.Bootstrap? {
        return Err(WorkspaceMissing);
      }
      var loaded := Loaded(store, tenant);
      var valid := ValidateWorkspace(loaded);
      if valid.Err? {
        return Err(valid.error);
      }
      return if loaded.body.tenantId != tenant then Err(TenantBindingFailed) else Ok(loaded.body);
    }

    /** One transaction: load, check, replay or apply once, seal and save. */
    method Mutate(call: Call) returns (r: Result<Response>)
        modifies this
      ensures Handling(r, store) == Handle(old(store), call)
    {
      var loaded := Load(call);
      if loaded.Err? {
        return Err(loaded.error);
      }
      var w := loaded.value;
      var seen := Precheck(w, call.actor, call.command);
      if seen.Err? {
        return Err(seen.error);
      }
      if KeyOf(call) in w.completed {
        if w.completed[KeyOf(call)].request != FingerprintOf(call) {
          return Err(IdempotencyConflict);
        }
        var current := RecheckReview(w, call);
        if current.Err? {
          return Err(current.error);
        }
        return Ok(w.completed[KeyOf(call)].response.(replayed := true));
      }
      var saved;
      r, saved := ApplyOnce(w, call);
      if r.Ok? {
        store := store[call.actor.tenantId := Sealed(saved, saved)];
      }
    }

    // The scopes of everything the affected tasks depend on.
    static method CollectScopes(w: Workspace, scope: Scope) returns (scopes: set<Scope>, impacted: set<Id>)
      requires BasesOf(w, Affected(w.tasks, scope)).Ok?
      ensures impacted == Affected(w.tasks, scope) && scopes == AffectedScopes(w, scope)
    {
      impacted := AffectedTasks(w.tasks, scope);
      scopes := {};
      var rest := impacted;
      while rest != {}
        invariant rest <= impacted
        invariant forall s :: s in scopes <==> exists k, a ::
          k in impacted - rest && ClosureOf(w.tasks, k).Ok? && a in ClosureOf(w.tasks, k).value
          && w.tasks[a].intent.scope == s
        decreases rest
      {
        var k :| k in rest;
        assert BasisOf(w, k).Ok?;
        var closure := ClosureOf(w.tasks, k).value;
        scopes := scopes + Scopes(w.tasks, closure);
        rest := rest - {k};
      }
    }

    static method BuildExternal(w: Workspace, c: Id, env: Env) returns (r: Result<Option<Context>>)
      requires c in w.cases
      ensures r == ExternalFor(w, c, env)
    {
      if env.desk.None? || !NeedsSources(w, env.desk.value, c) {
        return Ok(None);
      }
      var context := BuildContext(w, env.desk.value, c, env.at);
      if context.Err? {
        return Err(context.error);
      }
      if context.value.conflicts != {} {
        return Err(SourceConflict);
      }
      if !context.value.complete {
        return Err(SourceCoverageRequired);
      }
      return Ok(Some(context.value));
    }

    static method BuildBody(w: Workspace, actor: Actor, c: Id, id: Id, basis: InvestigationBasis,
                            external: Option<Context>, withPrecedents: bool)
      returns (body: ReportBody)
      requires c in w.cases && BasesOf(w, Affected(w.tasks, w.cases[c].scope)).Ok?
      ensures body == BodyFor(w, actor, c, id, basis, external, withPrecedents)
    {
      var scopes, impacted := CollectScopes(w, w.cases[c].scope);
      var related := Blockers(w.cases, scopes);
      var refs := if related == {} then {c} else related;
      var precedents := ActivePrecedents(w, c);
      return ReportBody(id, c, w.cases[c].version, actor.actorId, basis, refs, impacted,
                        if withPrecedents then precedents else {}, TraceFor(refs, impacted, external, withPrecedents, precedents));
    }

    /** What an investigation reads and drafts from its snapshot, outside the lock. */
    static method BuildDraft(w: Workspace, actor: Actor, c: Id, env: Env, withPrecedents: bool)
      returns (r: Result<Carried>)
      requires c in w.cases
      ensures r == DraftReport(w, actor, c, env, withPrecedents)
    {
      if w.cases[c].status != Open {
        return Err(CaseNotOpen);
      }
      var desk := RequireDesk(w.artifacts, c, env.desk, false);
      if desk.Err? {
        return Err(desk.error);
      }
      var basis := BuildInvestigationBasis(w, c);
      if basis.Err? {
        return Err(basis.error);
      }
      var external := BuildExternal(w, c, env);
      if external.Err? {
        return Err(external.error);
      }
      var body := BuildBody(w, actor, c, env.newId, basis.value, external.value, withPrecedents);
      return Ok(Draft(body, external.value));
    }

    static method PlanInvestigation(w: Workspace, call: Call, c: Id, withPrecedents: bool) returns (plan: Plan)
      ensures plan == PlanOf(w, call, c, withPrecedents)
    {
      if !SeesCase(w, call.actor, c) {
        return Answered(Err(CaseNotFound));
      }
      if KeyOf(call) in w.completed {
        if w.completed[KeyOf(call)].request != FingerprintOf(call) {
          return Answered(Err(IdempotencyConflict));
        }
        return Answered(Ok(w.completed[KeyOf(call)].response.(replayed := true)));
      }
      if w.revision != call.expected {
        return Answered(Err(RevisionConflict));
      }
      var draft := BuildDraft(w, call.actor, c, call.env, withPrecedents);
      if draft.Err? {
        return Answered(Err(draft.error));
      }
      return Proceed(call.(carried := draft.value));
    }

    /**
     An investigation: planned on the store as it was seen, committed against the store as other clients have left it.
     A stored response is returned without drafting again.
     */
    method InvestigateCase(call: Call, c: Id, withPrecedents: bool, found: Store) returns (r: Result<Response>)
      requires call.command == Investigate(c)
      modifies this
      ensures Handling(r, store) == Investigated(old(store), PlanOn(old(store), call, c, withPrecedents), found)
    {
      var loaded := Load(call);
      if loaded.Err? {
        return Err(loaded.error);
      }
      var plan := PlanInvestigation(loaded.value, call, c, withPrecedents);
      if plan.Answered? {
        return plan.answer;
      }
      store := found;
      r := Mutate(plan.call);
    }

    // One window: the revision as it was seen, the transaction on the store as it is then found.
    method TryOnce(call: Call, windows: seq<Window>, ghost handled: seq<Handling>, i: nat) returns (r: Result<Response>)
      requires Handles(call, windows, handled) && i < |windows|
      modifies this
      ensures Handling(r, store) == handled[i]
    {
      assert HandledAt(call, windows, handled, i);
      store := windows[i].seen;
      var expected := store[call.actor.tenantId].body.revision;
      store := windows[i].found;
      r := Mutate(call.(expected := expected));
    }

    /**
     Reads the revision, states it, and tries again if another client got in between; gives up after four windows.
     Each window holds the store as other clients left it when the revision was read and when the lock was taken.
     */
    method RetryOnConflict(call: Call, windows: seq<Window>, ghost handled: seq<Handling>)
      returns (r: Result<Response>, ghost k: nat)
      requires |windows| == 4 && Handles(call, windows, handled)
      modifies this
      ensures RetriedTo(handled, k, r, store)
    {
      k := 0;
      for i := 0 to 4
        invariant k == i && forall j | 0 <= j < i :: handled[j].answer == Err(RevisionConflict)
      {
        r := TryOnce(call, windows, handled, i);
        if r != Err(RevisionConflict) {
          return;
        }
        k := k + 1;
      }
      r := Err(Contention);
    }
  }

  ghost predicate CommittedIn(window: Window, tenant: Id) {
    tenant in window.seen && tenant in window.found && window.found[tenant].body.revision > window.seen[tenant].body.revision
  }

  /** Contention is reported only when every one of the four windows saw another client's commit. */
  lemma ContentionMeansBusy(call: Call, windows: seq<Window>, handled: seq<Handling>, r: Result<Response>,
                            store: Store, i: nat)
    requires |windows| == 4 && i < 4 && Handles(call, windows, handled) && RetriedTo(handled, 4, r, store)
    requires call.command.IngestIncident? || call.command.FinishSource?
    ensures CommittedIn(windows[i], call.actor.tenantId)
  {
    assert HandledAt(call, windows, handled, i);
    ConflictMeansCommit(call, windows[i]);
  }

  /** A try that collides writes nothing, so across all tries the command takes effect at most once. */
  lemma CollisionWritesNothing(call: Call, windows: seq<Window>, handled: seq<Handling>, k: nat, r: Result<Response>,
                               store: Store, i: nat)
    requires Handles(call, windows, handled) && RetriedTo(handled, k, r, store) && i < k
    ensures handled[i].store == windows[i].found
  {
    assert HandledAt(call, windows, handled, i);
    RefusedWritesNothing(windows[i].found, Restated(call, windows[i]));
  }
}
