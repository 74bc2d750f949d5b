/** Policy, basis and expiry over a task's transitive closure. */
module CasePolicy {
  import opened Common
  import opened CaseworkModels
  import opened DependencyGraph
  import opened SourceState

  function GraphOf(tasks: map<Id, Task>): Graph {
    map t | t in tasks :: tasks[t].dependsOn
  }

  // The closure of a task; every listed task exists.
  function ClosureOf(tasks: map<Id, Task>, t: Id): (r: Result<seq<Id>>)
    ensures r.Ok? ==> forall k | k in r.value :: k in tasks
  {
    var r := Ancestors(GraphOf(tasks), t);
    if r.Ok? then
      AncestorsExact(GraphOf(tasks), t);
      r
    else r
  }

  predicate Listed(tasks: map<Id, Task>, c: seq<Id>) {
    forall k | k in c :: k in tasks
  }

  function Scopes(tasks: map<Id, Task>, c: seq<Id>): set<Scope>
    requires Listed(tasks, c)
  {
    set k | k in c :: tasks[k].intent.scope
  }

  // ----- Content basis -----

  function EntryOf(task: Task, own: bool): TaskEntry {
    TaskEntry(task.intent, task.dependsOn, if own then None else task.current, if own then None else Some(task.status))
  }

  function LinksOf(artifacts: map<Key, Artifact>, cases: set<Id>): map<Key, ResolutionProof> {
    map k | k in artifacts && artifacts[k].LinkArtifact? && artifacts[k].proof.caseId in cases :: artifacts[k].proof
  }

  function CasesIn(cases: map<Id, RiskCase>, scopes: set<Scope>): map<Id, RiskCase> {
    map k | k in cases && cases[k].scope in scopes :: cases[k]
  }

  function BasisOver(w: Workspace, t: Id, c: seq<Id>): TaskBasis
    requires Listed(w.tasks, c)
  {
    var scopes := Scopes(w.tasks, c);
    var cases := CasesIn(w.cases, scopes);
    TaskBasis(
      map k | k in c :: EntryOf(w.tasks[k], k == t),
      map s | s in w.baselines && s in scopes :: w.baselines[s],
      cases,
      LinksOf(w.artifacts, cases.Keys))
  }

  /** Everything a decision about a task depends on; its own latest decision is excluded. */
  function BasisOf(w: Workspace, t: Id): Result<TaskBasis> {
    var c :- ClosureOf(w.tasks, t);
    Ok(BasisOver(w, t, c))
  }

  // ----- Policy -----

  datatype Verdicts = Verdicts(verdict: Verdict, reasons: seq<Reason>, causal: set<Token>, blockers: set<Id>)

  const READY_REASONS := [CurrentPolicyPassed, HumanConfirmationStillRequired]

  function Blockers(cases: map<Id, RiskCase>, scopes: set<Scope>): set<Id> {
    set k | k in cases && cases[k].status == Open && cases[k].scope in scopes
  }

  function CaseRefs(cases: map<Id, RiskCase>, scopes: set<Scope>): set<Token> {
    (set k | k in cases && cases[k].status == Open && cases[k].scope in scopes :: CaseToken(k, cases[k].version))
    + set k | k in cases && cases[k].status == Resolved && cases[k].scope in scopes :: ResolutionToken(k, cases[k].version)
  }

  // Why a task's own baseline does not carry it, if it does not.
  function BaselineFault(w: Workspace, k: Id, at: Time): Option<Reason>
    requires k in w.tasks
  {
    var intent := w.tasks[k].intent;
    if intent.scope !in w.baselines then Some(BaselineMissing)
    else if w.baselines[intent.scope].expiresAt <= at then Some(BaselineExpired)
    else if intent.amount > w.baselines[intent.scope].limit then Some(LimitExceeded)
    else None
  }

  function BaselineRef(w: Workspace, k: Id): set<Token>
    requires k in w.tasks
  {
    var scope := w.tasks[k].intent.scope;
    if scope in w.baselines then {BaselineToken(w.baselines[scope].scope, w.baselines[scope].version)} else {}
  }

  datatype Scan = Scan(fault: Option<Reason>, refs: set<Token>)

  // The first baseline fault along the closure, and the baselines consulted up to it.
  function ScanBaselines(w: Workspace, c: seq<Id>, at: Time): Scan
    requires Listed(w.tasks, c)
  {
    if c == [] then Scan(None, {})
    else if BaselineFault(w, c[0], at).Some? then Scan(BaselineFault(w, c[0], at), BaselineRef(w, c[0]))
    else
      var rest := ScanBaselines(w, c[1..], at);
      rest.(refs := BaselineRef(w, c[0]) + rest.refs)
  }

  // An ancestor whose own proof is still live and still about the present content.
  predicate ParentCurrent(w: Workspace, k: Id, at: Time)
    requires k in w.tasks
  {
    var p := w.tasks[k];
    && p.status == Of(Ready) && p.taints == map[]
    && p.current.Some? && p.current.value in w.decisions
    && var d := w.decisions[p.current.value].body;
    && d.verdict == Ready && d.taskId == k && d.expiresAt > at && BasisOf(w, k) == Ok(d.basis)
  }

  function PolicyOver(w: Workspace, t: Id, c: seq<Id>, at: Time, explicit: bool): Verdicts
    requires t in w.tasks && Listed(w.tasks, c)
  {
    var scopes := Scopes(w.tasks, c);
    var blockers := Blockers(w.cases, scopes);
    var refs := CaseRefs(w.cases, scopes);
    if blockers != {} then Verdicts(Deny, [OpenRiskRecalled], refs, blockers)
    else
      var scan := ScanBaselines(w, c, at);
      var causal := refs + scan.refs;
      if scan.fault.Some? then Verdicts(NeedsHuman, [scan.fault.value], causal, {})
      else if exists k | k in c :: k != t && !ParentCurrent(w, k, at) then
        Verdicts(NeedsHuman, [DependencyReviewRequired], causal, {})
      else if w.tasks[t].taints != map[] && !explicit then
        Verdicts(NeedsHuman, [ExplicitReconsiderationRequired], causal, {})
      else Verdicts(Ready, READY_REASONS, causal, {})
  }

  /** The verdict on a task at an instant, its reasons, its causal references and the open cases behind a denial. */
  function PolicyOf(w: Workspace, t: Id, at: Time, explicit: bool): Result<Verdicts>
    requires t in w.tasks
  {
    var c :- ClosureOf(w.tasks, t);
    Ok(PolicyOver(w, t, c, at, explicit))
  }

  lemma {:induction false} ScanFaultIff(w: Workspace, c: seq<Id>, at: Time)
    requires Listed(w.tasks, c)
    ensures ScanBaselines(w, c, at).fault.None? <==> forall k | k in c :: BaselineFault(w, k, at).None?
  {
    if c == [] {
    } else {
      ScanFaultIff(w, c[1..], at);
      assert c == [c[0]] + c[1..];
      forall k | k in c
        ensures k == c[0] || k in c[1..]
      {
      }
    }
  }

  // A baseline for the task's scope is stored, has not expired, and allows the amount.
  ghost predicate WithinBaseline(w: Workspace, k: Id, at: Time)
    requires k in w.tasks
  {
    var intent := w.tasks[k].intent;
    && intent.scope in w.baselines
    && w.baselines[intent.scope].expiresAt > at
    && intent.amount <= w.baselines[intent.scope].limit
  }

  // The task is READY without taints on a stored, unexpired READY decision about itself and its present basis.
  ghost predicate ProvenNow(w: Workspace, k: Id, at: Time)
    requires k in w.tasks
  {
    && w.tasks[k].status == Of(Ready) && w.tasks[k].taints == map[]
    && exists d :: w.tasks[k].current == Some(d) && d in w.decisions
         && w.decisions[d].body.verdict == Ready && w.decisions[d].body.taskId == k
         && w.decisions[d].body.expiresAt > at && BasisOf(w, k) == Ok(w.decisions[d].body.basis)
  }

  // Some case about the scope of a listed task is open.
  ghost predicate OpenRiskIn(w: Workspace, c: seq<Id>)
    requires Listed(w.tasks, c)
  {
    exists x, k :: x in w.cases && k in c && w.cases[x].scope == w.tasks[k].intent.scope && w.cases[x].status == Open
  }

  // The conditions for READY, without the order in which the policy tries them.
  ghost predicate ReadyConditions(w: Workspace, t: Id, at: Time, explicit: bool)
    requires t in w.tasks && ClosureOf(w.tasks, t).Ok?
  {
    var c := ClosureOf(w.tasks, t).value;
    && !OpenRiskIn(w, c)
    && (forall k | k in c :: WithinBaseline(w, k, at))
    && (forall k | k in c && k != t :: ProvenNow(w, k, at))
    && (w.tasks[t].taints == map[] || explicit)
  }

  lemma FaultMeans(w: Workspace, k: Id, at: Time)
    requires k in w.tasks
    ensures BaselineFault(w, k, at).None? <==> WithinBaseline(w, k, at)
    ensures var scope := w.tasks[k].intent.scope;
      && (BaselineFault(w, k, at) == Some(BaselineMissing) <==> scope !in w.baselines)
      && (BaselineFault(w, k, at) == Some(BaselineExpired) <==>
            scope in w.baselines && w.baselines[scope].expiresAt <= at)
      && (BaselineFault(w, k, at) == Some(LimitExceeded) <==>
            scope in w.baselines && w.baselines[scope].expiresAt > at && w.tasks[k].intent.amount > w.baselines[scope].limit)
  {
  }

  lemma CurrentMeans(w: Workspace, k: Id, at: Time)
    requires k in w.tasks
    ensures ParentCurrent(w, k, at) <==> ProvenNow(w, k, at)
  {
  }

  lemma BlockersMean(w: Workspace, c: seq<Id>)
    requires Listed(w.tasks, c)
    ensures Blockers(w.cases, Scopes(w.tasks, c)) != {} <==> OpenRiskIn(w, c)
    ensures forall x :: x in Blockers(w.cases, Scopes(w.tasks, c)) <==>
      x in w.cases && w.cases[x].status == Open && exists k :: k in c && w.tasks[k].intent.scope == w.cases[x].scope
  {
    var blockers := Blockers(w.cases, Scopes(w.tasks, c));
    if OpenRiskIn(w, c) {
      var x, k :| x in w.cases && k in c && w.cases[x].scope == w.tasks[k].intent.scope && w.cases[x].status == Open;
      assert x in blockers;
    }
    if x :| x in blockers {
      var k :| k in c && w.tasks[k].intent.scope == w.cases[x].scope;
    }
  }

  /** READY holds exactly under its conditions; DENY exactly when a case is open somewhere in the closure. */
  lemma PolicyMeaning(w: Workspace, t: Id, at: Time, explicit: bool)
    requires t in w.tasks && ClosureOf(w.tasks, t).Ok?
    ensures var v := PolicyOf(w, t, at, explicit).value;
      && (v.verdict == Ready <==> ReadyConditions(w, t, at, explicit))
      && (v.verdict == Ready ==> v.reasons == [CurrentPolicyPassed, HumanConfirmationStillRequired])
      && (v.verdict == Deny ==> v.reasons == [OpenRiskRecalled])
      && (v.verdict == Deny <==> OpenRiskIn(w, ClosureOf(w.tasks, t).value))
      && (v.verdict == Deny <==> v.blockers != {})
      && v.blockers == Blockers(w.cases, Scopes(w.tasks, ClosureOf(w.tasks, t).value))
  {
    var c := ClosureOf(w.tasks, t).value;
    ScanFaultIff(w, c, at);
    BlockersMean(w, c);
    forall k | k in c
      ensures BaselineFault(w, k, at).None? <==> WithinBaseline(w, k, at)
      ensures ParentCurrent(w, k, at) <==> ProvenNow(w, k, at)
    {
      FaultMeans(w, k, at);
      CurrentMeans(w, k, at);
    }
  }

  lemma ReadyIsReasoned(w: Workspace, t: Id, at: Time, explicit: bool)
    requires t in w.tasks && ClosureOf(w.tasks, t).Ok?
    ensures var v := PolicyOf(w, t, at, explicit).value; v.verdict == Ready ==> v.reasons == READY_REASONS
  {
  }

  // The first task in closure order that its baseline does not carry.
  ghost predicate FirstFault(w: Workspace, c: seq<Id>, at: Time, i: nat)
    requires Listed(w.tasks, c)
  {
    i < |c| && !WithinBaseline(w, c[i], at) && forall j | 0 <= j < i :: WithinBaseline(w, c[j], at)
  }

  lemma {:induction false} ScanStopsAt(w: Workspace, c: seq<Id>, at: Time, i: nat)
    requires Listed(w.tasks, c) && FirstFault(w, c, at, i)
    ensures ScanBaselines(w, c, at).fault == BaselineFault(w, c[i], at)
    ensures forall token :: token in ScanBaselines(w, c, at).refs <==> exists j :: 0 <= j <= i && token in BaselineRef(w, c[j])
  {
    FaultMeans(w, c[0], at);
    if i == 0 {
    } else {
      assert FirstFault(w, c[1..], at, i - 1);
      ScanStopsAt(w, c[1..], at, i - 1);
      forall token
        ensures token in ScanBaselines(w, c, at).refs <==> exists j :: 0 <= j <= i && token in BaselineRef(w, c[j])
      {
        if j :| 0 <= j <= i - 1 && token in BaselineRef(w, c[1..][j]) {
          assert c[1..][j] == c[j + 1];
        }
        if j :| 0 <= j <= i && token in BaselineRef(w, c[j]) {
          assert j > 0 ==> c[1..][j - 1] == c[j];
        }
      }
    }
  }

  /**
   Which reason is given: the fault of the first task in closure order that its baseline does not carry; then an
   ancestor without a live proof; then the task's own taint.
   */
  lemma PolicyReasons(w: Workspace, t: Id, at: Time, explicit: bool)
    requires t in w.tasks && ClosureOf(w.tasks, t).Ok? && !OpenRiskIn(w, ClosureOf(w.tasks, t).value)
    ensures var c, v := ClosureOf(w.tasks, t).value, PolicyOf(w, t, at, explicit).value;
      && (forall i: nat | FirstFault(w, c, at, i) ::
            var intent := w.tasks[c[i]].intent;
            && v.verdict == NeedsHuman
            && (v.reasons == [BaselineMissing] <==> intent.scope !in w.baselines)
            && (v.reasons == [BaselineExpired] <==>
                  intent.scope in w.baselines && w.baselines[intent.scope].expiresAt <= at)
            && (v.reasons == [LimitExceeded] <==>
                  intent.scope in w.baselines && w.baselines[intent.scope].expiresAt > at
                  && intent.amount > w.baselines[intent.scope].limit))
      && ((forall k | k in c :: WithinBaseline(w, k, at)) ==>
            && (v.reasons == [DependencyReviewRequired] <==> exists k :: k in c && k != t && !ProvenNow(w, k, at))
            && (v.reasons == [ExplicitReconsiderationRequired] <==>
                  (forall k | k in c && k != t :: ProvenNow(w, k, at)) && w.tasks[t].taints != map[] && !explicit))
  {
    var c := ClosureOf(w.tasks, t).value;
    BlockersMean(w, c);
    ScanFaultIff(w, c, at);
    forall k | k in c
      ensures BaselineFault(w, k, at).None? <==> WithinBaseline(w, k, at)
      ensures ParentCurrent(w, k, at) <==> ProvenNow(w, k, at)
    {
      FaultMeans(w, k, at);
      CurrentMeans(w, k, at);
    }
    forall i: nat | FirstFault(w, c, at, i)
      ensures ScanBaselines(w, c, at).fault == BaselineFault(w, c[i], at)
    {
      ScanStopsAt(w, c, at, i);
      FaultMeans(w, c[i], at);
    }
  }

  // ----- Validity and expiry of a decision -----

  datatype InvalidReason = DecisionMissing | DecisionExpired | BasisChanged | StatusChanged | PolicyChangedSince

  datatype Validity = Validity(valid: bool, preparable: bool, verdict: Verdict, reasons: seq<Reason>, blockers: set<Id>, invalid: set<InvalidReason>)

  function CurrentDecision(w: Workspace, t: Id): Option<DecisionBody>
    requires t in w.tasks
  {
    var id := w.tasks[t].current;
    if id.Some? && id.value in w.decisions then Some(w.decisions[id.value].body) else None
  }

  function InvalidReasons(w: Workspace, t: Id, d: DecisionBody, v: Verdicts, at: Time): set<InvalidReason>
    requires t in w.tasks
  {
    (if d.expiresAt <= at then {DecisionExpired} else {})
    + (if BasisOf(w, t) != Ok(d.basis) then {BasisChanged} else {})
    + (if w.tasks[t].status != Of(d.verdict) then {StatusChanged} else {})
    + (if d.verdict != v.verdict || multiset(d.reasons) != multiset(v.reasons) then {PolicyChangedSince} else {})
  }

  /** Re-evaluates time and policy: a stored decision is never taken at its word. */
  function ValidityOf(w: Workspace, t: Id, at: Time): Result<Validity>
    requires t in w.tasks
  {
    var v :- PolicyOf(w, t, at, false);
    var d := CurrentDecision(w, t);
    var invalid := if d.None? then {DecisionMissing} else InvalidReasons(w, t, d.value, v, at);
    Ok(Validity(invalid == {}, invalid == {} && v.verdict == Ready, v.verdict, v.reasons, v.blockers, invalid))
  }

  function Earlier(a: Time, b: Time): Time {
    if b < a then b else a
  }

  // The instants a task in the closure contributes to the expiry of t's proof.
  function Limit(w: Workspace, t: Id, k: Id, limit: Time): Time
    requires k in w.tasks
  {
    var scope := w.tasks[k].intent.scope;
    var own := if scope in w.baselines then Earlier(limit, w.baselines[scope].expiresAt) else limit;
    if k != t && CurrentDecision(w, k).Some? then Earlier(own, CurrentDecision(w, k).value.expiresAt) else own
  }

  function LimitOver(w: Workspace, t: Id, c: seq<Id>, limit: Time): Time
    requires Listed(w.tasks, c)
  {
    if c == [] then limit else LimitOver(w, t, c[1..], Limit(w, t, c[0], limit))
  }

  /** A proof cannot outlive a baseline or an ancestor's proof it rests on. */
  function ReadyExpiry(w: Workspace, t: Id, at: Time, default': Time): Result<Time> {
    var c :- ClosureOf(w.tasks, t);
    var limit := LimitOver(w, t, c, default');
    if limit <= at then Err(ReadyBasisExpired) else Ok(limit)
  }

  // Every instant from `low` on that bounds t's proof.
  ghost predicate BoundedBelow(w: Workspace, t: Id, c: seq<Id>, low: Time)
    requires Listed(w.tasks, c)
  {
    forall k | k in c ::
      && (w.tasks[k].intent.scope in w.baselines ==> low <= w.baselines[w.tasks[k].intent.scope].expiresAt)
      && (k != t && CurrentDecision(w, k).Some? ==> low <= CurrentDecision(w, k).value.expiresAt)
  }

  // Some bound of t's proof falls exactly at `limit`.
  ghost predicate Attained(w: Workspace, t: Id, c: seq<Id>, limit: Time)
    requires Listed(w.tasks, c)
  {
    exists k | k in c ::
      || (w.tasks[k].intent.scope in w.baselines && limit == w.baselines[w.tasks[k].intent.scope].expiresAt)
      || (k != t && CurrentDecision(w, k).Some? && limit == CurrentDecision(w, k).value.expiresAt)
  }

  lemma {:induction false} LimitOverIsMinimum(w: Workspace, t: Id, c: seq<Id>, limit: Time)
    requires Listed(w.tasks, c)
    ensures var m := LimitOver(w, t, c, limit);
      && m <= limit && BoundedBelow(w, t, c, m) && (m == limit || Attained(w, t, c, m))
    ensures forall low: Time | low <= limit && BoundedBelow(w, t, c, low) :: low <= LimitOver(w, t, c, limit)
  {
    if c == [] {
    } else {
      var next := Limit(w, t, c[0], limit);
      LimitOverIsMinimum(w, t, c[1..], next);
      var m := LimitOver(w, t, c[1..], next);
      assert c == [c[0]] + c[1..];
      assert forall k | k in c[1..] :: k in c;
      if m != limit {
        if m == next {
          assert c[0] in c;
        } else {
          assert Attained(w, t, c[1..], m);
        }
        assert Attained(w, t, c, m);
      }
      forall low: Time | low <= limit && BoundedBelow(w, t, c, low)
        ensures low <= m
      {
        assert c[0] in c;
        assert BoundedBelow(w, t, c[1..], low);
      }
    }
  }

  // ----- The recovery checklist -----

  datatype Step =
    | NoReviewNeeded
    | InvestigateAndResolve
    | OwnerReviewBaselineOrRequest
    | ReviewAncestorsFirst
    | ExplicitReconsideration

  datatype Row = Row(taskId: Id, predecessors: seq<Id>, step: Step, validity: Validity)

  function NextStep(v: Validity): Step {
    if v.preparable then NoReviewNeeded
    else if v.blockers != {} then InvestigateAndResolve
    else if BaselineMissing in v.reasons || BaselineExpired in v.reasons || LimitExceeded in v.reasons then
      OwnerReviewBaselineOrRequest
    else if DependencyReviewRequired in v.reasons then ReviewAncestorsFirst
    else ExplicitReconsideration
  }

  function Rows(w: Workspace, c: seq<Id>, at: Time): Result<seq<Row>>
    requires Listed(w.tasks, c)
  {
    if c == [] then Ok([])
    else
      var v :- ValidityOf(w, c[0], at);
      var rest :- Rows(w, c[1..], at);
      Ok([Row(c[0], w.tasks[c[0]].dependsOn, NextStep(v), v)] + rest)
  }

  /** A read-only checklist of the closure, ancestors first. */
  function RecoveryPlan(w: Workspace, t: Id, at: Time): Result<seq<Row>> {
    var c :- ClosureOf(w.tasks, t);
    Rows(w, c, at)
  }

  // ----- Affected tasks and investigations -----

  function Seeds(tasks: map<Id, Task>, scope: Scope): set<Id> {
    set k | k in tasks && tasks[k].intent.scope == scope
  }

  /** The tasks that depend, directly or not, on work in a scope. */
  ghost function Affected(tasks: map<Id, Task>, scope: Scope): set<Id> {
    Downstream(GraphOf(tasks), Seeds(tasks, scope))
  }

  function ActivePrecedents(w: Workspace, caseId: Id): set<Id>
    requires caseId in w.cases
  {
    var now := w.cases[caseId];
    set k | k in w.lessons &&
      var lesson := w.lessons[k];
      && lesson.caseId in w.cases && lesson.caseId != caseId
      && var source := w.cases[lesson.caseId];
      && source.status == Resolved && lesson.caseVersion == source.version
      && source.resolvedSeq == Some(lesson.resolvedSeq)
      && lesson.scope == now.scope && lesson.kind == now.kind
  }

  // Every task of the workspace has a closure.
  ghost predicate WellFounded(w: Workspace) {
    GraphOk(GraphOf(w.tasks))
  }

  lemma ClosureExists(w: Workspace, t: Id)
    requires WellFounded(w) && t in w.tasks
    ensures ClosureOf(w.tasks, t).Ok? && BasisOf(w, t).Ok?
    ensures ClosureOf(w.tasks, t) == Ancestors(GraphOf(w.tasks), t)
  {
    assert t in GraphOf(w.tasks);
  }

  // The first task, in order, whose basis cannot be taken.
  ghost predicate FirstWithout(w: Workspace, tasks: set<Id>, k: Id) {
    k in tasks && BasisOf(w, k).Err? && forall j | j in tasks && BasisOf(w, j).Err? :: k <= j
  }

  lemma SomeFirstWithout(w: Workspace, tasks: set<Id>)
    requires exists k :: k in tasks && BasisOf(w, k).Err?
    ensures exists k :: FirstWithout(w, tasks, k)
  {
    var without := set j | j in tasks && BasisOf(w, j).Err?;
    var some :| some in tasks && BasisOf(w, some).Err?;
    assert some in without;
    var k := Least(without);
    forall j | j in tasks && BasisOf(w, j).Err?
      ensures k <= j
    {
      assert j in without;
    }
    assert FirstWithout(w, tasks, k);
  }

  predicate AllHave(w: Workspace, tasks: set<Id>) {
    forall k | k in tasks :: BasisOf(w, k).Ok?
  }

  // The bases of some tasks, or the error of the first that has none.
  ghost function BasesOf(w: Workspace, tasks: set<Id>): Result<map<Id, TaskBasis>> {
    if AllHave(w, tasks) then Ok(map k | k in tasks :: BasisOf(w, k).value)
    else
      SomeFirstWithout(w, tasks);
      var k :| FirstWithout(w, tasks, k);
      Err(BasisOf(w, k).error)
  }

  // The bases are fixed by the basis of each task.
  lemma BasesAre(w: Workspace, tasks: set<Id>, r: Result<map<Id, TaskBasis>>)
    requires r.Ok? ==> r.value.Keys == tasks && forall k | k in tasks :: BasisOf(w, k) == Ok(r.value[k])
    requires r.Err? ==> exists k :: FirstWithout(w, tasks, k) && BasisOf(w, k) == Err(r.error)
    ensures BasesOf(w, tasks) == r
  {
    if r.Ok? {
      assert r.value == map k | k in tasks :: BasisOf(w, k).value;
    } else {
      var k :| FirstWithout(w, tasks, k) && BasisOf(w, k) == Err(r.error);
      assert !AllHave(w, tasks);
    }
  }

  lemma BasesExist(w: Workspace, scope: Scope)
    requires WellFounded(w)
    ensures BasesOf(w, Affected(w.tasks, scope)).Ok?
  {
    forall k | k in Affected(w.tasks, scope)
      ensures BasisOf(w, k).Ok?
    {
      ClosureExists(w, k);
    }
  }

  /** Everything a report about a case depends on. */
  ghost function InvestigationBasisOf(w: Workspace, caseId: Id): Result<InvestigationBasis>
    requires caseId in w.cases
  {
    var bases :- BasesOf(w, Affected(w.tasks, w.cases[caseId].scope));
    var heads :- EvidenceHeads(w, caseId);
    Ok(InvestigationBasis(w.cases[caseId], bases, map k | k in ActivePrecedents(w, caseId) :: w.lessons[k], heads))
  }

  // ----- The same, as loops over the closure -----

  method AffectedTasks(tasks: map<Id, Task>, scope: Scope) returns (r: set<Id>)
    ensures r == Affected(tasks, scope)
  {
    r := Propagate(GraphOf(tasks), Seeds(tasks, scope));
  }

  method ScanClosure(w: Workspace, c: seq<Id>, at: Time) returns (scan: Scan)
    requires Listed(w.tasks, c)
    ensures scan == ScanBaselines(w, c, at)
  {
    var refs: set<Token>, i := {}, 0;
    assert c[0..] == c;
    while i < |c|
      invariant 0 <= i <= |c|
      invariant ScanBaselines(w, c, at).fault == ScanBaselines(w, c[i..], at).fault
      invariant ScanBaselines(w, c, at).refs == refs + ScanBaselines(w, c[i..], at).refs
    {
      var fault := BaselineFault(w, c[i], at);
      assert c[i..][1..] == c[i + 1..];
      refs := refs + BaselineRef(w, c[i]);
      if fault.Some? {
        return Scan(fault, refs);
      }
      i := i + 1;
    }
    return Scan(None, refs);
  }

  method AncestorsCurrent(w: Workspace, t: Id, c: seq<Id>, at: Time) returns (r: bool)
    requires Listed(w.tasks, c)
    ensures r <==> forall k | k in c && k != t :: ParentCurrent(w, k, at)
  {
    for i := 0 to |c|
      invariant forall j | 0 <= j < i :: c[j] == t || ParentCurrent(w, c[j], at)
    {
      if c[i] != t && !ParentCurrent(w, c[i], at) {
        return false;
      }
    }
    return true;
  }

  method PolicyResult(w: Workspace, t: Id, at: Time, explicit: bool) returns (r: Result<Verdicts>)
    requires t in w.tasks
    ensures r == PolicyOf(w, t, at, explicit)
  {
    var closure := AncestorsOf(GraphOf(w.tasks), t);
    if closure.Err? {
      return Err(closure.error);
    }
    var c := closure.value;
    assert closure == ClosureOf(w.tasks, t);
    var scopes := Scopes(w.tasks, c);
    var blockers := Blockers(w.cases, scopes);
    var causal := CaseRefs(w.cases, scopes);
    if blockers != {} {
      return Ok(Verdicts(Deny, [OpenRiskRecalled], causal, blockers));
    }
    var scan := ScanClosure(w, c, at);
    causal := causal + scan.refs;
    if scan.fault.Some? {
      return Ok(Verdicts(NeedsHuman, [scan.fault.value], causal, {}));
    }
    var current := AncestorsCurrent(w, t, c, at);
    if !current {
      return Ok(Verdicts(NeedsHuman, [DependencyReviewRequired], causal, {}));
    }
    if w.tasks[t].taints != map[] && !explicit {
      return Ok(Verdicts(NeedsHuman, [ExplicitReconsiderationRequired], causal, {}));
    }
    return Ok(Verdicts(Ready, READY_REASONS, causal, {}));
  }

  method ComputeReadyExpiry(w: Workspace, t: Id, at: Time, default': Time) returns (r: Result<Time>)
    ensures r == ReadyExpiry(w, t, at, default')
  {
    var closure := AncestorsOf(GraphOf(w.tasks), t);
    if closure.Err? {
      return Err(closure.error);
    }
    var c := closure.value;
    assert closure == ClosureOf(w.tasks, t);
    var limit, i := default', 0;
    while i < |c|
      invariant 0 <= i <= |c|
      invariant LimitOver(w, t, c, default') == LimitOver(w, t, c[i..], limit)
    {
      assert c[i..][1..] == c[i + 1..];
      limit := Limit(w, t, c[i], limit);
      i := i + 1;
    }
    r := if limit <= at then Err(ReadyBasisExpired) else Ok(limit);
  }

  function Prepend(rows: seq<Row>, r: Result<seq<Row>>): Result<seq<Row>> {
    if r.Ok? then Ok(rows + r.value) else r
  }

  lemma RowsStep(w: Workspace, c: seq<Id>, i: nat, at: Time, rows: seq<Row>)
    requires Listed(w.tasks, c) && i < |c|
    ensures var v := ValidityOf(w, c[i], at);
      Prepend(rows, Rows(w, c[i..], at)) ==
        if v.Err? then Err(v.error)
        else Prepend(rows + [Row(c[i], w.tasks[c[i]].dependsOn, NextStep(v.value), v.value)], Rows(w, c[i + 1..], at))
  {
    var v := ValidityOf(w, c[i], at);
    var rest := Rows(w, c[i + 1..], at);
    assert c[i..][1..] == c[i + 1..];
    if v.Ok? && rest.Ok? {
      var row := Row(c[i], w.tasks[c[i]].dependsOn, NextStep(v.value), v.value);
      assert rows + ([row] + rest.value) == rows + [row] + rest.value;
    }
  }

  method ComputeRecoveryPlan(w: Workspace, t: Id, at: Time) returns (r: Result<seq<Row>>)
    ensures r == RecoveryPlan(w, t, at)
  {
    var closure := AncestorsOf(GraphOf(w.tasks), t);
    if closure.Err? {
      return Err(closure.error);
    }
    var c := closure.value;
    assert closure == ClosureOf(w.tasks, t);
    r := ComputeRows(w, c, at);
  }

  method ComputeRows(w: Workspace, c: seq<Id>, at: Time) returns (r: Result<seq<Row>>)
    requires Listed(w.tasks, c)
    ensures r == Rows(w, c, at)
  {
    ghost var all := Rows(w, c, at);
    assert c[0..] == c && (all.Ok? ==> [] + all.value == all.value);
    var rows: seq<Row>, i := [], 0;
    while i < |c|
      invariant 0 <= i <= |c|
      invariant all == Prepend(rows, Rows(w, c[i..], at))
    {
      RowsStep(w, c, i, at, rows);
      var v := ValidityOf(w, c[i], at);
      if v.Err? {
        return Err(v.error);
      }
      rows := rows + [Row(c[i], w.tasks[c[i]].dependsOn, NextStep(v.value), v.value)];
      i := i + 1;
    }
    assert Rows(w, c[i..], at) == Ok([]) && rows + [] == rows;
    return Ok(rows);
  }

  // The bases of some tasks, taken in order until one cannot be.
  method CollectBases(w: Workspace, tasks: set<Id>) returns (r: Result<map<Id, TaskBasis>>)
    ensures r == BasesOf(w, tasks)
  {
    var bases: map<Id, TaskBasis>, rest := map[], tasks;
    while rest != {}
      invariant rest <= tasks && bases.Keys == tasks - rest
      invariant forall k | k in bases :: BasisOf(w, k) == Ok(bases[k])
      decreases rest
    {
      var k := Least(rest);
      var basis := BasisOf(w, k);
      if basis.Err? {
        assert FirstWithout(w, tasks, k);
        BasesAre(w, tasks, Err(basis.error));
        return Err(basis.error);
      }
      bases := bases[k := basis.value];
      rest := rest - {k};
    }
    BasesAre(w, tasks, Ok(bases));
    return Ok(bases);
  }

  method BuildInvestigationBasis(w: Workspace, caseId: Id) returns (r: Result<InvestigationBasis>)
    requires caseId in w.cases
    ensures r == InvestigationBasisOf(w, caseId)
  {
    var impacted := AffectedTasks(w.tasks, w.cases[caseId].scope);
    var bases := CollectBases(w, impacted);
    if bases.Err? {
      return Err(bases.error);
    }
    var precedents := map k | k in ActivePrecedents(w, caseId) :: w.lessons[k];
    var heads := CollectHeads(w, caseId);
    if heads.Err? {
      return Err(heads.error);
    }
    return Ok(InvestigationBasis(w.cases[caseId], bases.value, precedents, heads.value));
  }
}
