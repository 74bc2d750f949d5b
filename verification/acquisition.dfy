/**
 The acquisition protocol under interleaving: collectors reserve a read inside the lock, fetch outside of it,
 and complete against whatever the workspace has become, while other commands run and collectors crash.
 */
module Acquisition {
  import opened Common
  import opened CaseworkModels
  import opened EvidenceDesk
  import opened Commands
  import opened Envelope
  import opened Safety
  import opened Integrity
  import opened Lifecycle
  import opened ArtifactGrowth
  import opened Runs
  import opened EvidenceBinding

  // ----- The system -----

  datatype Phase = Planned | Reading | Holding(result: FetchResult, finished: Time) | Ended

  // One run of `collect`: what it captured from its snapshot, and how far it got.
  datatype Collector = Collector(
    actor: Actor, key: IdemKey, session: Id, caseId: Id, version: nat,
    spec: SourceSpec, desk: Config, resource: Resource, force: bool, phase: Phase)

  datatype Booking = Booking(caseId: Id, sourceId: Id, requestId: RequestId)

  // The workspace, the clock, the collectors, and logs of every committed reservation and every fetch.
  datatype System = System(w: Workspace, now: Time, collectors: map<nat, Collector>, booked: seq<Booking>, fetched: seq<RequestId>)

  datatype Action =
    | Ordinary(call: Call)
    | Begin(i: nat, collector: Collector)
    | ReserveRead(i: nat, expected: nat, env: Env)
    | FetchRead(i: nat, result: FetchResult, at: Time)
    | FinishRead(i: nat, expected: nat, env: Env)
    | Crash(i: nat)

  function RequestOf(col: Collector): RequestId {
    RequestId(col.actor.actorId, col.key)
  }

  predicate Live(col: Collector) {
    col.phase.Reading? || col.phase.Holding?
  }

  function ReservationCall(col: Collector, expected: nat, env: Env): Call {
    Call(col.actor, col.key, col.session, expected,
         ReserveSource(col.caseId, col.spec.sourceId, col.resource, col.force),
         Reservation(col.version, col.spec), env)
  }

  function CompletionCall(col: Collector, expected: nat, env: Env): Call
    requires col.phase.Holding?
  {
    Call(col.actor, Done(RequestOf(col)), col.session, expected,
         FinishSource(col.caseId, RequestOf(col), col.phase.result),
         Fetch(col.version, col.spec, col.resource, col.phase.finished), env)
  }

  // The configuration's source, allowed for this tenant and subject, as it was when the snapshot was read.
  predicate Launched(w: Workspace, col: Collector) {
    && col.phase == Planned && col.actor.tenantId == w.tenantId && Operator(col.actor)
    && SeesCase(w, col.actor, col.caseId) && col.version == w.cases[col.caseId].version
    && col.spec.sourceId in col.desk.specs && col.desk.specs[col.spec.sourceId] == col.spec
    && col.spec.tenantId == col.actor.tenantId && w.cases[col.caseId].scope.subject in col.spec.subjects
    && col.spec.ttl > 0 && col.spec.maxAttempts > 0
  }

  ghost predicate Enabled(s: System, step: Action) {
    match step
    case Ordinary(call) => !Acquires(call.command) && FreshCall(s.w, call) && s.now <= call.env.at
    case Begin(i, col) => i !in s.collectors && Launched(s.w, col)
    case ReserveRead(i, expected, env) =>
      && i in s.collectors && s.collectors[i].phase == Planned && env.desk == Some(s.collectors[i].desk)
      && s.now <= env.at && FreshCall(s.w, ReservationCall(s.collectors[i], expected, env))
    case FetchRead(i, _, at) => i in s.collectors && s.collectors[i].phase == Reading && s.now <= at
    case FinishRead(i, expected, env) =>
      && i in s.collectors && s.collectors[i].phase.Holding? && env.desk == Some(s.collectors[i].desk)
      && s.now <= env.at && FreshCall(s.w, CompletionCall(s.collectors[i], expected, env))
    case Crash(i) => i in s.collectors
  }

  function Enter(collectors: map<nat, Collector>, i: nat, phase: Phase): map<nat, Collector>
    requires i in collectors
  {
    collectors[i := collectors[i].(phase := phase)]
  }

  // Only a new reservation goes on to fetch: a cached, replayed or refused one ends the collector.
  ghost predicate Granted(w: Workspace, call: Call) {
    && Accepted(w, call) && Change(w, call).Ok? && Change(w, call).value.outcome.Reserved?
  }

  ghost function After(s: System, step: Action): System
    requires Enabled(s, step)
  {
    match step
    case Ordinary(call) => s.(w := Next(s.w, call), now := call.env.at)
    case Begin(i, col) => s.(collectors := s.collectors[i := col])
    case ReserveRead(i, expected, env) =>
      var col := s.collectors[i];
      var call := ReservationCall(col, expected, env);
      var moved := s.(w := Next(s.w, call), now := env.at);
      if Granted(s.w, call) then
        moved.(collectors := Enter(s.collectors, i, Reading),
               booked := s.booked + [Booking(col.caseId, col.spec.sourceId, RequestOf(col))])
      else moved.(collectors := Enter(s.collectors, i, Ended))
    case FetchRead(i, result, at) =>
      s.(now := at, collectors := Enter(s.collectors, i, Holding(result, at)),
         fetched := s.fetched + [RequestOf(s.collectors[i])])
    case FinishRead(i, expected, env) =>
      var call := CompletionCall(s.collectors[i], expected, env);
      s.(w := Next(s.w, call), now := env.at,
         collectors := if Attempt(s.w, call) == Err(RevisionConflict) then s.collectors else Enter(s.collectors, i, Ended))
    case Crash(i) => s.(collectors := Enter(s.collectors, i, Ended))
  }

  // ----- What the artifacts say of the logs -----

  function LatestOf(booked: seq<Booking>, c: Id, s: Id): Option<RequestId> {
    if booked == [] then None
    else
      var last := booked[|booked| - 1];
      if last.caseId == c && last.sourceId == s then Some(last.requestId) else LatestOf(booked[..|booked| - 1], c, s)
  }

  function HeadRequest(artifacts: map<Key, Artifact>, c: Id, s: Id): Option<RequestId> {
    if HeadKey(c, s) in artifacts && artifacts[HeadKey(c, s)].HeadArtifact?
    then Some(artifacts[HeadKey(c, s)].head.requestId) else None
  }

  ghost predicate HeadsLatest(artifacts: map<Key, Artifact>, booked: seq<Booking>) {
    forall c: Id, s: Id :: HeadRequest(artifacts, c, s) == LatestOf(booked, c, s)
  }

  // The reads spent on a source were within the budget of the latest that was granted.
  ghost predicate BudgetKept(artifacts: map<Key, Artifact>, c: Id, s: Id) {
    Requests(artifacts, c, s) != {} ==>
      exists k :: k in Requests(artifacts, c, s) && |Requests(artifacts, c, s)| <= artifacts[k].request.spec.maxAttempts
  }

  ghost predicate BudgetsKept(artifacts: map<Key, Artifact>) {
    forall c: Id, s: Id :: BudgetKept(artifacts, c, s)
  }

  ghost predicate FetchesKnown(artifacts: map<Key, Artifact>, fetched: seq<RequestId>) {
    NoDuplicates(fetched) && forall id | id in fetched :: RequestKey(id) in artifacts
  }

  ghost predicate Protocol(artifacts: map<Key, Artifact>, now: Time, booked: seq<Booking>, fetched: seq<RequestId>) {
    EvidenceSound(artifacts, now) && HeadsLatest(artifacts, booked) && BudgetsKept(artifacts) && FetchesKnown(artifacts, fetched)
  }

  // Stored receipts are never altered.
  ghost predicate ReceiptsKept(a: map<Key, Artifact>, b: map<Key, Artifact>) {
    forall x: Id | ReceiptKey(x) in a :: ReceiptKey(x) in b && b[ReceiptKey(x)] == a[ReceiptKey(x)]
  }

  lemma RequestsSame(a: map<Key, Artifact>, b: map<Key, Artifact>, c: Id, s: Id)
    requires SameEvidence(a, b) && Keyed(a) && Keyed(b)
    ensures Requests(b, c, s) == Requests(a, c, s)
    ensures BudgetKept(a, c, s) ==> BudgetKept(b, c, s)
  {
    forall k
      ensures k in Requests(b, c, s) <==> k in Requests(a, c, s)
      ensures k in Requests(a, c, s) ==> k in a && k in b && a[k] == b[k]
    {
      if k in a {
        assert KeyedAt(k, a[k]);
      }
      if k in b {
        assert KeyedAt(k, b[k]);
      }
    }
    assert Requests(b, c, s) == Requests(a, c, s);
    if BudgetKept(a, c, s) && Requests(a, c, s) != {} {
      var k :| k in Requests(a, c, s) && |Requests(a, c, s)| <= a[k].request.spec.maxAttempts;
      assert k in Requests(b, c, s);
    }
  }

  lemma ProtocolSame(a: map<Key, Artifact>, b: map<Key, Artifact>, now: Time, later: Time, booked: seq<Booking>,
                     fetched: seq<RequestId>)
    requires Protocol(a, now, booked, fetched) && SameEvidence(a, b) && Keyed(b) && now <= later
    ensures Protocol(b, later, booked, fetched) && ReceiptsKept(a, b)
  {
    SameEvidenceSound(a, b, now, later);
    forall c: Id, s: Id
      ensures HeadRequest(b, c, s) == LatestOf(booked, c, s) && BudgetKept(b, c, s)
    {
      RequestsSame(a, b, c, s);
      assert HeadRequest(a, c, s) == LatestOf(booked, c, s);
      assert BudgetKept(a, c, s);
    }
  }

  lemma LatestAppended(booked: seq<Booking>, last: Booking, c: Id, s: Id)
    ensures LatestOf(booked + [last], c, s) ==
      if last.caseId == c && last.sourceId == s then Some(last.requestId) else LatestOf(booked, c, s)
  {
    assert (booked + [last])[..|booked|] == booked;
  }

  lemma ReservedRequest(a: map<Key, Artifact>, b: map<Key, Artifact>, r: SourceRequest, c: Id, s: Id, k: Key)
    requires ReservedAs(a, b, r) && Keyed(a)
    ensures k in Requests(b, c, s) <==>
      k in Requests(a, c, s) || (k == RequestKey(r.requestId) && (c, s) == (r.caseId, r.sourceId))
    ensures k in Requests(a, c, s) ==> b[k] == a[k]
  {
    if k == HeadKey(r.caseId, r.sourceId) && k in a {
      assert KeyedAt(k, a[k]);
    }
  }

  lemma ReservedBudget(a: map<Key, Artifact>, b: map<Key, Artifact>, r: SourceRequest, c: Id, s: Id)
    requires ReservedAs(a, b, r) && Keyed(a) && BudgetKept(a, c, s)
    requires |Requests(a, r.caseId, r.sourceId)| < r.spec.maxAttempts
    ensures BudgetKept(b, c, s)
  {
    var before, after := Requests(a, c, s), Requests(b, c, s);
    forall k: Key
      ensures k in after <==> k in before || (k == RequestKey(r.requestId) && (c, s) == (r.caseId, r.sourceId))
      ensures k in before ==> b[k] == a[k]
    {
      ReservedRequest(a, b, r, c, s, k);
    }
    if (c, s) == (r.caseId, r.sourceId) {
      assert after == before + {RequestKey(r.requestId)};
      assert RequestKey(r.requestId) in after;
    } else {
      assert after == before;
      if before != {} {
        var k :| k in before && |before| <= a[k].request.spec.maxAttempts;
        assert k in after;
      }
    }
  }

  lemma ProtocolReserved(a: map<Key, Artifact>, b: map<Key, Artifact>, r: SourceRequest, now: Time,
                         booked: seq<Booking>, fetched: seq<RequestId>)
    requires Protocol(a, now, booked, fetched) && ReservedAs(a, b, r) && Keyed(b)
    requires |Requests(a, r.caseId, r.sourceId)| < r.spec.maxAttempts
    ensures Protocol(b, now, booked + [Booking(r.caseId, r.sourceId, r.requestId)], fetched) && ReceiptsKept(a, b)
  {
    ReservedSound(a, b, r, now);
    var last := Booking(r.caseId, r.sourceId, r.requestId);
    forall c: Id, s: Id
      ensures HeadRequest(b, c, s) == LatestOf(booked + [last], c, s) && BudgetKept(b, c, s)
    {
      LatestAppended(booked, last, c, s);
      assert HeadRequest(a, c, s) == LatestOf(booked, c, s);
      assert BudgetKept(a, c, s);
      ReservedBudget(a, b, r, c, s);
    }
  }

  lemma FinishedBudget(a: map<Key, Artifact>, b: map<Key, Artifact>, r: SourceRequest, r': SourceRequest, c: Id, s: Id)
    requires FinishedAs(a, b, r, r') && Keyed(a) && Keyed(b)
    ensures Requests(b, c, s) == Requests(a, c, s)
    ensures BudgetKept(a, c, s) ==> BudgetKept(b, c, s)
  {
    forall k
      ensures k in Requests(b, c, s) <==> k in Requests(a, c, s)
      ensures k in Requests(a, c, s) ==> k in a && k in b && b[k].RequestArtifact? && a[k].request.spec == b[k].request.spec
    {
      if k in a {
        assert KeyedAt(k, a[k]);
      }
      if k in b {
        assert KeyedAt(k, b[k]);
      }
    }
    assert Requests(b, c, s) == Requests(a, c, s);
    if BudgetKept(a, c, s) && Requests(a, c, s) != {} {
      var k :| k in Requests(a, c, s) && |Requests(a, c, s)| <= a[k].request.spec.maxAttempts;
      assert k in Requests(b, c, s);
    }
  }

  // A completion never changes which request a head names.
  lemma FinishedHead(a: map<Key, Artifact>, b: map<Key, Artifact>, r: SourceRequest, r': SourceRequest, c: Id, s: Id)
    requires FinishedAs(a, b, r, r') && HeadsSound(a)
    ensures HeadRequest(b, c, s) == HeadRequest(a, c, s)
    ensures HeadRequest(a, c, s) != Some(r.requestId) ==>
      (HeadKey(c, s) in b <==> HeadKey(c, s) in a) && (HeadKey(c, s) in a ==> b[HeadKey(c, s)] == a[HeadKey(c, s)])
  {
  }

  lemma ProtocolFinished(a: map<Key, Artifact>, b: map<Key, Artifact>, r: SourceRequest, r': SourceRequest,
                         now: Time, booked: seq<Booking>, fetched: seq<RequestId>)
    requires Protocol(a, now, booked, fetched) && FinishedAs(a, b, r, r') && RequestSound(b, r', now) && Keyed(b)
    ensures Protocol(b, now, booked, fetched) && ReceiptsKept(a, b)
  {
    FinishedSound(a, b, r, r', now);
    forall c: Id, s: Id
      ensures HeadRequest(b, c, s) == LatestOf(booked, c, s) && BudgetKept(b, c, s)
    {
      FinishedHead(a, b, r, r', c, s);
      assert HeadRequest(a, c, s) == LatestOf(booked, c, s);
      assert BudgetKept(a, c, s);
      FinishedBudget(a, b, r, r', c, s);
    }
  }

  // ----- What holds of the collectors -----

  // The collector's own request is stored and still pending.
  ghost predicate OwnRequest(artifacts: map<Key, Artifact>, col: Collector) {
    && RequestKey(RequestOf(col)) in artifacts && artifacts[RequestKey(RequestOf(col))].RequestArtifact?
    && var r := artifacts[RequestKey(RequestOf(col))].request;
    && r.requestId == RequestOf(col) && r.state == Pending && r.caseId == col.caseId && r.caseVersion == col.version
    && r.sourceId == col.spec.sourceId && r.spec == col.spec && r.resource == col.resource
  }

  ghost predicate Captured(w: Workspace, col: Collector) {
    && col.caseId in w.cases && w.cases[col.caseId].scope.subject in col.spec.subjects
    && col.spec.tenantId == w.tenantId && col.spec.ttl > 0
    && col.spec.sourceId in col.desk.specs && col.desk.specs[col.spec.sourceId] == col.spec
  }

  ghost predicate CollectorSound(w: Workspace, now: Time, fetched: seq<RequestId>, col: Collector) {
    && Captured(w, col)
    && (Live(col) ==> OwnRequest(w.artifacts, col))
    && (col.phase.Reading? ==> RequestOf(col) !in fetched)
    && (col.phase.Holding? ==> col.phase.finished <= now)
  }

  ghost predicate LiveDistinct(collectors: map<nat, Collector>) {
    forall i, j | i in collectors && j in collectors && i != j && Live(collectors[i]) && Live(collectors[j]) ::
      RequestOf(collectors[i]) != RequestOf(collectors[j])
  }

  ghost predicate CollectorsSound(w: Workspace, now: Time, fetched: seq<RequestId>, collectors: map<nat, Collector>) {
    LiveDistinct(collectors) && forall i | i in collectors :: CollectorSound(w, now, fetched, collectors[i])
  }

  /** What holds of every system a run can reach. */
  ghost predicate Sound(s: System) {
    && Inv(s.w) && Protocol(s.w.artifacts, s.now, s.booked, s.fetched)
    && CollectorsSound(s.w, s.now, s.fetched, s.collectors)
  }

  // The tenant and the scopes of cases never change.
  ghost predicate ScopesKept(w: Workspace, w': Workspace) {
    w'.tenantId == w.tenantId && forall c | c in w.cases :: c in w'.cases && w'.cases[c].scope == w.cases[c].scope
  }

  ghost predicate RequestKept(a: map<Key, Artifact>, b: map<Key, Artifact>, id: RequestId) {
    RequestKey(id) in a ==> RequestKey(id) in b && b[RequestKey(id)] == a[RequestKey(id)]
  }

  lemma CollectorKept(w: Workspace, w': Workspace, now: Time, later: Time, fetched: seq<RequestId>, col: Collector)
    requires CollectorSound(w, now, fetched, col) && ScopesKept(w, w') && now <= later
    requires Live(col) ==> RequestKept(w.artifacts, w'.artifacts, RequestOf(col))
    ensures CollectorSound(w', later, fetched, col)
  {
  }

  // All live collectors but one keep their requests; that one may have ended.
  lemma OthersKept(w: Workspace, w': Workspace, now: Time, later: Time, fetched: seq<RequestId>,
                   collectors: map<nat, Collector>, i: nat)
    requires CollectorsSound(w, now, fetched, collectors) && ScopesKept(w, w') && now <= later && i in collectors
    requires forall j | j in collectors && j != i && Live(collectors[j]) ::
      RequestKept(w.artifacts, w'.artifacts, RequestOf(collectors[j]))
    ensures CollectorsSound(w', later, fetched, Enter(collectors, i, Ended))
  {
    forall j | j in collectors && j != i
      ensures CollectorSound(w', later, fetched, collectors[j])
    {
      CollectorKept(w, w', now, later, fetched, collectors[j]);
    }
  }

  lemma AllKept(w: Workspace, w': Workspace, now: Time, later: Time, fetched: seq<RequestId>,
                collectors: map<nat, Collector>)
    requires CollectorsSound(w, now, fetched, collectors) && ScopesKept(w, w') && now <= later
    requires SameEvidence(w.artifacts, w'.artifacts)
    ensures CollectorsSound(w', later, fetched, collectors)
  {
    forall j | j in collectors
      ensures CollectorSound(w', later, fetched, collectors[j])
    {
      CollectorKept(w, w', now, later, fetched, collectors[j]);
    }
  }

  // ----- Scopes and tenants are kept -----

  lemma NextKeepsScopes(w: Workspace, call: Call)
    requires Inv(w) && FreshCall(w, call)
    ensures ScopesKept(w, Next(w, call))
  {
    var w' := Next(w, call);
    NextMeaning(w, call);
    NextKeepsInv(w, call);
    NextKeepsIntact(w, call);
    NextKeepsTenant(w, call);
    forall c | c in w.cases
      ensures c in w'.cases && w'.cases[c].scope == w.cases[c].scope
    {
      ScopeFromHistory(w, w', c);
    }
  }

  lemma ScopeFromHistory(w: Workspace, w': Workspace, c: Id)
    requires Inv(w) && Inv(w') && Extends(w, w') && c in w.cases
    ensures c in w'.cases && w'.cases[c].scope == w.cases[c].scope
  {
    assert CaseHistoryIntact(w.cases[c], w.caseHistory[c]);
    assert c in w'.caseHistory.Keys;
    assert w.caseHistory[c] <= w'.caseHistory[c];
    assert EntryLawful(w.caseHistory[c], 0, c, w.cases[c].scope, w.handoffs, w.reports);
    assert EntryLawful(w'.caseHistory[c], 0, c, w'.cases[c].scope, w'.handoffs, w'.reports);
  }

  // ----- Steps -----

  // A step of the workspace that leaves the protocol's artifacts alone.
  lemma QuietSound(s: System, w': Workspace, later: Time)
    requires Sound(s) && Inv(w') && ScopesKept(s.w, w') && SameEvidence(s.w.artifacts, w'.artifacts) && s.now <= later
    ensures Sound(s.(w := w', now := later)) && ReceiptsKept(s.w.artifacts, w'.artifacts)
  {
    ProtocolSame(s.w.artifacts, w'.artifacts, s.now, later, s.booked, s.fetched);
    AllKept(s.w, w', s.now, later, s.fetched, s.collectors);
  }

  lemma EndedSound(s: System, i: nat)
    requires Sound(s) && i in s.collectors
    ensures Sound(s.(collectors := Enter(s.collectors, i, Ended)))
  {
  }

  lemma OrdinarySound(s: System, call: Call)
    requires Sound(s) && Enabled(s, Ordinary(call))
    ensures Sound(After(s, Ordinary(call))) && ReceiptsKept(s.w.artifacts, Next(s.w, call).artifacts)
  {
    NextMeaning(s.w, call);
    NextKeepsInv(s.w, call);
    NextKeepsScopes(s.w, call);
    SelfGrows(s.w.artifacts);
    if Accepted(s.w, call) {
      OrdinaryGrows(s.w, call);
    }
    QuietSound(s, Next(s.w, call), call.env.at);
  }

  ghost predicate BookedBy(r: SourceRequest, col: Collector) {
    && r.requestId == RequestOf(col) && r.caseId == col.caseId && r.caseVersion == col.version
    && r.sourceId == col.spec.sourceId && r.spec == col.spec && r.resource == col.resource
  }

  lemma ReserveGranted(w: Workspace, call: Call, c: Id, resource: Resource, force: bool)
    returns (a: map<Key, Artifact>, r: SourceRequest)
    requires ReserveChange(w, call, c, resource, force).Ok? && ReserveChange(w, call, c, resource, force).value.outcome.Reserved?
    requires Keyed(w.artifacts) && call.carried.spec.ttl > 0
    requires RequestKey(RequestId(call.actor.actorId, call.key)) !in w.artifacts
    ensures Keyed(a) && SameEvidence(w.artifacts, a)
    ensures ReservedAs(a, ReserveChange(w, call, c, resource, force).value.state.artifacts, r)
    ensures r.requestId == RequestId(call.actor.actorId, call.key) && r.caseId == c && r.caseVersion == call.carried.caseVersion
    ensures r.sourceId == call.carried.spec.sourceId && r.spec == call.carried.spec && r.resource == resource
    ensures |Requests(a, r.caseId, r.sourceId)| < r.spec.maxAttempts
  {
    var source := call.carried.spec.sourceId;
    var noted := Remember(w, call.env.desk, c, {source}).value;
    RememberFrame(w, call.env.desk, c, {source});
    RememberGrows(w, call.env.desk, c, {source});
    a := noted.artifacts;
    ReserveEither(noted, call, c, resource, force);
    WithRequestReserves(noted, call, c, resource);
    r := SourceRequest(RequestId(call.actor.actorId, call.key), c, noted.cases[c].version, source, call.carried.spec, resource,
                       Pending, call.env.at, call.actor.actorId, None, None, None);
  }

  // A granted reservation: the noted policy, then the new request and head.
  lemma GrantedReserves(w: Workspace, col: Collector, expected: nat, env: Env)
    returns (a: map<Key, Artifact>, r: SourceRequest)
    requires Inv(w) && FreshCall(w, ReservationCall(col, expected, env)) && col.spec.ttl > 0
    requires Granted(w, ReservationCall(col, expected, env))
    ensures Keyed(a) && SameEvidence(w.artifacts, a) && BookedBy(r, col)
    ensures ReservedAs(a, Next(w, ReservationCall(col, expected, env)).artifacts, r)
    ensures |Requests(a, r.caseId, r.sourceId)| < r.spec.maxAttempts
  {
    var call := ReservationCall(col, expected, env);
    NextMeaning(w, call);
    assert RequestKey(RequestOf(col)) !in w.artifacts;
    a, r := ReserveGranted(w, call, col.caseId, col.resource, col.force);
  }

  lemma ReservedCollectors(s: System, i: nat, w': Workspace, a: map<Key, Artifact>, r: SourceRequest, later: Time)
    requires Sound(s) && i in s.collectors && s.collectors[i].phase == Planned && s.now <= later
    requires ScopesKept(s.w, w') && SameEvidence(s.w.artifacts, a) && ReservedAs(a, w'.artifacts, r)
    requires BookedBy(r, s.collectors[i])
    ensures CollectorsSound(w', later, s.fetched, Enter(s.collectors, i, Reading))
  {
    var collectors' := Enter(s.collectors, i, Reading);
    forall j | j in s.collectors && j != i
      ensures CollectorSound(w', later, s.fetched, s.collectors[j])
      ensures Live(s.collectors[j]) ==> RequestOf(s.collectors[j]) != RequestOf(s.collectors[i])
    {
      CollectorKept(s.w, w', s.now, later, s.fetched, s.collectors[j]);
    }
    assert RequestKey(r.requestId) !in s.w.artifacts;
    assert CollectorSound(w', later, s.fetched, collectors'[i]);
  }

  lemma GrantedSound(s: System, i: nat, expected: nat, env: Env)
    requires Sound(s) && Enabled(s, ReserveRead(i, expected, env))
    requires Granted(s.w, ReservationCall(s.collectors[i], expected, env))
    ensures Sound(After(s, ReserveRead(i, expected, env)))
    ensures ReceiptsKept(s.w.artifacts, After(s, ReserveRead(i, expected, env)).w.artifacts)
  {
    var col := s.collectors[i];
    var call := ReservationCall(col, expected, env);
    var w' := Next(s.w, call);
    NextKeepsInv(s.w, call);
    NextKeepsScopes(s.w, call);
    var a, r := GrantedReserves(s.w, col, expected, env);
    ProtocolSame(s.w.artifacts, a, s.now, env.at, s.booked, s.fetched);
    ProtocolReserved(a, w'.artifacts, r, env.at, s.booked, s.fetched);
    ReservedCollectors(s, i, w', a, r, env.at);
  }

  lemma CachedQuiet(w: Workspace, call: Call, c: Id, resource: Resource, force: bool)
    requires ReserveChange(w, call, c, resource, force).Ok? && !ReserveChange(w, call, c, resource, force).value.outcome.Reserved?
    requires Keyed(w.artifacts)
    ensures SameEvidence(w.artifacts, ReserveChange(w, call, c, resource, force).value.state.artifacts)
  {
    RememberGrows(w, call.env.desk, c, {call.carried.spec.sourceId});
    var noted := Remember(w, call.env.desk, c, {call.carried.spec.sourceId}).value;
    RememberFrame(w, call.env.desk, c, {call.carried.spec.sourceId});
    ReserveEither(noted, call, c, resource, force);
  }

  // A reservation that was refused, replayed or answered from a stored receipt.
  lemma UngrantedQuiet(w: Workspace, call: Call)
    requires Inv(w) && FreshCall(w, call) && call.command.ReserveSource? && !Granted(w, call)
    ensures SameEvidence(w.artifacts, Next(w, call).artifacts)
  {
    NextMeaning(w, call);
    if Accepted(w, call) {
      assert Change(w, call) == ReserveChange(w, call, call.command.caseId, call.command.resource, call.command.forceRefresh);
      CachedQuiet(w, call, call.command.caseId, call.command.resource, call.command.forceRefresh);
    }
  }

  lemma ReserveReadSound(s: System, i: nat, expected: nat, env: Env)
    requires Sound(s) && Enabled(s, ReserveRead(i, expected, env))
    ensures Sound(After(s, ReserveRead(i, expected, env)))
    ensures ReceiptsKept(s.w.artifacts, After(s, ReserveRead(i, expected, env)).w.artifacts)
  {
    var call := ReservationCall(s.collectors[i], expected, env);
    if Granted(s.w, call) {
      GrantedSound(s, i, expected, env);
    } else {
      NextKeepsInv(s.w, call);
      NextKeepsScopes(s.w, call);
      UngrantedQuiet(s.w, call);
      QuietSound(s, Next(s.w, call), env.at);
      EndedSound(s.(w := Next(s.w, call), now := env.at), i);
    }
  }

  lemma FetchedCollectors(s: System, i: nat, result: FetchResult, at: Time)
    requires CollectorsSound(s.w, s.now, s.fetched, s.collectors) && i in s.collectors && s.collectors[i].phase == Reading && s.now <= at
    ensures CollectorsSound(s.w, at, s.fetched + [RequestOf(s.collectors[i])], Enter(s.collectors, i, Holding(result, at)))
  {
    var collectors' := Enter(s.collectors, i, Holding(result, at));
    forall j | j in collectors'
      ensures CollectorSound(s.w, at, s.fetched + [RequestOf(s.collectors[i])], collectors'[j])
    {
      assert CollectorSound(s.w, s.now, s.fetched, s.collectors[j]);
    }
  }

  lemma FetchedProtocol(artifacts: map<Key, Artifact>, now: Time, booked: seq<Booking>, fetched: seq<RequestId>,
                        id: RequestId)
    requires Protocol(artifacts, now, booked, fetched) && id !in fetched && RequestKey(id) in artifacts
    ensures Protocol(artifacts, now, booked, fetched + [id])
  {
  }

  lemma FetchReadSound(s: System, i: nat, result: FetchResult, at: Time)
    requires Sound(s) && Enabled(s, FetchRead(i, result, at))
    ensures Sound(After(s, FetchRead(i, result, at)))
  {
    assert CollectorSound(s.w, s.now, s.fetched, s.collectors[i]);
    SelfGrows(s.w.artifacts);
    ProtocolSame(s.w.artifacts, s.w.artifacts, s.now, at, s.booked, s.fetched);
    FetchedProtocol(s.w.artifacts, at, s.booked, s.fetched, RequestOf(s.collectors[i]));
    FetchedCollectors(s, i, result, at);
  }

  lemma FinishCommits(w: Workspace, call: Call, c: Id, id: RequestId, fetched: FetchResult, now: Time)
    returns (r: SourceRequest, r': SourceRequest)
    requires Accepted(w, call) && call.command == FinishSource(c, id, fetched)
    requires EvidenceSound(w.artifacts, now) && OwnRead(w.artifacts, call.carried, c, id)
    requires ReceiptKey(call.env.newId) !in w.artifacts && call.carried.finished <= now
    ensures FinishedAs(w.artifacts, Next(w, call).artifacts, r, r') && RequestSound(Next(w, call).artifacts, r', now)
    ensures r == w.artifacts[RequestKey(id)].request && r.requestId == id
    ensures c in w.cases && r'.state == FinishedState(w, call, c, id, fetched)
    ensures r'.receiptId == if fetched.Fetched? then Some(call.env.newId) else None
    ensures fetched.Fetched? ==>
      var b, receipt := Next(w, call).artifacts, ReceiptFor(call, c, fetched.observation);
      ReceiptKey(call.env.newId) in b && b[ReceiptKey(call.env.newId)] == ReceiptArtifact(receipt, receipt)
  {
    NextMeaning(w, call);
    assert Change(w, call) == FinishChange(w, call, c, id, fetched);
    r, r' := FinishFinishes(w, call, c, id, fetched, now);
  }

  // A committed completion, seen as its effect on the artifacts.
  lemma CompletionFinishes(s: System, i: nat, expected: nat, env: Env) returns (r: SourceRequest, r': SourceRequest)
    requires Sound(s) && Enabled(s, FinishRead(i, expected, env))
    requires Accepted(s.w, CompletionCall(s.collectors[i], expected, env))
    ensures var b := Next(s.w, CompletionCall(s.collectors[i], expected, env)).artifacts;
      FinishedAs(s.w.artifacts, b, r, r') && RequestSound(b, r', env.at)
    ensures r.requestId == RequestOf(s.collectors[i]) && r.caseId == s.collectors[i].caseId
    ensures r.sourceId == s.collectors[i].spec.sourceId
    ensures r.caseId in s.w.cases
    ensures r'.state == FinishedState(s.w, CompletionCall(s.collectors[i], expected, env), r.caseId, r.requestId, s.collectors[i].phase.result)
    ensures r'.receiptId == if s.collectors[i].phase.result.Fetched? then Some(env.newId) else None
    ensures s.collectors[i].phase.result.Fetched? ==>
      var b := Next(s.w, CompletionCall(s.collectors[i], expected, env)).artifacts;
      && ReceiptKey(env.newId) in b && b[ReceiptKey(env.newId)].ReceiptArtifact?
      && b[ReceiptKey(env.newId)].receipt ==
           ReceiptFor(CompletionCall(s.collectors[i], expected, env), r.caseId, s.collectors[i].phase.result.observation)
  {
    var col := s.collectors[i];
    assert CollectorSound(s.w, s.now, s.fetched, col);
    SelfGrows(s.w.artifacts);
    SameEvidenceSound(s.w.artifacts, s.w.artifacts, s.now, env.at);
    r, r' := FinishCommits(s.w, CompletionCall(col, expected, env), col.caseId, RequestOf(col), col.phase.result, env.at);
  }

  lemma CompletedCollectors(s: System, i: nat, w': Workspace, r: SourceRequest, r': SourceRequest, later: Time)
    requires CollectorsSound(s.w, s.now, s.fetched, s.collectors) && i in s.collectors && Live(s.collectors[i])
    requires s.now <= later && ScopesKept(s.w, w') && FinishedAs(s.w.artifacts, w'.artifacts, r, r')
    requires r.requestId == RequestOf(s.collectors[i])
    ensures CollectorsSound(w', later, s.fetched, Enter(s.collectors, i, Ended))
  {
    forall j | j in s.collectors && j != i && Live(s.collectors[j])
      ensures RequestKept(s.w.artifacts, w'.artifacts, RequestOf(s.collectors[j]))
    {
      assert RequestOf(s.collectors[j]) != RequestOf(s.collectors[i]);
    }
    OthersKept(s.w, w', s.now, later, s.fetched, s.collectors, i);
  }

  lemma CompletedParts(s: System, i: nat, w': Workspace, r: SourceRequest, r': SourceRequest, later: Time)
    requires Sound(s) && i in s.collectors && Live(s.collectors[i]) && s.now <= later && Inv(w') && ScopesKept(s.w, w')
    requires FinishedAs(s.w.artifacts, w'.artifacts, r, r') && RequestSound(w'.artifacts, r', later)
    requires r.requestId == RequestOf(s.collectors[i])
    ensures Sound(s.(w := w', now := later, collectors := Enter(s.collectors, i, Ended)))
    ensures ReceiptsKept(s.w.artifacts, w'.artifacts)
  {
    SelfGrows(s.w.artifacts);
    ProtocolSame(s.w.artifacts, s.w.artifacts, s.now, later, s.booked, s.fetched);
    ProtocolFinished(s.w.artifacts, w'.artifacts, r, r', later, s.booked, s.fetched);
    CompletedCollectors(s, i, w', r, r', later);
  }

  lemma AfterCompletion(s: System, i: nat, expected: nat, env: Env)
    requires Enabled(s, FinishRead(i, expected, env))
    requires Accepted(s.w, CompletionCall(s.collectors[i], expected, env))
    ensures After(s, FinishRead(i, expected, env)) ==
      s.(w := Next(s.w, CompletionCall(s.collectors[i], expected, env)), now := env.at,
         collectors := Enter(s.collectors, i, Ended))
  {
  }

  lemma CompletedSound(s: System, i: nat, expected: nat, env: Env)
    requires Sound(s) && Enabled(s, FinishRead(i, expected, env))
    requires Accepted(s.w, CompletionCall(s.collectors[i], expected, env))
    ensures Sound(After(s, FinishRead(i, expected, env)))
    ensures ReceiptsKept(s.w.artifacts, After(s, FinishRead(i, expected, env)).w.artifacts)
  {
    var call := CompletionCall(s.collectors[i], expected, env);
    var r, r' := CompletionFinishes(s, i, expected, env);
    NextKeepsInv(s.w, call);
    NextKeepsScopes(s.w, call);
    AfterCompletion(s, i, expected, env);
    CompletedParts(s, i, Next(s.w, call), r, r', env.at);
  }

  lemma RefusedSound(s: System, i: nat, later: Time)
    requires Sound(s) && i in s.collectors && s.now <= later
    ensures Sound(s.(now := later)) && Sound(s.(now := later, collectors := Enter(s.collectors, i, Ended)))
    ensures ReceiptsKept(s.w.artifacts, s.w.artifacts)
  {
    SelfGrows(s.w.artifacts);
    QuietSound(s, s.w, later);
    EndedSound(s.(now := later), i);
  }

  lemma FinishReadSound(s: System, i: nat, expected: nat, env: Env)
    requires Sound(s) && Enabled(s, FinishRead(i, expected, env))
    ensures Sound(After(s, FinishRead(i, expected, env)))
    ensures ReceiptsKept(s.w.artifacts, After(s, FinishRead(i, expected, env)).w.artifacts)
  {
    var call := CompletionCall(s.collectors[i], expected, env);
    NextMeaning(s.w, call);
    if Accepted(s.w, call) {
      CompletedSound(s, i, expected, env);
    } else {
      RefusedSound(s, i, env.at);
    }
  }

  lemma BeginSound(s: System, i: nat, col: Collector)
    requires Sound(s) && Enabled(s, Begin(i, col))
    ensures Sound(After(s, Begin(i, col)))
  {
    var collectors' := s.collectors[i := col];
    forall j | j in collectors'
      ensures CollectorSound(s.w, s.now, s.fetched, collectors'[j])
    {
      assert j != i ==> CollectorSound(s.w, s.now, s.fetched, s.collectors[j]);
    }
  }

  /** Every step keeps the system sound and alters no stored receipt. */
  lemma StepSound(s: System, step: Action)
    requires Sound(s) && Enabled(s, step)
    ensures Sound(After(s, step))
    ensures ReceiptsKept(s.w.artifacts, After(s, step).w.artifacts)
  {
    match step
    case Ordinary(call) =>
      assert step == Ordinary(call);
      OrdinarySound(s, call);
    case Begin(i, col) =>
      assert step == Begin(i, col);
      BeginSound(s, i, col);
    case ReserveRead(i, expected, env) =>
      assert step == ReserveRead(i, expected, env);
      ReserveReadSound(s, i, expected, env);
    case FetchRead(i, result, at) =>
      assert step == FetchRead(i, result, at);
      FetchReadSound(s, i, result, at);
    case FinishRead(i, expected, env) =>
      assert step == FinishRead(i, expected, env);
      FinishReadSound(s, i, expected, env);
    case Crash(i) => EndedSound(s, i);
  }
}
