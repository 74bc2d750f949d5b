/** How the one dictionary of artifacts grows: every artifact under its own key, no obligation lost. */
module ArtifactGrowth {
  import opened Common
  import opened CaseworkModels
  import opened SourceGuard
  import opened EvidenceDesk
  import opened Commands
  import opened Envelope
  import opened Safety
  import opened Integrity
  import opened ProofValidity

  // The key each artifact is stored under.
  predicate KeyedAt(k: Key, a: Artifact) {
    match a
    case HeadArtifact(head) => k == HeadKey(head.caseId, head.sourceId)
    case RequestArtifact(request) => k == RequestKey(request.requestId)
    case ReceiptArtifact(receipt, _) => k == ReceiptKey(receipt.receiptId)
    case GuardArtifact(c, _, _) => k == GuardKey(c)
    case BundleArtifact(reportId, _, _, _) => k == BundleKey(reportId)
    case LinkArtifact(proof) => k == LinkKey(proof.caseId, proof.caseVersion)
    case EscalationArtifact(decision) => k == EscalationKey(decision.taskId, decision.decisionId)
    case ReviewArtifact(t, d, _) => k == ReviewKey(t, d)
    case IncidentArtifact(_, _, _, _, _) => k.IncidentKey?
  }

  ghost predicate Keyed(artifacts: map<Key, Artifact>) {
    forall k | k in artifacts :: KeyedAt(k, artifacts[k])
  }

  lemma KeyedParts(artifacts: map<Key, Artifact>)
    requires Keyed(artifacts)
    ensures LinksKeyed(artifacts) && GuardsKeyed(artifacts)
  {
  }

  // A request is stored only once its idempotency key has been used.
  ghost predicate RequestsKnown(w: Workspace) {
    forall k | k in w.artifacts && k.RequestKey? :: (k.requestId.actorId, k.requestId.key) in w.completed
  }

  /** Nothing is removed, everything is under its key, and no case owes less than before. */
  ghost predicate Grows(a: map<Key, Artifact>, b: map<Key, Artifact>) {
    && Keyed(b)
    && (forall k | k in a :: k in b)
    && (forall c: Id, k | k in a :: Below(Contribution(a[k], c), Contribution(b[k], c)))
  }

  lemma GrowsRetains(a: map<Key, Artifact>, b: map<Key, Artifact>, c: Id)
    requires Grows(a, b)
    ensures Retains(a, b, c) && Below(Obligations(a, c), Obligations(b, c))
  {
    RetainsGrows(a, b, c);
  }

  // The artifacts of the acquisition protocol.
  predicate EvidenceKey(k: Key) {
    k.HeadKey? || k.RequestKey? || k.ReceiptKey?
  }

  ghost predicate SameEvidence(a: map<Key, Artifact>, b: map<Key, Artifact>) {
    forall k | EvidenceKey(k) :: (k in a <==> k in b) && (k in a ==> a[k] == b[k])
  }

  // Grows, and leaves the acquisition protocol's artifacts alone.
  ghost predicate GrowsQuietly(a: map<Key, Artifact>, b: map<Key, Artifact>) {
    Grows(a, b) && SameEvidence(a, b)
  }

  lemma GrowsThrough(a: map<Key, Artifact>, b: map<Key, Artifact>, c: map<Key, Artifact>)
    requires Grows(a, b) && Grows(b, c)
    ensures Grows(a, c)
  {
    forall o: Id, k | k in a
      ensures Below(Contribution(a[k], o), Contribution(c[k], o))
    {
      assert Below(Contribution(a[k], o), Contribution(b[k], o));
      assert Below(Contribution(b[k], o), Contribution(c[k], o));
    }
  }

  // Storing an artifact that obliges to at least what its predecessor under the key did.
  lemma PutGrows(a: map<Key, Artifact>, k: Key, v: Artifact)
    requires Keyed(a) && KeyedAt(k, v)
    requires forall c: Id | k in a :: Below(Contribution(a[k], c), Contribution(v, c))
    ensures Grows(a, a[k := v])
    ensures !EvidenceKey(k) ==> SameEvidence(a, a[k := v])
  {
  }

  // Keys whose artifacts oblige to nothing.
  predicate FreeKey(k: Key) {
    k.LinkKey? || k.EscalationKey? || k.ReviewKey? || k.IncidentKey?
  }

  lemma FreePutGrows(a: map<Key, Artifact>, k: Key, v: Artifact)
    requires Keyed(a) && KeyedAt(k, v) && FreeKey(k)
    ensures Grows(a, a[k := v]) && SameEvidence(a, a[k := v])
  {
    if k in a {
      assert KeyedAt(k, a[k]);
    }
    PutGrows(a, k, v);
  }

  lemma RememberGrows(w: Workspace, desk: Option<Config>, c: Id, sources: set<Id>)
    requires c in w.cases && Remember(w, desk, c, sources).Ok? && Keyed(w.artifacts)
    ensures var s := Remember(w, desk, c, sources).value;
      Grows(w.artifacts, s.artifacts) && SameEvidence(w.artifacts, s.artifacts)
  {
    if desk.Some? {
      KeyedParts(w.artifacts);
      var policy := CasePolicyOf(w, desk.value, c);
      forall o: Id, k | k in w.artifacts
        ensures var after := RememberPolicy(w.artifacts, c, policy, sources).value;
          k in after && Below(Contribution(w.artifacts[k], o), Contribution(after[k], o))
      {
        RememberPolicyRetains(w.artifacts, c, policy, sources, o);
      }
    }
  }

  // ----- Command by command -----

  lemma DecideGrows(w: Workspace, t: Id, call: Call, explicit: bool)
    requires t in w.tasks && Decide(w, t, call, explicit).Ok? && Keyed(w.artifacts)
    ensures var s := Decide(w, t, call, explicit).value.state;
      Grows(w.artifacts, s.artifacts) && SameEvidence(w.artifacts, s.artifacts)
  {
    DecisionSays(w, t, call, explicit);
    var made := Decide(w, t, call, explicit).value;
    if made.decision.body.verdict != Ready {
      FreePutGrows(w.artifacts, EscalationKey(t, call.env.newId), EscalationArtifact(made.decision.body));
    }
  }

  lemma RegisterGrows(w: Workspace, call: Call, intent: Intent, dependsOn: seq<Id>)
    requires RegisterChange(w, call, intent, dependsOn).Ok? && Keyed(w.artifacts)
    ensures var s := RegisterChange(w, call, intent, dependsOn).value.state;
      Grows(w.artifacts, s.artifacts) && SameEvidence(w.artifacts, s.artifacts)
  {
    var made := RegisterParts(w, call, intent, dependsOn);
    DecideGrows(WithTask(w, call, intent, dependsOn), call.env.newId, call, false);
  }

  lemma EvaluateGrows(w: Workspace, call: Call, t: Id, explicit: bool)
    requires EvaluateChange(w, call, t, explicit).Ok? && Keyed(w.artifacts)
    ensures var s := EvaluateChange(w, call, t, explicit).value.state;
      Grows(w.artifacts, s.artifacts) && SameEvidence(w.artifacts, s.artifacts)
  {
    DecideGrows(w, t, call, explicit);
  }

  lemma RaiseCaseGrows(w: Workspace, call: Call, next: RiskCase, reason: TaintReason)
    requires RaiseCase(w, call, next, reason).Ok? && Keyed(w.artifacts)
    ensures var s := RaiseCase(w, call, next, reason).value.state;
      Grows(w.artifacts, s.artifacts) && SameEvidence(w.artifacts, s.artifacts)
  {
    RememberGrows(WithCase(w, next), call.env.desk, next.caseId, {});
  }

  lemma IngestGrows(w: Workspace, call: Call, source: Id, scope: Scope, kind: RiskKind, evidence: Digest, payload: Id)
    requires IngestChange(w, call, source, scope, kind, evidence, payload).Ok? && Keyed(w.artifacts)
    ensures var s := IngestChange(w, call, source, scope, kind, evidence, payload).value.state;
      Grows(w.artifacts, s.artifacts) && SameEvidence(w.artifacts, s.artifacts)
  {
    var before := OpenChange(w, call, scope, kind, evidence, SignedIncident).value.state.artifacts;
    OpenGrows(w, call, scope, kind, evidence, SignedIncident);
    var record := IncidentArtifact(call.env.newId, source, call.actor.actorId, call.env.at, payload);
    FreePutGrows(before, IncidentKey(call.env.newId), record);
    GrowsThrough(w.artifacts, before, before[IncidentKey(call.env.newId) := record]);
  }

  lemma OpenGrows(w: Workspace, call: Call, scope: Scope, kind: RiskKind, evidence: Digest, reason: TaintReason)
    requires OpenChange(w, call, scope, kind, evidence, reason).Ok? && Keyed(w.artifacts)
    ensures var s := OpenChange(w, call, scope, kind, evidence, reason).value.state;
      Grows(w.artifacts, s.artifacts) && SameEvidence(w.artifacts, s.artifacts)
  {
    RaiseCaseGrows(w, call, NewCase(w, call, scope, kind, evidence), reason);
  }

  lemma ReopenGrows(w: Workspace, call: Call, c: Id, evidence: Digest)
    requires ReopenChange(w, call, c, evidence).Ok? && Keyed(w.artifacts)
    ensures var s := ReopenChange(w, call, c, evidence).value.state;
      Grows(w.artifacts, s.artifacts) && SameEvidence(w.artifacts, s.artifacts)
  {
    RaiseCaseGrows(w, call, ReopenedCase(w, call, c, evidence), RiskReopened);
  }

  lemma OpenCommandGrows(w: Workspace, call: Call)
    requires call.command.OpenCase? && Change(w, call).Ok? && Keyed(w.artifacts)
    ensures GrowsQuietly(w.artifacts, Change(w, call).value.state.artifacts)
  {
    OpenGrows(w, call, call.command.scope, call.command.kind, call.command.evidence, NewRisk);
  }

  lemma IngestCommandGrows(w: Workspace, call: Call)
    requires call.command.IngestIncident? && Change(w, call).Ok? && Keyed(w.artifacts)
    ensures GrowsQuietly(w.artifacts, Change(w, call).value.state.artifacts)
  {
    var command := call.command;
    assert Change(w, call) == IngestChange(w, call, command.sourceId, command.scope, command.kind, command.evidence, command.payload);
    IngestGrows(w, call, command.sourceId, command.scope, command.kind, command.evidence, command.payload);
  }

  lemma ReopenCommandGrows(w: Workspace, call: Call)
    requires call.command.ReopenCase? && Change(w, call).Ok? && Keyed(w.artifacts)
    ensures GrowsQuietly(w.artifacts, Change(w, call).value.state.artifacts)
  {
    ReopenGrows(w, call, call.command.caseId, call.command.evidence);
  }

  lemma RaisingGrows(w: Workspace, call: Call)
    requires Raises(call.command) && Change(w, call).Ok? && Keyed(w.artifacts)
    ensures GrowsQuietly(w.artifacts, Change(w, call).value.state.artifacts)
  {
    if call.command.OpenCase? {
      OpenCommandGrows(w, call);
    } else if call.command.IngestIncident? {
      IngestCommandGrows(w, call);
    } else {
      ReopenCommandGrows(w, call);
    }
  }

  lemma CompleteGrows(w: Workspace, call: Call, c: Id, h: Id, report: Report, resolution: Resolution, evidence: Digest)
    requires c in w.cases && Keyed(w.artifacts) && w.cases[c].caseId == c
    requires CompleteResolution(w, call, c, h, report, resolution, evidence).Ok?
    ensures var s := CompleteResolution(w, call, c, h, report, resolution, evidence).value.state;
      Grows(w.artifacts, s.artifacts) && SameEvidence(w.artifacts, s.artifacts)
  {
    var resolved := ResolvedCase(w, call, c, resolution);
    var withLink := WithLink(w, call, resolved, report, h, evidence);
    var proof := ProofOf(w, call, resolved, report, h, evidence);
    FreePutGrows(w.artifacts, LinkKey(proof.caseId, proof.caseVersion), LinkArtifact(proof));
    PutGrowsOrSame(w.artifacts, withLink.artifacts, PutLink(w.artifacts, proof));
    RememberGrows(WithCase(withLink, resolved), call.env.desk, c, {});
    GrowsThrough(w.artifacts, withLink.artifacts,
                 CompleteResolution(w, call, c, h, report, resolution, evidence).value.state.artifacts);
  }

  lemma PutGrowsOrSame(a: map<Key, Artifact>, b: map<Key, Artifact>, c: map<Key, Artifact>)
    requires Keyed(a) && Grows(a, c) && SameEvidence(a, c) && (b == a || b == c)
    ensures Grows(a, b) && SameEvidence(a, b)
  {
  }

  lemma ResolvingGrows(w: Workspace, call: Call)
    requires Safe(w.tasks, w.cases) && call.command.Resolve? && Change(w, call).Ok? && Keyed(w.artifacts)
    ensures var s := Change(w, call).value.state;
      Grows(w.artifacts, s.artifacts) && SameEvidence(w.artifacts, s.artifacts)
  {
    var c, h := call.command.caseId, call.command.handoffId;
    var report := ValidReport(w, call.env.desk, c, w.handoffs[h].reportId, call.env.at).value;
    CompleteGrows(w, call, c, h, report, call.command.resolution, call.command.evidence);
  }

  lemma InvestigateGrows(w: Workspace, call: Call, c: Id)
    requires InvestigateChange(w, call, c).Ok? && Keyed(w.artifacts) && FreshCall(w, call)
    ensures var s := InvestigateChange(w, call, c).value.state;
      Grows(w.artifacts, s.artifacts) && SameEvidence(w.artifacts, s.artifacts)
  {
    var draft := call.carried;
    if draft.external.Some? {
      PutGrows(w.artifacts, BundleKey(draft.report.reportId),
               BundleArtifact(draft.report.reportId, draft.report.caseId, draft.report, draft.external.value));
    }
  }

  lemma PrepareGrows(w: Workspace, call: Call, t: Id, d: Id)
    requires PrepareChange(w, call, t, d).Ok? && Keyed(w.artifacts)
    ensures var s := PrepareChange(w, call, t, d).value.state;
      Grows(w.artifacts, s.artifacts) && SameEvidence(w.artifacts, s.artifacts)
  {
    FreePutGrows(w.artifacts, ReviewKey(t, d), ReviewArtifact(t, d, w.decisions[d].proofRoot));
  }

  lemma WithRequestGrows(w: Workspace, call: Call, c: Id, resource: Resource)
    requires c in w.cases && call.carried.Reservation? && Keyed(w.artifacts)
    requires RequestKey(RequestId(call.actor.actorId, call.key)) !in w.artifacts
    ensures Grows(w.artifacts, WithRequest(w, call, c, resource).artifacts)
  {
    var id := RequestId(call.actor.actorId, call.key);
    var source := call.carried.spec.sourceId;
    var after := WithRequest(w, call, c, resource).artifacts;
    var request := after[RequestKey(id)];
    PutGrows(w.artifacts, RequestKey(id), request);
    var first := w.artifacts[RequestKey(id) := request];
    if HeadKey(c, source) in first {
      assert KeyedAt(HeadKey(c, source), first[HeadKey(c, source)]);
    }
    PutGrows(first, HeadKey(c, source), after[HeadKey(c, source)]);
    GrowsThrough(w.artifacts, first, after);
  }

  lemma ReserveGrows(w: Workspace, call: Call, c: Id, resource: Resource, force: bool)
    requires ReserveChange(w, call, c, resource, force).Ok? && Keyed(w.artifacts)
    requires RequestKey(RequestId(call.actor.actorId, call.key)) !in w.artifacts
    ensures Grows(w.artifacts, ReserveChange(w, call, c, resource, force).value.state.artifacts)
  {
    var source := call.carried.spec.sourceId;
    RememberGrows(w, call.env.desk, c, {source});
    var noted := Remember(w, call.env.desk, c, {source}).value;
    RememberFrame(w, call.env.desk, c, {source});
    WithRequestGrows(noted, call, c, resource);
    ReserveEither(noted, call, c, resource, force);
    var s := ReserveChange(w, call, c, resource, force).value.state;
    if s != noted {
      GrowsThrough(w.artifacts, noted.artifacts, s.artifacts);
    }
  }

  lemma ReserveEither(w: Workspace, call: Call, c: Id, resource: Resource, force: bool)
    requires c in w.cases && call.carried.Reservation? && call.env.desk.Some? && Reserve(w, call, c, resource, force).Ok?
    ensures var changed := Reserve(w, call, c, resource, force).value;
      || (changed.outcome.CacheHit? && changed.state == w)
      || (changed.outcome == Reserved(RequestId(call.actor.actorId, call.key))
          && changed.state == WithRequest(w, call, c, resource)
          && |Requests(w.artifacts, c, call.carried.spec.sourceId)| < call.carried.spec.maxAttempts)
  {
  }

  lemma FinishGrows(w: Workspace, call: Call, c: Id, id: RequestId, fetched: FetchResult)
    requires FinishChange(w, call, c, id, fetched).Ok? && Keyed(w.artifacts) && ReceiptKey(call.env.newId) !in w.artifacts
    ensures Grows(w.artifacts, FinishChange(w, call, c, id, fetched).value.state.artifacts)
  {
    var after := FinishChange(w, call, c, id, fetched).value.state.artifacts;
    var source := call.carried.spec.sourceId;
    var receipt := StoredReceipt(call, c, fetched);
    assert KeyedAt(RequestKey(id), w.artifacts[RequestKey(id)]);
    var first := w.artifacts[RequestKey(id) := after[RequestKey(id)]];
    PutGrows(w.artifacts, RequestKey(id), after[RequestKey(id)]);
    var second := WithReceipt(first, receipt);
    if receipt.Some? {
      PutGrows(first, ReceiptKey(call.env.newId), ReceiptArtifact(receipt.value, receipt.value));
      GrowsThrough(w.artifacts, first, second);
    }
    if Leads(w, c, source, id) {
      assert KeyedAt(HeadKey(c, source), second[HeadKey(c, source)]);
      PutGrows(second, HeadKey(c, source), after[HeadKey(c, source)]);
      GrowsThrough(w.artifacts, second, after);
    }
  }

  lemma SelfGrows(a: map<Key, Artifact>)
    requires Keyed(a)
    ensures Grows(a, a) && SameEvidence(a, a)
  {
  }

  predicate Acquires(command: Command) {
    command.ReserveSource? || command.FinishSource?
  }

  /** Every command but a reservation and its completion leaves the acquisition protocol's artifacts alone. */
  lemma OrdinaryGrows(w: Workspace, call: Call)
    requires Safe(w.tasks, w.cases) && Keyed(w.artifacts) && FreshCall(w, call) && Change(w, call).Ok?
    requires !Acquires(call.command)
    ensures var s := Change(w, call).value.state;
      Grows(w.artifacts, s.artifacts) && SameEvidence(w.artifacts, s.artifacts)
  {
    SelfGrows(w.artifacts);
    if Raises(call.command) {
      RaisingGrows(w, call);
    } else {
      match call.command
      case RegisterTask(intent, dependsOn) => RegisterGrows(w, call, intent, dependsOn);
      case Evaluate(t) => EvaluateGrows(w, call, t, false);
      case Reconsider(t) => EvaluateGrows(w, call, t, true);
      case Resolve(_, _, _, _) => ResolvingGrows(w, call);
      case Investigate(c) => InvestigateGrows(w, call, c);
      case PrepareReview(t, d) => PrepareGrows(w, call, t, d);
      case HandoffReport(c, reportId, reviewerId) => HandoffFrame(w, call, c, reportId, reviewerId);
      case AcceptHandoff(h) => AcceptFrame(w, call, h);
      case _ =>
    }
  }

  // A new idempotency key makes a new request.
  lemma NewRequestKey(w: Workspace, call: Call)
    requires RequestsKnown(w) && KeyOf(call) !in w.completed
    ensures RequestKey(RequestId(call.actor.actorId, call.key)) !in w.artifacts
  {
  }

  lemma ReservingGrows(w: Workspace, call: Call)
    requires call.command.ReserveSource? && Change(w, call).Ok? && Keyed(w.artifacts)
    requires RequestKey(RequestId(call.actor.actorId, call.key)) !in w.artifacts
    ensures Grows(w.artifacts, Change(w, call).value.state.artifacts)
  {
    var command := call.command;
    assert Change(w, call) == ReserveChange(w, call, command.caseId, command.resource, command.forceRefresh);
    ReserveGrows(w, call, command.caseId, command.resource, command.forceRefresh);
  }

  lemma FinishingGrows(w: Workspace, call: Call)
    requires call.command.FinishSource? && Change(w, call).Ok? && Keyed(w.artifacts)
    requires ReceiptKey(call.env.newId) !in w.artifacts
    ensures Grows(w.artifacts, Change(w, call).value.state.artifacts)
  {
    var command := call.command;
    assert Change(w, call) == FinishChange(w, call, command.caseId, command.requestId, command.fetched);
    FinishGrows(w, call, command.caseId, command.requestId, command.fetched);
  }

  /** Obligations only grow: whatever the command and the configuration, no case owes its sources less afterwards. */
  lemma ChangeGrows(w: Workspace, call: Call)
    requires Safe(w.tasks, w.cases) && Keyed(w.artifacts) && FreshCall(w, call) && Change(w, call).Ok?
    requires RequestsKnown(w) && KeyOf(call) !in w.completed
    ensures Grows(w.artifacts, Change(w, call).value.state.artifacts)
  {
    if call.command.ReserveSource? {
      NewRequestKey(w, call);
      ReservingGrows(w, call);
    } else if call.command.FinishSource? {
      FinishingGrows(w, call);
    } else {
      OrdinaryGrows(w, call);
    }
  }
}
