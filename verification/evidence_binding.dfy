/** What the stored heads, requests and receipts of the acquisition protocol owe each other. */
module EvidenceBinding {
  import opened Common
  import opened CaseworkModels
  import opened SourceState
  import opened Commands
  import opened ArtifactGrowth

  // The receipt a finished request names: bound to the request, unaltered, and timed by its read.
  ghost predicate BoundTo(a: Artifact, r: SourceRequest, now: Time) {
    && a.ReceiptArtifact? && a.root == a.receipt
    && a.receipt.caseId == r.caseId && a.receipt.caseVersion == r.caseVersion
    && a.receipt.sourceId == r.sourceId && a.receipt.spec == r.spec && a.receipt.group == r.spec.group
    && a.receipt.resource == r.resource && r.receiptId == Some(a.receipt.receiptId)
    && a.receipt.fetchedAt <= now && a.receipt.expiresAt == a.receipt.fetchedAt + r.spec.ttl * SECOND
  }

  ghost predicate RequestSound(artifacts: map<Key, Artifact>, r: SourceRequest, now: Time) {
    && r.spec.sourceId == r.sourceId && r.spec.ttl > 0
    && (r.state == Pending ==> r.receiptId.None?)
    && (r.state == Observed ==> r.receiptId.Some?)
    && (r.receiptId.Some? ==>
          ReceiptKey(r.receiptId.value) in artifacts && BoundTo(artifacts[ReceiptKey(r.receiptId.value)], r, now))
  }

  // A head repeats the state of the request it names.
  ghost predicate HeadSound(artifacts: map<Key, Artifact>, h: SourceHead) {
    && RequestKey(h.requestId) in artifacts && artifacts[RequestKey(h.requestId)].RequestArtifact?
    && var r := artifacts[RequestKey(h.requestId)].request;
    && r.caseId == h.caseId && r.sourceId == h.sourceId && r.caseVersion == h.caseVersion
    && r.state == h.state && r.receiptId == h.receiptId
  }

  ghost predicate RequestsSound(artifacts: map<Key, Artifact>, now: Time) {
    forall id | RequestKey(id) in artifacts ::
      artifacts[RequestKey(id)].RequestArtifact? && RequestSound(artifacts, artifacts[RequestKey(id)].request, now)
  }

  ghost predicate HeadsSound(artifacts: map<Key, Artifact>) {
    forall c: Id, s: Id | HeadKey(c, s) in artifacts ::
      artifacts[HeadKey(c, s)].HeadArtifact? && HeadSound(artifacts, artifacts[HeadKey(c, s)].head)
  }

  ghost predicate EvidenceSound(artifacts: map<Key, Artifact>, now: Time) {
    Keyed(artifacts) && RequestsSound(artifacts, now) && HeadsSound(artifacts)
  }

  // ----- What is kept -----

  lemma RequestSoundKept(a: map<Key, Artifact>, b: map<Key, Artifact>, r: SourceRequest, now: Time, later: Time)
    requires RequestSound(a, r, now) && now <= later
    requires r.receiptId.Some? ==>
      ReceiptKey(r.receiptId.value) in b && b[ReceiptKey(r.receiptId.value)] == a[ReceiptKey(r.receiptId.value)]
    ensures RequestSound(b, r, later)
  {
  }

  lemma SameEvidenceSound(a: map<Key, Artifact>, b: map<Key, Artifact>, now: Time, later: Time)
    requires EvidenceSound(a, now) && SameEvidence(a, b) && Keyed(b) && now <= later
    ensures EvidenceSound(b, later)
  {
    forall id | RequestKey(id) in b
      ensures b[RequestKey(id)].RequestArtifact? && RequestSound(b, b[RequestKey(id)].request, later)
    {
      RequestSoundKept(a, b, a[RequestKey(id)].request, now, later);
    }
    forall c: Id, s: Id | HeadKey(c, s) in b
      ensures b[HeadKey(c, s)].HeadArtifact? && HeadSound(b, b[HeadKey(c, s)].head)
    {
      assert HeadSound(a, a[HeadKey(c, s)].head);
    }
  }

  // ----- A reservation -----

  ghost predicate ReservedAs(a: map<Key, Artifact>, b: map<Key, Artifact>, r: SourceRequest) {
    && b == a[RequestKey(r.requestId) := RequestArtifact(r)]
             [HeadKey(r.caseId, r.sourceId) :=
               HeadArtifact(SourceHead(r.caseId, r.caseVersion, r.sourceId, r.requestId, Pending, None))]
    && r.state == Pending && r.receiptId == None && r.spec.sourceId == r.sourceId && r.spec.ttl > 0
    && RequestKey(r.requestId) !in a
  }

  lemma ReservedSound(a: map<Key, Artifact>, b: map<Key, Artifact>, r: SourceRequest, now: Time)
    requires EvidenceSound(a, now) && ReservedAs(a, b, r) && Keyed(b)
    ensures EvidenceSound(b, now)
  {
    forall id | RequestKey(id) in b
      ensures b[RequestKey(id)].RequestArtifact? && RequestSound(b, b[RequestKey(id)].request, now)
    {
      if id != r.requestId {
        RequestSoundKept(a, b, a[RequestKey(id)].request, now, now);
      }
    }
    forall c: Id, s: Id | HeadKey(c, s) in b
      ensures b[HeadKey(c, s)].HeadArtifact? && HeadSound(b, b[HeadKey(c, s)].head)
    {
      if (c, s) != (r.caseId, r.sourceId) {
        assert HeadSound(a, a[HeadKey(c, s)].head);
      }
    }
  }

  lemma WithRequestReserves(w: Workspace, call: Call, c: Id, resource: Resource)
    requires c in w.cases && call.carried.Reservation? && call.carried.spec.ttl > 0
    requires RequestKey(RequestId(call.actor.actorId, call.key)) !in w.artifacts
    ensures var id := RequestId(call.actor.actorId, call.key);
      var r := SourceRequest(id, c, w.cases[c].version, call.carried.spec.sourceId, call.carried.spec, resource,
                             Pending, call.env.at, call.actor.actorId, None, None, None);
      ReservedAs(w.artifacts, WithRequest(w, call, c, resource).artifacts, r)
  {
  }

  // ----- A completed read -----

  // What a completion stores: the request's end, its receipt if any, and the head if the request leads.
  ghost predicate FinishedAs(a: map<Key, Artifact>, b: map<Key, Artifact>, r: SourceRequest, r': SourceRequest) {
    && RequestKey(r.requestId) in a && a[RequestKey(r.requestId)] == RequestArtifact(r)
    && RequestKey(r.requestId) in b && b[RequestKey(r.requestId)] == RequestArtifact(r')
    && r' == r.(state := r'.state, finishedAt := r'.finishedAt, error := r'.error, receiptId := r'.receiptId)
    && (r'.receiptId.Some? ==> ReceiptKey(r'.receiptId.value) !in a)
    && (forall k | EvidenceKey(k) && k != RequestKey(r.requestId) && k != HeadKey(r.caseId, r.sourceId) ::
          if r'.receiptId.Some? && k == ReceiptKey(r'.receiptId.value) then k in b
          else (k in a <==> k in b) && (k in a ==> b[k] == a[k]))
    && var hk := HeadKey(r.caseId, r.sourceId);
    && (hk in a <==> hk in b)
    && (hk in a && a[hk].HeadArtifact? ==>
          b[hk] == if a[hk].head.requestId == r.requestId
                   then HeadArtifact(a[hk].head.(state := r'.state, receiptId := r'.receiptId)) else a[hk])
  }

  lemma FinishedSound(a: map<Key, Artifact>, b: map<Key, Artifact>, r: SourceRequest, r': SourceRequest, now: Time)
    requires EvidenceSound(a, now) && FinishedAs(a, b, r, r') && RequestSound(b, r', now) && Keyed(b)
    ensures EvidenceSound(b, now)
  {
    forall id | RequestKey(id) in b
      ensures b[RequestKey(id)].RequestArtifact? && RequestSound(b, b[RequestKey(id)].request, now)
    {
      if id != r.requestId {
        RequestSoundKept(a, b, a[RequestKey(id)].request, now, now);
      }
    }
    forall c: Id, s: Id | HeadKey(c, s) in b
      ensures b[HeadKey(c, s)].HeadArtifact? && HeadSound(b, b[HeadKey(c, s)].head)
    {
      assert HeadSound(a, a[HeadKey(c, s)].head);
      assert KeyedAt(HeadKey(c, s), a[HeadKey(c, s)]);
    }
  }

  // A read that belongs to its stored, pending request.
  ghost predicate OwnRead(artifacts: map<Key, Artifact>, f: Carried, c: Id, id: RequestId) {
    && f.Fetch? && RequestKey(id) in artifacts && artifacts[RequestKey(id)].RequestArtifact?
    && var r := artifacts[RequestKey(id)].request;
    && r.requestId == id && r.state == Pending && r.caseId == c && r.caseVersion == f.caseVersion
    && r.sourceId == f.spec.sourceId && r.spec == f.spec && r.resource == f.resource
  }

  lemma FinishFinishes(w: Workspace, call: Call, c: Id, id: RequestId, fetched: FetchResult, now: Time)
    returns (r: SourceRequest, r': SourceRequest)
    requires EvidenceSound(w.artifacts, now) && OwnRead(w.artifacts, call.carried, c, id)
    requires FinishChange(w, call, c, id, fetched).Ok?
    requires ReceiptKey(call.env.newId) !in w.artifacts && call.carried.finished <= now
    ensures r == w.artifacts[RequestKey(id)].request && r.requestId == id
    ensures FinishedAs(w.artifacts, FinishChange(w, call, c, id, fetched).value.state.artifacts, r, r')
    ensures RequestSound(FinishChange(w, call, c, id, fetched).value.state.artifacts, r', now)
    ensures c in w.cases && r'.state == FinishedState(w, call, c, id, fetched)
    ensures r'.receiptId == if fetched.Fetched? then Some(call.env.newId) else None
    ensures fetched.Fetched? ==>
      var b := FinishChange(w, call, c, id, fetched).value.state.artifacts;
      var receipt := ReceiptFor(call, c, fetched.observation);
      ReceiptKey(call.env.newId) in b && b[ReceiptKey(call.env.newId)] == ReceiptArtifact(receipt, receipt)
  {
    r := w.artifacts[RequestKey(id)].request;
    var source := call.carried.spec.sourceId;
    var b := FinishChange(w, call, c, id, fetched).value.state.artifacts;
    r' := b[RequestKey(id)].request;
    if HeadKey(c, source) in w.artifacts && Leads(w, c, source, id) {
      assert HeadSound(w.artifacts, w.artifacts[HeadKey(c, source)].head);
    }
  }

  // ----- What the invariant makes of the evidence -----

  /** The duplicate-head error cannot occur: the head of a source is the one under its own key. */
  lemma HeadsUnambiguous(w: Workspace, c: Id)
    requires c in w.cases && Keyed(w.artifacts)
    ensures !Ambiguous(w, c) && EvidenceHeads(w, c).Ok?
    ensures forall s :: s in EvidenceHeads(w, c).value <==>
      HeadKey(c, s) in w.artifacts && IsCurrentHead(w.artifacts[HeadKey(c, s)], c, w.cases[c].version)
    ensures forall s | s in EvidenceHeads(w, c).value :: EvidenceHeads(w, c).value[s] == w.artifacts[HeadKey(c, s)].head
  {
    forall k | k in HeadKeys(w, c)
      ensures k == HeadKey(c, w.artifacts[k].head.sourceId)
    {
      assert KeyedAt(k, w.artifacts[k]);
    }
    forall s | HeadKey(c, s) in w.artifacts && IsCurrentHead(w.artifacts[HeadKey(c, s)], c, w.cases[c].version)
      ensures s in HeadSources(w, c)
    {
      assert KeyedAt(HeadKey(c, s), w.artifacts[HeadKey(c, s)]);
      assert HeadKey(c, s) in HeadKeys(w, c);
    }
  }

  /** Why a receipt is refused, once only three reasons are left. */
  ghost function PlainVerdict(w: Workspace, c: Id, s: Id, h: SourceHead, at: Time,
                              specs: map<Id, SourceSpec>): Option<RejectReason>
    requires c in w.cases
  {
    if h.state != Observed || h.receiptId.None? || ReceiptKey(h.receiptId.value) !in w.artifacts
       || !w.artifacts[ReceiptKey(h.receiptId.value)].ReceiptArtifact? then Some(NotObserved)
    else
      var receipt := w.artifacts[ReceiptKey(h.receiptId.value)].receipt;
      if !SpecCurrent(w, c, s, receipt, specs) then Some(PolicyChanged)
      else if receipt.expiresAt <= at then Some(Expired)
      else None
  }

  /**
   With sound evidence and a clock that has not gone back, a current head is judged NOT_OBSERVED, POLICY_CHANGED,
   EXPIRED or accepted, exactly as its state, the present configuration and its receipt's expiry say, under any
   configuration; the binding, freshness and corruption verdicts are unreachable.
   */
  lemma JudgedPlainly(w: Workspace, c: Id, s: Id, now: Time, at: Time, specs: map<Id, SourceSpec>)
    requires c in w.cases && EvidenceSound(w.artifacts, now) && now <= at
    requires EvidenceHeads(w, c).Ok? && s in EvidenceHeads(w, c).value
    ensures var h := EvidenceHeads(w, c).value[s];
      && Judge(w, c, s, h, at, specs) == PlainVerdict(w, c, s, h, at, specs)
      && Judge(w, c, s, h, at, specs) in {None, Some(NotObserved), Some(PolicyChanged), Some(Expired)}
      && (h.state == Observed ==>
            h.receiptId.Some? && ReceiptKey(h.receiptId.value) in w.artifacts
            && w.artifacts[ReceiptKey(h.receiptId.value)].ReceiptArtifact?)
  {
    HeadsUnambiguous(w, c);
    var h := EvidenceHeads(w, c).value[s];
    assert KeyedAt(HeadKey(c, s), w.artifacts[HeadKey(c, s)]);
    assert HeadSound(w.artifacts, h);
    var r := w.artifacts[RequestKey(h.requestId)].request;
    assert RequestSound(w.artifacts, r, now);
    if h.state == Observed {
      assert BoundTo(w.artifacts[ReceiptKey(h.receiptId.value)], r, now);
    }
  }
}
