/** What reserving and completing a read do, field by field. */
module AcquisitionLaws {
  import opened Common
  import opened CaseworkModels
  import opened SourceState
  import opened EvidenceDesk
  import opened Commands
  import opened Envelope
  import opened Safety
  import opened ArtifactGrowth
  import opened ReportStability
  import opened CommandLaws

  // ----- Reserving -----

  // The evidence of the instant holds an accepted receipt of the source, and it is of the requested resource.
  ghost predicate Holds(w: Workspace, call: Call, c: Id, resource: Resource, r: Receipt)
    requires c in w.cases && call.carried.Reservation? && call.env.desk.Some?
  {
    var source, receipts := call.carried.spec.sourceId, CurrentReceipts(w, c, call.env.at, call.env.desk.value.specs);
    receipts.Ok? && source in receipts.value.accepted && receipts.value.accepted[source] == r && r.resource == resource
  }

  // A usable receipt of the requested resource is there, and was not asked to be refreshed.
  ghost predicate Hits(w: Workspace, call: Call, c: Id, resource: Resource, force: bool)
    requires c in w.cases && call.carried.Reservation? && call.env.desk.Some?
  {
    !force && exists r :: Holds(w, call, c, resource, r)
  }

  // The requests a case has spent on a source.
  ghost predicate Spent(artifacts: map<Key, Artifact>, c: Id, source: Id, spent: set<Key>) {
    forall k :: k in spent <==>
      k in artifacts && artifacts[k].RequestArtifact? && artifacts[k].request.caseId == c && artifacts[k].request.sourceId == source
  }

  // The reservation may be looked at: the case is visible, open and as it was seen, and its policy can be noted.
  ghost predicate Reservable(w: Workspace, call: Call, c: Id) {
    && Shows(w, call.actor, c) && call.carried.Reservation? && call.env.desk.Some?
    && w.cases[c].status == Open && w.cases[c].version == call.carried.caseVersion
    && PolicyNotable(w, call, c, w.cases[c].scope) && EvidenceHeads(w, c).Ok?
  }

  // Noting the policy leaves the evidence alone.
  lemma NotedEvidence(w: Workspace, call: Call, c: Id, source: Id)
    requires c in w.cases && call.env.desk.Some? && Keyed(w.artifacts) && Remember(w, call.env.desk, c, {source}).Ok?
    ensures var noted := Remember(w, call.env.desk, c, {source}).value;
      && noted == w.(artifacts := noted.artifacts)
      && (forall k | k != GuardKey(c) :: (k in noted.artifacts <==> k in w.artifacts)
                                         && (k in w.artifacts ==> noted.artifacts[k] == w.artifacts[k]))
      && CurrentReceipts(noted, c, call.env.at, call.env.desk.value.specs) == CurrentReceipts(w, c, call.env.at, call.env.desk.value.specs)
      && Requests(noted.artifacts, c, source) == Requests(w.artifacts, c, source)
  {
    var noted := Remember(w, call.env.desk, c, {source}).value;
    RememberFrame(w, call.env.desk, c, {source});
    RememberGrows(w, call.env.desk, c, {source});
    ReceiptsSame(w, noted, c, call.env.at, call.env.desk.value.specs);
    assert GuardKey(c) in noted.artifacts ==> KeyedAt(GuardKey(c), noted.artifacts[GuardKey(c)]);
    assert GuardKey(c) in w.artifacts ==> KeyedAt(GuardKey(c), w.artifacts[GuardKey(c)]);
    assert Requests(noted.artifacts, c, source) == Requests(w.artifacts, c, source);
  }

  lemma SpentAre(w: Workspace, c: Id, source: Id, spent: set<Key>)
    requires Spent(w.artifacts, c, source, spent)
    ensures Requests(w.artifacts, c, source) == spent
  {
  }

  lemma ReserveSplits(w: Workspace, call: Call, c: Id, resource: Resource, force: bool)
    requires Keyed(w.artifacts) && Reservable(w, call, c)
    ensures var source := call.carried.spec.sourceId;
      && Remember(w, call.env.desk, c, {source}).Ok?
      && ReserveChange(w, call, c, resource, force) ==
           Reserve(Remember(w, call.env.desk, c, {source}).value, call, c, resource, force)
      && (Hits(w, call, c, resource, force) <==>
            !force && Cached(CurrentReceipts(w, c, call.env.at, call.env.desk.value.specs).value, source, resource))
  {
    var source, receipts := call.carried.spec.sourceId, CurrentReceipts(w, c, call.env.at, call.env.desk.value.specs);
    if !force && Cached(receipts.value, source, resource) {
      assert Holds(w, call, c, resource, receipts.value.accepted[source]);
    }
  }

  lemma ReserveRefused(w: Workspace, call: Call, c: Id, resource: Resource, force: bool)
    requires !Reservable(w, call, c) && Keyed(w.artifacts)
    ensures ReserveChange(w, call, c, resource, force).Err?
    ensures ReserveChange(w, call, c, resource, force) != Err(SourceReadBudgetExhausted)
  {
    if Shows(w, call.actor, c) && call.carried.Reservation? && call.env.desk.Some? {
      var source := call.carried.spec.sourceId;
      if Remember(w, call.env.desk, c, {source}).Ok? {
        NotedEvidence(w, call, c, source);
      }
    }
  }

  /**
   A reservation is granted exactly if the case is open as it was seen and either a usable receipt of the requested
   resource is at hand and no refresh was asked for, or budget is left; for budget it is refused exactly if neither is.
   */
  lemma ReserveIff(w: Workspace, call: Call, c: Id, resource: Resource, force: bool, spent: set<Key>)
    requires Keyed(w.artifacts) && call.carried.Reservation? && Spent(w.artifacts, c, call.carried.spec.sourceId, spent)
    ensures var changed := ReserveChange(w, call, c, resource, force);
      && (changed.Ok? <==>
            Reservable(w, call, c) && (Hits(w, call, c, resource, force) || |spent| < call.carried.spec.maxAttempts))
      && (changed == Err(SourceReadBudgetExhausted) <==>
            Reservable(w, call, c) && !Hits(w, call, c, resource, force) && |spent| >= call.carried.spec.maxAttempts)
  {
    var source := call.carried.spec.sourceId;
    SpentAre(w, c, source, spent);
    if Reservable(w, call, c) {
      ReserveSplits(w, call, c, resource, force);
      NotedEvidence(w, call, c, source);
    } else {
      ReserveRefused(w, call, c, resource, force);
    }
  }

  // A new pending request for exactly the resource, which becomes the head of its source.
  ghost predicate NewlyReserved(w: Workspace, call: Call, c: Id, resource: Resource, s: Workspace)
    requires c in w.cases && call.carried.Reservation?
  {
    var id, spec := RequestId(call.actor.actorId, call.key), call.carried.spec;
    && RequestKey(id) in s.artifacts && HeadKey(c, spec.sourceId) in s.artifacts
    && s.artifacts[RequestKey(id)] == RequestArtifact(
         SourceRequest(id, c, w.cases[c].version, spec.sourceId, spec, resource, Pending, call.env.at,
                       call.actor.actorId, None, None, None))
    && s.artifacts[HeadKey(c, spec.sourceId)] ==
         HeadArtifact(SourceHead(c, w.cases[c].version, spec.sourceId, id, Pending, None))
    && forall k | k != RequestKey(id) && k != HeadKey(c, spec.sourceId) && k != GuardKey(c) ::
         (k in s.artifacts <==> k in w.artifacts) && (k in w.artifacts ==> s.artifacts[k] == w.artifacts[k])
  }

  /**
   What a granted reservation is: a cache hit exactly if a usable receipt of the requested resource is at hand and no
   refresh was asked for, and then of that receipt; otherwise a new pending request for that resource at the head.
   */
  lemma ReserveSays(w: Workspace, call: Call, c: Id, resource: Resource, force: bool)
    requires Keyed(w.artifacts) && ReserveChange(w, call, c, resource, force).Ok?
    ensures Reservable(w, call, c)
    ensures var changed, id := ReserveChange(w, call, c, resource, force).value, RequestId(call.actor.actorId, call.key);
      && (changed.outcome.CacheHit? <==> Hits(w, call, c, resource, force))
      && (changed.outcome.CacheHit? ==>
            && changed.outcome.requestId == id && Holds(w, call, c, resource, changed.outcome.receipt)
            && forall k | k != GuardKey(c) :: (k in changed.state.artifacts <==> k in w.artifacts)
                 && (k in w.artifacts ==> changed.state.artifacts[k] == w.artifacts[k]))
      && (!changed.outcome.CacheHit? ==>
            changed.outcome == Reserved(id) && NewlyReserved(w, call, c, resource, changed.state))
  {
    if !Reservable(w, call, c) {
      ReserveRefused(w, call, c, resource, force);
    }
    var source := call.carried.spec.sourceId;
    ReserveSplits(w, call, c, resource, force);
    NotedEvidence(w, call, c, source);
    ReserveOutcome(w, Remember(w, call.env.desk, c, {source}).value, call, c, resource, force);
  }

  lemma ReserveOutcome(w: Workspace, noted: Workspace, call: Call, c: Id, resource: Resource, force: bool)
    requires c in w.cases && noted == w.(artifacts := noted.artifacts) && call.carried.Reservation? && call.env.desk.Some?
    requires forall k | k != GuardKey(c) :: (k in noted.artifacts <==> k in w.artifacts)
                                            && (k in w.artifacts ==> noted.artifacts[k] == w.artifacts[k])
    requires CurrentReceipts(noted, c, call.env.at, call.env.desk.value.specs) == CurrentReceipts(w, c, call.env.at, call.env.desk.value.specs)
    requires Reserve(noted, call, c, resource, force).Ok?
    ensures var changed, id := Reserve(noted, call, c, resource, force).value, RequestId(call.actor.actorId, call.key);
      && CurrentReceipts(w, c, call.env.at, call.env.desk.value.specs).Ok?
      && (changed.outcome.CacheHit? <==>
            !force && Cached(CurrentReceipts(w, c, call.env.at, call.env.desk.value.specs).value, call.carried.spec.sourceId, resource))
      && (changed.outcome.CacheHit? ==>
            changed.outcome.requestId == id && Holds(w, call, c, resource, changed.outcome.receipt) && changed.state == noted)
      && (!changed.outcome.CacheHit? ==>
            changed.outcome == Reserved(id) && NewlyReserved(w, call, c, resource, changed.state))
  {
  }

  /** The command is the reservation of its case and resource. */
  lemma ReserveIsChange(w: Workspace, call: Call, c: Id, source: Id, resource: Resource, force: bool)
    requires call.command == ReserveSource(c, source, resource, force)
    ensures Change(w, call) == ReserveChange(w, call, c, resource, force)
  {
  }

  /** So of every accepted reservation: answered from the cache exactly if it hits, and otherwise newly reserved. */
  lemma CommittedReservation(w: Workspace, call: Call, c: Id, source: Id, resource: Resource, force: bool)
    requires Keyed(w.artifacts) && call.command == ReserveSource(c, source, resource, force) && Accepted(w, call)
    ensures Reservable(w, call, c) && Change(w, call).Ok?
    ensures var answer := Change(w, call).value.outcome;
      && (answer.CacheHit? <==> Hits(w, call, c, resource, force))
      && (answer.CacheHit? ==> Holds(w, call, c, resource, answer.receipt))
      && (!answer.CacheHit? ==> NewlyReserved(w, call, c, resource, Next(w, call)))
  {
    RecordSays(w, call);
    ReserveIsChange(w, call, c, source, resource, force);
    ReserveSays(w, call, c, resource, force);
  }

  /** The command is the completion of its request with its result. */
  lemma FinishIsChange(w: Workspace, call: Call, c: Id, id: RequestId, fetched: FetchResult)
    requires call.command == FinishSource(c, id, fetched)
    ensures Change(w, call) == FinishChange(w, call, c, id, fetched)
  {
  }

  // ----- Completing -----

  // The request is stored and waits for its read.
  ghost predicate Awaits(w: Workspace, id: RequestId, r: SourceRequest) {
    RequestKey(id) in w.artifacts && w.artifacts[RequestKey(id)] == RequestArtifact(r) && r.state == Pending
  }

  // The head of the source is stored and names the request.
  ghost predicate HeadNames(w: Workspace, c: Id, source: Id, id: RequestId, h: SourceHead) {
    HeadKey(c, source) in w.artifacts && w.artifacts[HeadKey(c, source)] == HeadArtifact(h) && h.requestId == id
  }

  // A completed read is stale if the case moved on or another request leads, and otherwise as its result says.
  ghost predicate EndsAs(w: Workspace, call: Call, c: Id, id: RequestId, fetched: FetchResult, state: FetchState)
    requires c in w.cases && call.carried.Fetch?
  {
    var current := w.cases[c].status == Open && w.cases[c].version == call.carried.caseVersion
                   && exists h :: HeadNames(w, c, call.carried.spec.sourceId, id, h);
    state == if !current then Stale else if fetched.Failed? then FetchFailed else Observed
  }

  /** A read is completed exactly if its request waits for it and its case is visible. */
  lemma FinishIff(w: Workspace, call: Call, c: Id, id: RequestId, fetched: FetchResult)
    ensures FinishChange(w, call, c, id, fetched).Ok? <==>
      call.carried.Fetch? && (exists r :: Awaits(w, id, r)) && Shows(w, call.actor, c)
  {
    if IsPending(w, id) {
      assert Awaits(w, id, w.artifacts[RequestKey(id)].request);
    }
  }

  // The receipt of a read that was observed: bound to the reserved case, source and resource, and valid for its time to live.
  predicate ReceiptOfRead(r: Receipt, call: Call, c: Id, observation: Observation) {
    && call.carried.Fetch?
    && r.receiptId == call.env.newId && r.caseId == c && r.caseVersion == call.carried.caseVersion
    && r.spec == call.carried.spec && r.sourceId == r.spec.sourceId && r.group == r.spec.group
    && r.resource == call.carried.resource && r.observation == observation
    && r.fetchedAt == call.carried.finished && r.expiresAt == call.carried.finished + r.spec.ttl * 1_000_000
  }

  /**
   A completed read stores how it ended with its request, keeps a receipt exactly if something was observed, and moves
   the head exactly if its request still leads.
   */
  lemma FinishSays(w: Workspace, call: Call, c: Id, id: RequestId, fetched: FetchResult, r: SourceRequest)
    requires FinishChange(w, call, c, id, fetched).Ok? && Awaits(w, id, r)
    ensures c in w.cases && call.carried.Fetch?
    ensures var changed := FinishChange(w, call, c, id, fetched).value;
      && changed.outcome.Finished? && changed.outcome.requestId == id
      && EndsAs(w, call, c, id, fetched, changed.outcome.state)
      && (changed.outcome.stored.Some? <==> fetched.Fetched?)
      && (fetched.Fetched? ==> ReceiptOfRead(changed.outcome.stored.value, call, c, fetched.observation))
      && Completes(w, changed.state, call, c, id, fetched, r, changed.outcome.state, changed.outcome.stored)
  {
    if h :| HeadNames(w, c, call.carried.spec.sourceId, id, h) {
      assert Leads(w, c, call.carried.spec.sourceId, id);
    }
    if Leads(w, c, call.carried.spec.sourceId, id) {
      assert HeadNames(w, c, call.carried.spec.sourceId, id, HeadAt(w, c, call.carried.spec.sourceId).value);
    }
  }

  ghost predicate Completes(w: Workspace, s: Workspace, call: Call, c: Id, id: RequestId, fetched: FetchResult,
                            r: SourceRequest, state: FetchState, stored: Option<Receipt>)
    requires c in w.cases && call.carried.Fetch?
  {
    var source := call.carried.spec.sourceId;
    var receiptId := if stored.Some? then Some(stored.value.receiptId) else None;
    && s == w.(artifacts := s.artifacts)
    && RequestKey(id) in s.artifacts
    && s.artifacts[RequestKey(id)] == RequestArtifact(r.(
         state := state, finishedAt := Some(call.carried.finished), receiptId := receiptId,
         error := if fetched.Failed? then Some(fetched.code) else None))
    && (stored.Some? ==>
          ReceiptKey(stored.value.receiptId) in s.artifacts
          && s.artifacts[ReceiptKey(stored.value.receiptId)] == ReceiptArtifact(stored.value, stored.value))
    && (forall h | HeadNames(w, c, source, id, h) ::
          HeadKey(c, source) in s.artifacts
          && s.artifacts[HeadKey(c, source)] ==
               HeadArtifact(h.(state := state, receiptId := if receiptId.Some? then receiptId else h.receiptId)))
    && forall k | k != RequestKey(id) && (stored.Some? ==> k != ReceiptKey(stored.value.receiptId))
                  && (k == HeadKey(c, source) ==> !exists h :: HeadNames(w, c, source, id, h)) ::
         (k in s.artifacts <==> k in w.artifacts) && (k in w.artifacts ==> s.artifacts[k] == w.artifacts[k])
  }
}
