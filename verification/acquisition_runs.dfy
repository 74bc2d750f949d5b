/** What the acquisition protocol guarantees on every run, under any interleaving and any crashes. */
module AcquisitionRuns {
  import opened Common
  import opened CaseworkModels
  import opened SourceState
  import opened Commands
  import opened Envelope
  import opened Safety
  import opened ArtifactGrowth
  import opened Runs
  import opened EvidenceBinding
  import opened Acquisition

  // Step i is enabled in system i and leads to system i + 1.
  ghost predicate StepAt(ss: seq<System>, steps: seq<Action>, i: nat)
    requires i < |steps| && |ss| == |steps| + 1
  {
    Enabled(ss[i], steps[i]) && ss[i + 1] == After(ss[i], steps[i])
  }

  /** A run of the system: any enabled steps, in any order, from an empty workspace. */
  ghost predicate SystemRun(ss: seq<System>, steps: seq<Action>, tenantId: Id, start: Time) {
    && |ss| == |steps| + 1 && ss[0] == System(EmptyWorkspace(tenantId), start, map[], [], [])
    && forall i: nat | i < |steps| :: StepAt(ss, steps, i)
  }

  lemma InitiallySound(tenantId: Id, start: Time)
    ensures Sound(System(EmptyWorkspace(tenantId), start, map[], [], []))
  {
    EmptyInv(tenantId);
  }

  lemma {:induction false} RunSound(ss: seq<System>, steps: seq<Action>, tenantId: Id, start: Time, i: nat)
    requires SystemRun(ss, steps, tenantId, start) && i < |ss|
    ensures Sound(ss[i])
    decreases i
  {
    if i == 0 {
      InitiallySound(tenantId, start);
    } else {
      RunSound(ss, steps, tenantId, start, i - 1);
      assert StepAt(ss, steps, i - 1);
      StepSound(ss[i - 1], steps[i - 1]);
    }
  }

  lemma RunStep(ss: seq<System>, steps: seq<Action>, tenantId: Id, start: Time, i: nat)
    requires SystemRun(ss, steps, tenantId, start) && i < |steps|
    ensures Sound(ss[i]) && Enabled(ss[i], steps[i]) && ss[i + 1] == After(ss[i], steps[i])
  {
    RunSound(ss, steps, tenantId, start, i);
    assert StepAt(ss, steps, i);
  }

  // ----- The latest reservation wins -----

  /** At every point of a run, the head of each case and source names the most recently committed reservation. */
  lemma LatestReservationWins(ss: seq<System>, steps: seq<Action>, tenantId: Id, start: Time, i: nat, c: Id, s: Id)
    requires SystemRun(ss, steps, tenantId, start) && i < |ss|
    ensures HeadRequest(ss[i].w.artifacts, c, s) == LatestOf(ss[i].booked, c, s)
  {
    RunSound(ss, steps, tenantId, start, i);
  }

  /** A read that was overtaken leaves the head as it found it. */
  lemma OvertakenReadKeepsHead(s: System, i: nat, expected: nat, env: Env, c: Id, source: Id)
    requires Sound(s) && Enabled(s, FinishRead(i, expected, env))
    requires LatestOf(s.booked, c, source) != Some(RequestOf(s.collectors[i]))
    ensures var a, b := s.w.artifacts, After(s, FinishRead(i, expected, env)).w.artifacts;
      && (HeadKey(c, source) in b <==> HeadKey(c, source) in a)
      && (HeadKey(c, source) in a ==> b[HeadKey(c, source)] == a[HeadKey(c, source)])
  {
    var call := CompletionCall(s.collectors[i], expected, env);
    NextMeaning(s.w, call);
    assert HeadRequest(s.w.artifacts, c, source) == LatestOf(s.booked, c, source);
    if Accepted(s.w, call) {
      var r, r' := CompletionFinishes(s, i, expected, env);
      FinishedHead(s.w.artifacts, Next(s.w, call).artifacts, r, r', c, source);
    }
  }

  // ----- At most one fetch -----

  lemma StepFetches(s: System, step: Action)
    requires Enabled(s, step)
    ensures s.fetched <= After(s, step).fetched
    ensures step.FetchRead? ==> RequestOf(s.collectors[step.i]) in After(s, step).fetched
  {
  }

  lemma FetchesGrow(ss: seq<System>, steps: seq<Action>, tenantId: Id, start: Time, i: nat)
    requires SystemRun(ss, steps, tenantId, start) && i < |steps|
    ensures ss[i].fetched <= ss[i + 1].fetched
  {
    RunStep(ss, steps, tenantId, start, i);
    StepFetches(ss[i], steps[i]);
  }

  lemma {:induction false} FetchesStay(ss: seq<System>, steps: seq<Action>, tenantId: Id, start: Time, i: nat, j: nat)
    requires SystemRun(ss, steps, tenantId, start) && i <= j < |ss|
    ensures ss[i].fetched <= ss[j].fetched
    decreases j
  {
    if i < j {
      FetchesStay(ss, steps, tenantId, start, i, j - 1);
      FetchesGrow(ss, steps, tenantId, start, j - 1);
    }
  }

  // Step i makes the fetch of request id: it was reserved and is pending, it was not fetched before, and is from then on.
  ghost predicate FetchesAt(s: System, s': System, id: RequestId) {
    IsPending(s.w, id) && id !in s.fetched && id in s'.fetched
  }

  lemma FetchIsNew(s: System, step: Action)
    requires Sound(s) && Enabled(s, step) && step.FetchRead?
    ensures FetchesAt(s, After(s, step), RequestOf(s.collectors[step.i]))
  {
    assert CollectorSound(s.w, s.now, s.fetched, s.collectors[step.i]);
    StepFetches(s, step);
  }

  /** Every fetch follows the commit of its own reservation. */
  lemma FetchFollowsReservation(ss: seq<System>, steps: seq<Action>, tenantId: Id, start: Time, i: nat)
    requires SystemRun(ss, steps, tenantId, start) && i < |steps| && steps[i].FetchRead?
    ensures steps[i].i in ss[i].collectors
    ensures FetchesAt(ss[i], ss[i + 1], RequestOf(ss[i].collectors[steps[i].i]))
  {
    RunStep(ss, steps, tenantId, start, i);
    FetchIsNew(ss[i], steps[i]);
  }

  /** No idempotency key of an actor ever fetches twice, whatever is retried and whatever crashes. */
  lemma FetchedOnce(ss: seq<System>, steps: seq<Action>, tenantId: Id, start: Time, i: nat, j: nat)
    requires SystemRun(ss, steps, tenantId, start) && i < j < |steps| && steps[i].FetchRead? && steps[j].FetchRead?
    ensures steps[i].i in ss[i].collectors && steps[j].i in ss[j].collectors
    ensures RequestOf(ss[i].collectors[steps[i].i]) != RequestOf(ss[j].collectors[steps[j].i])
  {
    FetchFollowsReservation(ss, steps, tenantId, start, i);
    FetchFollowsReservation(ss, steps, tenantId, start, j);
    FetchesStay(ss, steps, tenantId, start, i + 1, j);
  }

  // ----- The budget -----

  // Every stored request was reserved by a collector that captured its source from a configuration.
  ghost predicate From(collectors: map<nat, Collector>, r: SourceRequest) {
    exists i :: i in collectors && RequestOf(collectors[i]) == r.requestId && collectors[i].spec == r.spec
  }

  ghost predicate Originated(artifacts: map<Key, Artifact>, collectors: map<nat, Collector>) {
    forall id | RequestKey(id) in artifacts && artifacts[RequestKey(id)].RequestArtifact? ::
      From(collectors, artifacts[RequestKey(id)].request)
  }

  // Collectors stay, with what they captured.
  ghost predicate CollectorsStay(a: map<nat, Collector>, b: map<nat, Collector>) {
    forall i | i in a :: i in b && b[i].(phase := Ended) == a[i].(phase := Ended)
  }

  lemma FromStays(a: map<nat, Collector>, b: map<nat, Collector>, r: SourceRequest, r': SourceRequest)
    requires From(a, r) && CollectorsStay(a, b) && r'.requestId == r.requestId && r'.spec == r.spec
    ensures From(b, r')
  {
    var i :| i in a && RequestOf(a[i]) == r.requestId && a[i].spec == r.spec;
    assert b[i].(phase := Ended) == a[i].(phase := Ended);
    assert RequestOf(b[i]) == r'.requestId && b[i].spec == r'.spec;
  }

  lemma OriginatedSame(a: map<Key, Artifact>, b: map<Key, Artifact>, cs: map<nat, Collector>, cs': map<nat, Collector>)
    requires Originated(a, cs) && SameEvidence(a, b) && CollectorsStay(cs, cs')
    ensures Originated(b, cs')
  {
    forall id | RequestKey(id) in b && b[RequestKey(id)].RequestArtifact?
      ensures From(cs', b[RequestKey(id)].request)
    {
      FromStays(cs, cs', a[RequestKey(id)].request, b[RequestKey(id)].request);
    }
  }

  lemma OriginatedReserved(a: map<Key, Artifact>, b: map<Key, Artifact>, r: SourceRequest, cs: map<nat, Collector>,
                           cs': map<nat, Collector>, i: nat)
    requires Originated(a, cs) && ReservedAs(a, b, r) && CollectorsStay(cs, cs') && i in cs' && BookedBy(r, cs'[i])
    ensures Originated(b, cs')
  {
    forall id | RequestKey(id) in b && b[RequestKey(id)].RequestArtifact?
      ensures From(cs', b[RequestKey(id)].request)
    {
      if id == r.requestId {
        assert RequestOf(cs'[i]) == r.requestId;
      } else {
        FromStays(cs, cs', a[RequestKey(id)].request, b[RequestKey(id)].request);
      }
    }
  }

  lemma OriginatedFinished(a: map<Key, Artifact>, b: map<Key, Artifact>, r: SourceRequest, r': SourceRequest,
                           cs: map<nat, Collector>, cs': map<nat, Collector>)
    requires Originated(a, cs) && FinishedAs(a, b, r, r') && CollectorsStay(cs, cs')
    ensures Originated(b, cs')
  {
    forall id | RequestKey(id) in b && b[RequestKey(id)].RequestArtifact?
      ensures From(cs', b[RequestKey(id)].request)
    {
      FromStays(cs, cs', a[RequestKey(id)].request, b[RequestKey(id)].request);
    }
  }

  // What one step does to the collectors: nothing, one begins, or one enters another phase.
  ghost predicate Moved(cs: map<nat, Collector>, cs': map<nat, Collector>, step: Action) {
    || cs' == cs
    || (step.Begin? && step.i !in cs && cs' == cs[step.i := step.collector])
    || exists i, phase :: i in cs && cs' == Enter(cs, i, phase)
  }

  lemma StepMoves(s: System, step: Action)
    requires Enabled(s, step)
    ensures Moved(s.collectors, After(s, step).collectors, step)
  {
    var after := After(s, step).collectors;
    if !step.Ordinary? && !step.Begin? && after != s.collectors {
      assert after == Enter(s.collectors, step.i, after[step.i].phase);
    }
  }

  lemma MovedStay(cs: map<nat, Collector>, cs': map<nat, Collector>, step: Action)
    requires Moved(cs, cs', step)
    ensures CollectorsStay(cs, cs')
    ensures forall i | i in cs' && i !in cs :: step == Begin(i, cs'[i])
  {
  }

  lemma StepCollectors(s: System, step: Action)
    requires Enabled(s, step)
    ensures CollectorsStay(s.collectors, After(s, step).collectors)
    ensures forall i | i in After(s, step).collectors && i !in s.collectors :: step == Begin(i, After(s, step).collectors[i])
  {
    StepMoves(s, step);
    MovedStay(s.collectors, After(s, step).collectors, step);
  }

  lemma ReserveOriginated(s: System, i: nat, expected: nat, env: Env, cs': map<nat, Collector>)
    requires Sound(s) && Enabled(s, ReserveRead(i, expected, env)) && Originated(s.w.artifacts, s.collectors)
    requires CollectorsStay(s.collectors, cs')
    ensures Originated(Next(s.w, ReservationCall(s.collectors[i], expected, env)).artifacts, cs')
  {
    var call := ReservationCall(s.collectors[i], expected, env);
    if Granted(s.w, call) {
      var a, r := GrantedReserves(s.w, s.collectors[i], expected, env);
      assert cs'[i].(phase := Ended) == s.collectors[i].(phase := Ended);
      assert BookedBy(r, cs'[i]);
      OriginatedSame(s.w.artifacts, a, s.collectors, s.collectors);
      OriginatedReserved(a, Next(s.w, call).artifacts, r, s.collectors, cs', i);
    } else {
      UngrantedQuiet(s.w, call);
      OriginatedSame(s.w.artifacts, Next(s.w, call).artifacts, s.collectors, cs');
    }
  }

  lemma FinishOriginated(s: System, i: nat, expected: nat, env: Env, cs': map<nat, Collector>)
    requires Sound(s) && Enabled(s, FinishRead(i, expected, env)) && Originated(s.w.artifacts, s.collectors)
    requires CollectorsStay(s.collectors, cs')
    ensures Originated(Next(s.w, CompletionCall(s.collectors[i], expected, env)).artifacts, cs')
  {
    var call := CompletionCall(s.collectors[i], expected, env);
    NextMeaning(s.w, call);
    if Accepted(s.w, call) {
      var r, r' := CompletionFinishes(s, i, expected, env);
      OriginatedFinished(s.w.artifacts, Next(s.w, call).artifacts, r, r', s.collectors, cs');
    } else {
      SelfGrows(s.w.artifacts);
      OriginatedSame(s.w.artifacts, s.w.artifacts, s.collectors, cs');
    }
  }

  lemma OrdinaryOriginated(s: System, call: Call)
    requires Sound(s) && Enabled(s, Ordinary(call)) && Originated(s.w.artifacts, s.collectors)
    ensures Originated(Next(s.w, call).artifacts, s.collectors)
  {
    NextMeaning(s.w, call);
    if Accepted(s.w, call) {
      OrdinaryGrows(s.w, call);
      OriginatedSame(s.w.artifacts, Next(s.w, call).artifacts, s.collectors, s.collectors);
    }
  }

  lemma ReserveStepOriginated(s: System, step: Action)
    requires Sound(s) && step.ReserveRead? && Enabled(s, step) && Originated(s.w.artifacts, s.collectors)
    ensures Originated(After(s, step).w.artifacts, After(s, step).collectors)
  {
    StepCollectors(s, step);
    StepWorkspace(s, step);
    ReserveOriginated(s, step.i, step.expected, step.env, After(s, step).collectors);
  }

  lemma FinishStepOriginated(s: System, step: Action)
    requires Sound(s) && step.FinishRead? && Enabled(s, step) && Originated(s.w.artifacts, s.collectors)
    ensures Originated(After(s, step).w.artifacts, After(s, step).collectors)
  {
    StepCollectors(s, step);
    StepWorkspace(s, step);
    FinishOriginated(s, step.i, step.expected, step.env, After(s, step).collectors);
  }

  lemma OrdinaryStepOriginated(s: System, step: Action)
    requires Sound(s) && step.Ordinary? && Enabled(s, step) && Originated(s.w.artifacts, s.collectors)
    ensures Originated(After(s, step).w.artifacts, After(s, step).collectors)
  {
    StepWorkspace(s, step);
    OrdinaryOriginated(s, step.call);
  }

  lemma StepOriginated(s: System, step: Action)
    requires Sound(s) && Enabled(s, step) && Originated(s.w.artifacts, s.collectors)
    ensures Originated(After(s, step).w.artifacts, After(s, step).collectors)
  {
    if step.ReserveRead? {
      ReserveStepOriginated(s, step);
    } else if step.FinishRead? {
      FinishStepOriginated(s, step);
    } else if step.Ordinary? {
      OrdinaryStepOriginated(s, step);
    } else {
      StepCollectors(s, step);
      StepWorkspace(s, step);
      OriginatedStays(s.w.artifacts, s.collectors, After(s, step).collectors);
    }
  }

  lemma OriginatedStays(artifacts: map<Key, Artifact>, cs: map<nat, Collector>, cs': map<nat, Collector>)
    requires Originated(artifacts, cs) && CollectorsStay(cs, cs') && Keyed(artifacts)
    ensures Originated(artifacts, cs')
  {
    SelfGrows(artifacts);
    OriginatedSame(artifacts, artifacts, cs, cs');
  }

  // The call a step makes of the workspace, if it makes one.
  function CallOf(s: System, step: Action): Option<Call>
    requires step.ReserveRead? || step.FinishRead? ==> step.i in s.collectors
    requires step.FinishRead? ==> s.collectors[step.i].phase.Holding?
  {
    match step
    case Ordinary(call) => Some(call)
    case ReserveRead(i, expected, env) => Some(ReservationCall(s.collectors[i], expected, env))
    case FinishRead(i, expected, env) => Some(CompletionCall(s.collectors[i], expected, env))
    case _ => None
  }

  lemma StepWorkspace(s: System, step: Action)
    requires Enabled(s, step)
    ensures After(s, step).w == if CallOf(s, step).Some? then Next(s.w, CallOf(s, step).value) else s.w
    ensures step.Ordinary? ==> After(s, step).collectors == s.collectors
  {
  }

  // No configuration that a collector of this run captured for the source allowed more than n reads.
  ghost predicate Allowed(steps: seq<Action>, source: Id, n: nat) {
    forall j | 0 <= j < |steps| && steps[j].Begin? && steps[j].collector.spec.sourceId == source ::
      steps[j].collector.spec.maxAttempts <= n
  }

  lemma {:induction false} CollectorsWithin(ss: seq<System>, steps: seq<Action>, tenantId: Id, start: Time, i: nat,
                                            source: Id, n: nat)
    requires SystemRun(ss, steps, tenantId, start) && i < |ss| && Allowed(steps, source, n)
    ensures Originated(ss[i].w.artifacts, ss[i].collectors)
    ensures Within(ss[i].collectors, source, n)
    decreases i
  {
    if i > 0 {
      CollectorsWithin(ss, steps, tenantId, start, i - 1, source, n);
      RunStep(ss, steps, tenantId, start, i - 1);
      StepOriginated(ss[i - 1], steps[i - 1]);
      StepWithin(ss[i - 1], steps[i - 1], source, n);
    }
  }

  ghost predicate Within(collectors: map<nat, Collector>, source: Id, n: nat) {
    forall k | k in collectors && collectors[k].spec.sourceId == source :: collectors[k].spec.maxAttempts <= n
  }

  lemma StepWithin(s: System, step: Action, source: Id, n: nat)
    requires Enabled(s, step) && Within(s.collectors, source, n)
    requires step.Begin? && step.collector.spec.sourceId == source ==> step.collector.spec.maxAttempts <= n
    ensures Within(After(s, step).collectors, source, n)
  {
    StepCollectors(s, step);
    var after := After(s, step).collectors;
    forall k | k in after && after[k].spec.sourceId == source
      ensures after[k].spec.maxAttempts <= n
    {
      if k in s.collectors {
        assert after[k].(phase := Ended) == s.collectors[k].(phase := Ended);
      }
    }
  }

  // The requests of a case and source whose fetch was made.
  function ReadsOf(s: System, c: Id, source: Id): set<Key> {
    set k | k in Requests(s.w.artifacts, c, source) && k.RequestKey? && k.requestId in s.fetched
  }

  lemma SubsetSize(a: set<Key>, b: set<Key>)
    requires a <= b
    ensures |a| <= |b|
  {
    assert b == a + (b - a);
  }

  /** Within the budget: whatever is interleaved, a case spends on a source at most the reads the configurations allow. */
  lemma ReadsWithinBudget(ss: seq<System>, steps: seq<Action>, tenantId: Id, start: Time, i: nat, c: Id, source: Id,
                          n: nat)
    requires SystemRun(ss, steps, tenantId, start) && i < |ss| && Allowed(steps, source, n)
    ensures |ReadsOf(ss[i], c, source)| <= |Requests(ss[i].w.artifacts, c, source)| <= n
  {
    RunSound(ss, steps, tenantId, start, i);
    CollectorsWithin(ss, steps, tenantId, start, i, source, n);
    var a := ss[i].w.artifacts;
    var spent := Requests(a, c, source);
    SubsetSize(ReadsOf(ss[i], c, source), spent);
    assert BudgetKept(a, c, source);
    if spent != {} {
      var k :| k in spent && |spent| <= a[k].request.spec.maxAttempts;
      assert KeyedAt(k, a[k]);
      assert RequestSound(a, a[RequestKey(k.requestId)].request, ss[i].now);
      assert From(ss[i].collectors, a[k].request);
    } else {
      assert |spent| == 0;
    }
  }

  // ----- Receipts -----

  /**
   On every run, under any configuration and at any instant the clock may show, the evidence of a case is never
   ambiguous, and a source's receipt is refused only as not observed, superseded by policy, or expired.
   */
  lemma OnlyThreeRejections(ss: seq<System>, steps: seq<Action>, tenantId: Id, start: Time, i: nat, c: Id, at: Time,
                            specs: map<Id, SourceSpec>)
    requires SystemRun(ss, steps, tenantId, start) && i < |ss| && c in ss[i].w.cases && ss[i].now <= at
    ensures var receipts := CurrentReceipts(ss[i].w, c, at, specs);
      && receipts.Ok?
      && forall s | s in receipts.value.rejected :: receipts.value.rejected[s] in {NotObserved, PolicyChanged, Expired}
  {
    RunSound(ss, steps, tenantId, start, i);
    RejectionsArePlain(ss[i].w, c, ss[i].now, at, specs);
  }

  lemma RejectionsArePlain(w: Workspace, c: Id, now: Time, at: Time, specs: map<Id, SourceSpec>)
    requires c in w.cases && EvidenceSound(w.artifacts, now) && now <= at
    ensures var receipts := CurrentReceipts(w, c, at, specs);
      && receipts.Ok?
      && forall s | s in receipts.value.rejected :: receipts.value.rejected[s] in {NotObserved, PolicyChanged, Expired}
  {
    HeadsUnambiguous(w, c);
    forall s | s in EvidenceHeads(w, c).value
      ensures Judge(w, c, s, EvidenceHeads(w, c).value[s], at, specs) in {None, Some(NotObserved), Some(PolicyChanged), Some(Expired)}
    {
      JudgedPlainly(w, c, s, now, at, specs);
    }
  }

  // The head of a source at a point, when it belongs to the case's present version.
  ghost predicate CurrentHead(w: Workspace, c: Id, s: Id, h: SourceHead) {
    c in w.cases && EvidenceHeads(w, c).Ok? && s in EvidenceHeads(w, c).value && EvidenceHeads(w, c).value[s] == h
  }

  // From an instant on, a source's current receipt is accepted exactly until it expires.
  ghost predicate AcceptedUntil(w: Workspace, c: Id, s: Id, specs: map<Id, SourceSpec>, from: Time, expiry: Time) {
    && c in w.cases && EvidenceHeads(w, c).Ok? && s in EvidenceHeads(w, c).value
    && forall at: Time | from <= at ::
         Judge(w, c, s, EvidenceHeads(w, c).value[s], at, specs) == if expiry <= at then Some(Expired) else None
  }

  // A current, observed head is judged by its receipt's configuration and expiry alone.
  lemma JudgedByExpiry(w: Workspace, c: Id, s: Id, id: RequestId, receipt: Receipt, now: Time,
                       specs: map<Id, SourceSpec>)
    requires c in w.cases && EvidenceSound(w.artifacts, now)
    requires HeadKey(c, s) in w.artifacts
    requires w.artifacts[HeadKey(c, s)] == HeadArtifact(SourceHead(c, w.cases[c].version, s, id, Observed, Some(receipt.receiptId)))
    requires ReceiptKey(receipt.receiptId) in w.artifacts
    requires w.artifacts[ReceiptKey(receipt.receiptId)] == ReceiptArtifact(receipt, receipt)
    requires SpecCurrent(w, c, s, receipt, specs)
    ensures AcceptedUntil(w, c, s, specs, now, receipt.expiresAt)
  {
    HeadsUnambiguous(w, c);
    forall at: Time | now <= at
      ensures Judge(w, c, s, EvidenceHeads(w, c).value[s], at, specs) == if receipt.expiresAt <= at then Some(Expired) else None
    {
      JudgedPlainly(w, c, s, now, at, specs);
    }
  }

  // The collector still leads an open case whose version it captured, and brings an observation.
  ghost predicate LeadsUnchanged(s: System, col: Collector) {
    && col.phase.Holding? && col.phase.result.Fetched? && col.caseId in s.w.cases
    && s.w.cases[col.caseId].status == Open && s.w.cases[col.caseId].version == col.version
    && LatestOf(s.booked, col.caseId, col.spec.sourceId) == Some(RequestOf(col))
  }

  lemma FreshState(s: System, i: nat, expected: nat, env: Env)
    requires Sound(s) && i in s.collectors && LeadsUnchanged(s, s.collectors[i])
    ensures var col := s.collectors[i];
      FinishedState(s.w, CompletionCall(col, expected, env), col.caseId, RequestOf(col), col.phase.result) == Observed
  {
    var col := s.collectors[i];
    assert HeadRequest(s.w.artifacts, col.caseId, col.spec.sourceId) == Some(RequestOf(col));
  }

  lemma FreshEffect(s: System, i: nat, expected: nat, env: Env) returns (receipt: Receipt)
    requires Sound(s) && Enabled(s, FinishRead(i, expected, env)) && LeadsUnchanged(s, s.collectors[i])
    requires Accepted(s.w, CompletionCall(s.collectors[i], expected, env))
    ensures var col, b := s.collectors[i], Next(s.w, CompletionCall(s.collectors[i], expected, env)).artifacts;
      && HeadKey(col.caseId, col.spec.sourceId) in b
      && b[HeadKey(col.caseId, col.spec.sourceId)] ==
           HeadArtifact(SourceHead(col.caseId, col.version, col.spec.sourceId, RequestOf(col), Observed, Some(receipt.receiptId)))
      && ReceiptKey(receipt.receiptId) in b && b[ReceiptKey(receipt.receiptId)] == ReceiptArtifact(receipt, receipt)
      && receipt.spec == col.spec && receipt.expiresAt == col.phase.finished + col.spec.ttl * SECOND
  {
    var col := s.collectors[i];
    var call := CompletionCall(col, expected, env);
    assert CollectorSound(s.w, s.now, s.fetched, col);
    var r, r' := CompletionFinishes(s, i, expected, env);
    FreshState(s, i, expected, env);
    FreshHead(s, Next(s.w, call).artifacts, col.caseId, col.spec.sourceId, r, r');
    receipt := ReceiptFor(call, col.caseId, col.phase.result.observation);
    var a := Next(s.w, call).artifacts[ReceiptKey(env.newId)];
    assert BoundTo(a, r', env.at);
  }

  lemma FreshlySound(s: System, i: nat, expected: nat, env: Env)
    requires Sound(s) && Enabled(s, FinishRead(i, expected, env))
    requires Accepted(s.w, CompletionCall(s.collectors[i], expected, env))
    ensures var w := Next(s.w, CompletionCall(s.collectors[i], expected, env));
      EvidenceSound(w.artifacts, env.at) && w.cases == s.w.cases && w.tenantId == s.w.tenantId
    ensures Captured(s.w, s.collectors[i])
  {
    CompletedSound(s, i, expected, env);
    AfterCompletion(s, i, expected, env);
    CompletionKeepsCases(s.w, CompletionCall(s.collectors[i], expected, env));
    assert CollectorSound(s.w, s.now, s.fetched, s.collectors[i]);
  }

  /** A completed read that leads an unchanged open case is accepted from its commit until its time to live ends. */
  lemma FreshReadIsAccepted(s: System, i: nat, expected: nat, env: Env)
    requires Sound(s) && Enabled(s, FinishRead(i, expected, env)) && LeadsUnchanged(s, s.collectors[i])
    requires Accepted(s.w, CompletionCall(s.collectors[i], expected, env))
    ensures var col := s.collectors[i];
      AcceptedUntil(Next(s.w, CompletionCall(col, expected, env)), col.caseId, col.spec.sourceId, col.desk.specs,
                    env.at, col.phase.finished + col.spec.ttl * SECOND)
  {
    var col := s.collectors[i];
    var call := CompletionCall(col, expected, env);
    var receipt := FreshEffect(s, i, expected, env);
    FreshlySound(s, i, expected, env);
    JudgedByExpiry(Next(s.w, call), col.caseId, col.spec.sourceId, RequestOf(col), receipt, env.at, col.desk.specs);
  }

  lemma CompletionKeepsCases(w: Workspace, call: Call)
    requires call.command.FinishSource? && Accepted(w, call)
    ensures Next(w, call).cases == w.cases && Next(w, call).tenantId == w.tenantId
  {
    NextMeaning(w, call);
    FinishFrame(w, call, call.command.caseId, call.command.requestId, call.command.fetched);
  }

  lemma FreshHead(s: System, b: map<Key, Artifact>, c: Id, source: Id, r: SourceRequest, r': SourceRequest)
    requires Sound(s) && FinishedAs(s.w.artifacts, b, r, r') && r.caseId == c && r.sourceId == source
    requires HeadRequest(s.w.artifacts, c, source) == Some(r.requestId)
    ensures HeadKey(c, source) in b
    ensures b[HeadKey(c, source)] == HeadArtifact(SourceHead(c, r.caseVersion, source, r.requestId, r'.state, r'.receiptId))
  {
    assert HeadSound(s.w.artifacts, s.w.artifacts[HeadKey(c, source)].head);
    assert KeyedAt(HeadKey(c, source), s.w.artifacts[HeadKey(c, source)]);
  }

  lemma {:induction false} ReceiptsStay(ss: seq<System>, steps: seq<Action>, tenantId: Id, start: Time, i: nat, j: nat)
    requires SystemRun(ss, steps, tenantId, start) && i <= j < |ss|
    ensures ReceiptsKept(ss[i].w.artifacts, ss[j].w.artifacts) && ScopesKept(ss[i].w, ss[j].w)
    decreases j
  {
    if i < j {
      ReceiptsStay(ss, steps, tenantId, start, i, j - 1);
      StepKeepsReceipts(ss, steps, tenantId, start, j - 1);
    }
  }

  lemma StepKeepsReceipts(ss: seq<System>, steps: seq<Action>, tenantId: Id, start: Time, i: nat)
    requires SystemRun(ss, steps, tenantId, start) && i < |steps|
    ensures ReceiptsKept(ss[i].w.artifacts, ss[i + 1].w.artifacts) && ScopesKept(ss[i].w, ss[i + 1].w)
  {
    RunStep(ss, steps, tenantId, start, i);
    StepSound(ss[i], steps[i]);
    StepKeepsScopes(ss[i], steps[i]);
  }

  lemma StepKeepsScopes(s: System, step: Action)
    requires Sound(s) && Enabled(s, step)
    ensures ScopesKept(s.w, After(s, step).w)
  {
    StepWorkspace(s, step);
    if CallOf(s, step).Some? {
      NextKeepsScopes(s.w, CallOf(s, step).value);
    }
  }

  // A head that was accepted once is judged by its receipt's expiry wherever head, receipt and version are the same.
  lemma JudgedAgain(w: Workspace, w': Workspace, c: Id, s: Id, h: SourceHead, at: Time, later: Time,
                    specs: map<Id, SourceSpec>)
    requires c in w.cases && c in w'.cases && w'.tenantId == w.tenantId && w'.cases[c].scope == w.cases[c].scope
    requires PlainVerdict(w, c, s, h, at, specs) == None && Judge(w, c, s, h, at, specs) == None
    requires ReceiptsKept(w.artifacts, w'.artifacts)
    ensures PlainVerdict(w', c, s, h, later, specs) ==
      if ReceiptOf(w, c, s, h, at, specs).expiresAt <= later then Some(Expired) else None
  {
  }

  lemma JudgedOnRun(ss: seq<System>, steps: seq<Action>, tenantId: Id, start: Time, i: nat, c: Id, s: Id,
                    h: SourceHead, at: Time, specs: map<Id, SourceSpec>)
    requires SystemRun(ss, steps, tenantId, start) && i < |ss| && ss[i].now <= at && CurrentHead(ss[i].w, c, s, h)
    ensures Judge(ss[i].w, c, s, h, at, specs) == PlainVerdict(ss[i].w, c, s, h, at, specs)
  {
    RunSound(ss, steps, tenantId, start, i);
    JudgedPlainly(ss[i].w, c, s, ss[i].now, at, specs);
  }

  /**
   Once accepted, a receipt stays accepted at every later point of the run where the head and the case version are
   the same, exactly until it expires.
   */
  lemma AcceptedUntilExpiry(ss: seq<System>, steps: seq<Action>, tenantId: Id, start: Time, i: nat, j: nat,
                            c: Id, s: Id, h: SourceHead, at: Time, later: Time, specs: map<Id, SourceSpec>)
    requires SystemRun(ss, steps, tenantId, start) && i <= j < |ss| && ss[i].now <= at && ss[j].now <= later
    requires CurrentHead(ss[i].w, c, s, h) && CurrentHead(ss[j].w, c, s, h)
    requires Judge(ss[i].w, c, s, h, at, specs) == None
    ensures Judge(ss[j].w, c, s, h, later, specs) ==
      if ReceiptOf(ss[i].w, c, s, h, at, specs).expiresAt <= later then Some(Expired) else None
  {
    ReceiptsStay(ss, steps, tenantId, start, i, j);
    JudgedOnRun(ss, steps, tenantId, start, i, c, s, h, at, specs);
    JudgedOnRun(ss, steps, tenantId, start, j, c, s, h, later, specs);
    JudgedAgain(ss[i].w, ss[j].w, c, s, h, at, later, specs);
  }
}
