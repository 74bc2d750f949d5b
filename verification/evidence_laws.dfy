/** What the evidence of a case says, field by field: receipts, obligations, groups, signals and the two gates. */
module EvidenceLaws {
  import opened Common
  import opened CaseworkModels
  import opened SourceState
  import opened SourceGuard
  import opened EvidenceDesk

  // ----- Receipts -----

  // The head was observed, and its receipt is stored unaltered, for this source and version of the case.
  ghost predicate ReceiptStands(w: Workspace, c: Id, s: Id, h: SourceHead, r: Receipt)
    requires c in w.cases
  {
    && h.state == Observed && h.receiptId == Some(r.receiptId)
    && ReceiptKey(r.receiptId) in w.artifacts && w.artifacts[ReceiptKey(r.receiptId)] == ReceiptArtifact(r, r)
    && r.caseId == c && r.caseVersion == w.cases[c].version && r.sourceId == s
  }

  // The request behind the head was observed, and asked for what the receipt holds.
  ghost predicate RequestStands(w: Workspace, c: Id, s: Id, h: SourceHead, r: Receipt)
    requires c in w.cases
  {
    && RequestKey(h.requestId) in w.artifacts
    && exists q :: w.artifacts[RequestKey(h.requestId)] == RequestArtifact(q)
         && q.state == Observed && q.caseId == c && q.sourceId == s && q.caseVersion == w.cases[c].version
         && q.receiptId == Some(r.receiptId) && q.resource == r.resource && q.spec == r.spec
  }

  // The source is configured as it was read, for this tenant and subject.
  ghost predicate SourceStands(w: Workspace, c: Id, s: Id, r: Receipt, specs: map<Id, SourceSpec>)
    requires c in w.cases
  {
    && s in specs && specs[s] == r.spec && specs[s].tenantId == w.tenantId
    && w.cases[c].scope.subject in specs[s].subjects && r.group == specs[s].group
  }

  /**
   A receipt is accepted exactly while it stands, its request and its source do, and the instant lies between its
   reading and its expiry, which is no later than its time to live allows.
   */
  lemma AcceptedIffStands(w: Workspace, c: Id, s: Id, h: SourceHead, at: Time, specs: map<Id, SourceSpec>, r: Receipt)
    requires c in w.cases
    ensures Judge(w, c, s, h, at, specs) == None && ReceiptOf(w, c, s, h, at, specs) == r <==>
      && ReceiptStands(w, c, s, h, r) && RequestStands(w, c, s, h, r) && SourceStands(w, c, s, r, specs)
      && r.fetchedAt <= at < r.expiresAt <= r.fetchedAt + r.spec.ttl * 1_000_000
  {
    if RequestKey(h.requestId) in w.artifacts && w.artifacts[RequestKey(h.requestId)].RequestArtifact? {
      var q := w.artifacts[RequestKey(h.requestId)].request;
      assert w.artifacts[RequestKey(h.requestId)] == RequestArtifact(q);
    }
  }

  // ----- Obligations -----

  // A stored artifact makes a case owe a source.
  predicate Owes(a: Artifact, c: Id, s: Id) {
    match a
    case GuardArtifact(other, floor, _) => other == c && s in floor.required
    case RequestArtifact(request) => request.caseId == c && request.sourceId == s
    case HeadArtifact(head) => head.caseId == c && head.sourceId == s
    case ReceiptArtifact(receipt, _) => receipt.caseId == c && receipt.sourceId == s
    case BundleArtifact(_, other, _, bundle) => other == c && (s in bundle.required || s in bundle.receipts)
    case _ => false
  }

  // A stored artifact makes a case owe a configured policy, and a number of groups.
  predicate OwesPolicy(a: Artifact, c: Id) {
    || (a.GuardArtifact? && a.caseId == c && a.floor.configured)
    || (a.BundleArtifact? && a.caseId == c && a.bundle.floor.configured)
  }

  predicate OwesGroups(a: Artifact, c: Id, n: nat) {
    || (a.GuardArtifact? && a.caseId == c && a.floor.minGroups == n)
    || (a.BundleArtifact? && a.caseId == c && a.bundle.floor.configured && a.bundle.floor.minGroups == n)
  }

  /** Everything the stored artifacts oblige a case to, and nothing else. */
  lemma ObligationsSay(artifacts: map<Key, Artifact>, c: Id)
    ensures var owed := Obligations(artifacts, c);
      && (forall s :: s in owed.required <==> exists k :: k in artifacts && Owes(artifacts[k], c, s))
      && (owed.configured <==> exists k :: k in artifacts && OwesPolicy(artifacts[k], c))
      && (forall k, n: nat | k in artifacts && OwesGroups(artifacts[k], c, n) :: n <= owed.minGroups)
      && (owed.minGroups == 0 || exists k :: k in artifacts && OwesGroups(artifacts[k], c, owed.minGroups))
  {
    var owed := Obligations(artifacts, c);
    forall k, s | k in artifacts
      ensures s in Contribution(artifacts[k], c).required <==> Owes(artifacts[k], c, s)
      ensures Contribution(artifacts[k], c).configured <==> OwesPolicy(artifacts[k], c)
    {
    }
    forall k, n: nat | k in artifacts && OwesGroups(artifacts[k], c, n)
      ensures n <= owed.minGroups
    {
      ContributionBelow(artifacts, c, k);
    }
    if owed.minGroups != 0 {
      var k :| k in artifacts && Contribution(artifacts[k], c).minGroups == owed.minGroups;
      assert OwesGroups(artifacts[k], c, owed.minGroups);
    }
  }

  /** The policy that applies is the first configured one for the tenant and the scope of the case. */
  lemma {:induction false} PolicyForSays(policies: seq<SourcePolicy>, tenantId: Id, scope: Scope, i: nat)
    requires i < |policies| && policies[i].tenantId == tenantId && policies[i].scope == scope
    requires forall j | 0 <= j < i :: policies[j].tenantId != tenantId || policies[j].scope != scope
    ensures PolicyFor(policies, tenantId, scope) == Some(policies[i])
  {
    if i > 0 {
      PolicyForSays(policies[1..], tenantId, scope, i - 1);
    }
  }

  lemma {:induction false} NoPolicyFor(policies: seq<SourcePolicy>, tenantId: Id, scope: Scope)
    ensures PolicyFor(policies, tenantId, scope) == None <==>
      forall p | p in policies :: p.tenantId != tenantId || p.scope != scope
  {
    if policies != [] {
      NoPolicyFor(policies[1..], tenantId, scope);
      assert policies == [policies[0]] + policies[1..];
    }
  }

  // The recorded guard of a case holds a configured policy that the present one no longer meets.
  ghost predicate Undercuts(artifacts: map<Key, Artifact>, c: Id, p: SourcePolicy) {
    && GuardKey(c) in artifacts && artifacts[GuardKey(c)].GuardArtifact?
    && artifacts[GuardKey(c)].floor.configured
    && (p.minGroups < artifacts[GuardKey(c)].floor.minGroups
        || exists s :: s in artifacts[GuardKey(c)].configuredSources && s !in p.required)
  }

  /** The floor in force: refused if a policy is owed and gone or undercut, otherwise everything owed or configured. */
  lemma EffectiveSays(artifacts: map<Key, Artifact>, c: Id, policy: Option<SourcePolicy>)
    ensures var owed, r := Obligations(artifacts, c), EffectivePolicy(artifacts, c, policy);
      && (r == Err(SourcePolicyRemoved) <==> owed.configured && policy.None?)
      && (r == Err(SourcePolicyWeakened) <==> policy.Some? && Undercuts(artifacts, c, policy.value))
      && (r.Ok? ==>
            && (policy.None? ==> r.value == owed)
            && (policy.Some? ==>
                  && r.value.required == owed.required + policy.value.required && r.value.configured
                  && r.value.minGroups == if owed.minGroups < policy.value.minGroups then policy.value.minGroups else owed.minGroups))
  {
    if policy.Some? && GuardKey(c) in artifacts && artifacts[GuardKey(c)].GuardArtifact?
       && !(artifacts[GuardKey(c)].configuredSources <= policy.value.required) {
      var s :| s in artifacts[GuardKey(c)].configuredSources && s !in policy.value.required;
    }
  }

  /** Remembering stores exactly the floor in force with the sources, under the case's guard, or nothing if it is empty. */
  lemma RememberSays(artifacts: map<Key, Artifact>, c: Id, policy: Option<SourcePolicy>, sources: set<Id>)
    requires RememberPolicy(artifacts, c, policy, sources).Ok?
    ensures EffectivePolicy(artifacts, c, policy).Ok?
    ensures var floor, after := EffectivePolicy(artifacts, c, policy).value, RememberPolicy(artifacts, c, policy, sources).value;
      if floor.required == {} && sources == {} && !floor.configured then after == artifacts
      else
        && GuardKey(c) in after && after[GuardKey(c)].GuardArtifact? && after[GuardKey(c)].caseId == c
        && after[GuardKey(c)].floor == Floor(floor.required + sources, floor.minGroups, floor.configured)
        && (forall s :: s in after[GuardKey(c)].configuredSources <==>
              || (policy.Some? && s in policy.value.required)
              || (GuardKey(c) in artifacts && artifacts[GuardKey(c)].GuardArtifact? && s in artifacts[GuardKey(c)].configuredSources))
        && (forall k | k != GuardKey(c) :: (k in after <==> k in artifacts) && (k in artifacts ==> after[k] == artifacts[k]))
  {
  }

  // ----- The context -----

  // A group has an accepted receipt of a source that counts.
  ghost predicate Represented(receipts: map<Id, Receipt>, required: set<Id>, g: Id) {
    exists s :: s in receipts && receipts[s].group == g && (required == {} || s in required)
  }

  /** Independence is counted in groups: two receipts of one group count once, and only required sources if any are. */
  lemma GroupsAreCounted(w: Workspace, desk: Config, c: Id, at: Time, groups: set<Id>)
    requires c in w.cases && ContextOf(w, desk, c, at).Ok?
    requires forall g :: g in groups <==> Represented(ContextOf(w, desk, c, at).value.receipts, ContextOf(w, desk, c, at).value.required, g)
    ensures ContextOf(w, desk, c, at).value.groups == |groups|
  {
    var x := ContextOf(w, desk, c, at).value;
    assert Groups(x.receipts, x.required) == groups;
  }

  /**
   The evidence of a case: its floor, the receipts that are accepted now, what is missing, and complete exactly when
   nothing is rejected or missing, all receipts agree and there are enough groups.
   */
  lemma ContextSays(w: Workspace, desk: Config, c: Id, at: Time)
    requires c in w.cases && ContextOf(w, desk, c, at).Ok?
    ensures EffectivePolicy(w.artifacts, c, CasePolicyOf(w, desk, c)).Ok? && EvidenceHeads(w, c).Ok?
    ensures var x, floor, heads := ContextOf(w, desk, c, at).value,
                                   EffectivePolicy(w.artifacts, c, CasePolicyOf(w, desk, c)).value, EvidenceHeads(w, c).value;
      && x.caseId == c && x.caseVersion == w.cases[c].version && x.floor == floor && x.required == floor.required
      && x.policy == PolicyFor(desk.policies, w.tenantId, w.cases[c].scope)
      && (forall s :: s in x.missing <==> s in floor.required && s !in x.receipts)
      && (forall s :: s in x.receipts <==> s in heads && Judge(w, c, s, heads[s], at, desk.specs) == None)
      && (forall s :: s in x.rejected <==> s in heads && s !in x.receipts)
      && (x.complete <==>
            x.rejected == map[] && x.missing == {} && Agree(x.receipts) && x.groups >= floor.minGroups)
      && (x.resolutionRequiresSources <==> floor.required != {} || x.policy.Some?)
  {
    NoConflictsIffAgree(ContextOf(w, desk, c, at).value.receipts);
  }

  /** The current heads of a case: those stored for it at its present version, one for each source. */
  lemma HeadsSay(w: Workspace, c: Id)
    requires c in w.cases
    ensures EvidenceHeads(w, c).Ok? <==>
      forall a, b | a in w.artifacts && b in w.artifacts && a != b && w.artifacts[a].HeadArtifact? && w.artifacts[b].HeadArtifact? ::
        !(w.artifacts[a].head.caseId == c == w.artifacts[b].head.caseId
          && w.artifacts[a].head.caseVersion == w.cases[c].version == w.artifacts[b].head.caseVersion
          && w.artifacts[a].head.sourceId == w.artifacts[b].head.sourceId)
    ensures EvidenceHeads(w, c).Ok? ==>
      forall s, h :: s in EvidenceHeads(w, c).value && EvidenceHeads(w, c).value[s] == h <==>
        exists k :: k in w.artifacts && w.artifacts[k] == HeadArtifact(h)
          && h.caseId == c && h.caseVersion == w.cases[c].version && h.sourceId == s
  {
    if !Ambiguous(w, c) {
      forall s, h
        ensures s in EvidenceHeads(w, c).value && EvidenceHeads(w, c).value[s] == h <==>
          exists k :: k in w.artifacts && w.artifacts[k] == HeadArtifact(h)
            && h.caseId == c && h.caseVersion == w.cases[c].version && h.sourceId == s
      {
        if k :| k in w.artifacts && w.artifacts[k] == HeadArtifact(h)
                && h.caseId == c && h.caseVersion == w.cases[c].version && h.sourceId == s {
          assert k in HeadKeys(w, c);
          assert s in HeadSources(w, c);
        }
        if s in HeadSources(w, c) {
          var k :| k in HeadKeys(w, c) && w.artifacts[k].head.sourceId == s && w.artifacts[k].head == HeadFor(w, c, s);
          assert w.artifacts[k] == HeadArtifact(HeadFor(w, c, s));
        }
      }
    } else {
      var a, b :| a in HeadKeys(w, c) && b in HeadKeys(w, c) && a != b && w.artifacts[a].head.sourceId == w.artifacts[b].head.sourceId;
    }
  }

  lemma ReceiptSignalSays(receipts: map<Id, Receipt>, x: ReviewSignal)
    ensures x in AllReceiptSignals(receipts, receipts.Keys) <==>
      (x.IssueRemainsOpen? || x.TransactionReverted?) && x.sourceId in receipts
      && var facts := receipts[x.sourceId].observation.facts;
      && (x.IssueRemainsOpen? ==> Stable(State) in facts && facts[Stable(State)] == IsOpen)
      && (x.TransactionReverted? ==> Stable(TransactionSucceeded) in facts && facts[Stable(TransactionSucceeded)] == IsFalse)
  {
    if (x.IssueRemainsOpen? || x.TransactionReverted?) && x.sourceId in receipts {
      assert x in ReceiptSignals(x.sourceId, receipts[x.sourceId]) ==> x in AllReceiptSignals(receipts, receipts.Keys);
    }
  }

  lemma ConflictSignalSays(conflicts: set<Conflict>, x: ReviewSignal)
    requires forall c | c in conflicts :: c.sources != {}
    ensures x in (set c | c in conflicts :: ConflictSignal(c)) <==>
      x.SourcesConflict? && x.conflict in conflicts && IsLeast(x.conflict.sources, x.sourceId)
  {
    if x.SourcesConflict? && x.conflict in conflicts && IsLeast(x.conflict.sources, x.sourceId) {
      assert ConflictSignal(x.conflict) == x;
    }
  }

  lemma ConflictsHaveSources(receipts: map<Id, Receipt>)
    ensures forall c | c in Conflicts(receipts) :: c.sources != {}
  {
    forall c | c in Conflicts(receipts)
      ensures c.sources != {}
    {
      ConflictsSay(receipts, c);
      var y :| y in c.values;
      var s :| Says(receipts, s, c.resource, c.field) && receipts[s].observation.facts[c.field] == y;
      assert s in c.sources;
    }
  }

  // What a signal reports, if it reports what the evidence says.
  ghost predicate Reports(e: Context, x: ReviewSignal) {
    match x
    case IssueRemainsOpen(s) =>
      s in e.receipts && Stable(State) in e.receipts[s].observation.facts
      && e.receipts[s].observation.facts[Stable(State)] == IsOpen
    case TransactionReverted(s) =>
      s in e.receipts && Stable(TransactionSucceeded) in e.receipts[s].observation.facts
      && e.receipts[s].observation.facts[Stable(TransactionSucceeded)] == IsFalse
    case MissingRequiredSource(s) => s in e.required && s !in e.receipts
    case SourceRejected(s, reason) => s in e.rejected && e.rejected[s] == reason
    case SourcesConflict(s, conflict) =>
      conflict in e.conflicts && s in conflict.sources && forall o | o in conflict.sources :: s <= o
  }

  /** The review signals are exactly those that report what the evidence says. */
  lemma SignalsSay(w: Workspace, desk: Config, c: Id, at: Time, x: ReviewSignal)
    requires c in w.cases && ContextOf(w, desk, c, at).Ok?
    ensures x in ContextOf(w, desk, c, at).value.signals <==> Reports(ContextOf(w, desk, c, at).value, x)
  {
    var e := ContextOf(w, desk, c, at).value;
    ConflictsHaveSources(e.receipts);
    SignalIsOneOf(e.receipts, e.missing, e.rejected, e.conflicts, x);
  }

  lemma SignalIsOneOf(receipts: map<Id, Receipt>, missing: set<Id>, rejected: map<Id, RejectReason>,
                      conflicts: set<Conflict>, x: ReviewSignal)
    requires forall c | c in conflicts :: c.sources != {}
    ensures x in SignalsOf(receipts, missing, rejected, conflicts) <==>
      || x in AllReceiptSignals(receipts, receipts.Keys)
      || (x.MissingRequiredSource? && x.sourceId in missing)
      || (x.SourceRejected? && x.sourceId in rejected && rejected[x.sourceId] == x.reason)
      || (x.SourcesConflict? && x.conflict in conflicts && IsLeast(x.conflict.sources, x.sourceId))
    ensures x in AllReceiptSignals(receipts, receipts.Keys) <==>
      (x.IssueRemainsOpen? || x.TransactionReverted?) && x.sourceId in receipts
      && var facts := receipts[x.sourceId].observation.facts;
      && (x.IssueRemainsOpen? ==> Stable(State) in facts && facts[Stable(State)] == IsOpen)
      && (x.TransactionReverted? ==> Stable(TransactionSucceeded) in facts && facts[Stable(TransactionSucceeded)] == IsFalse)
  {
    ReceiptSignalSays(receipts, x);
    ConflictSignalSays(conflicts, x);
  }

  // ----- The two gates -----

  /** The evidence events of a trace are the events that inspect evidence, each as often as it occurs. */
  lemma {:induction false} EventsSay(trace: seq<TraceEvent>, e: TraceEvent)
    ensures multiset(EvidenceEvents(trace))[e] == if e.EvidenceInspect? then multiset(trace)[e] else 0
  {
    if trace == [] {
    } else {
      EventsSay(trace[1..], e);
      assert trace == [trace[0]] + trace[1..];
    }
  }

  // A policy is configured for the tenant and scope of the case, or the case owes something.
  ghost predicate Sourced(w: Workspace, desk: Config, c: Id)
    requires c in w.cases
  {
    || (exists p :: p in desk.policies && p.tenantId == w.tenantId && p.scope == w.cases[c].scope)
    || Obligations(w.artifacts, c).required != {} || Obligations(w.artifacts, c).configured
  }

  lemma SourcedIffNeeded(w: Workspace, desk: Config, c: Id)
    requires c in w.cases
    ensures NeedsSources(w, desk, c) <==> Sourced(w, desk, c)
  {
    NoPolicyFor(desk.policies, w.tenantId, w.cases[c].scope);
  }

  /** A report passes exactly if no sources are needed, or it quotes the present context once and that is complete. */
  lemma ReportGateSays(w: Workspace, desk: Config, c: Id, report: ReportBody, at: Time)
    requires c in w.cases
    ensures ValidateReport(w, desk, c, report, at).Ok? <==>
      || !Sourced(w, desk, c)
      || (ContextOf(w, desk, c, at).Ok? && ContextOf(w, desk, c, at).value.complete
          && EvidenceEvents(report.trace) == [EvidenceInspect(ContextOf(w, desk, c, at).value)])
  {
    SourcedIffNeeded(w, desk, c);
  }

  /** A resolution passes exactly if no sources are needed, or it names the bundle of the present, complete context. */
  lemma ResolutionGateSays(w: Workspace, desk: Config, c: Id, evidence: Digest, at: Time)
    requires c in w.cases
    ensures ResolutionGate(w, desk, c, evidence, at).Ok? <==>
      || !Sourced(w, desk, c)
      || (ContextOf(w, desk, c, at).Ok? && ContextOf(w, desk, c, at).value.complete
          && evidence == BundleRoot(ContextOf(w, desk, c, at).value))
  {
    SourcedIffNeeded(w, desk, c);
  }
}
