/** The evidence of a case under the present connector configuration. */
module EvidenceDesk {
  import opened Common
  import opened CaseworkModels
  import opened SourceState
  import opened SourceGuard

  // The first configured policy for a tenant's scope.
  function PolicyFor(policies: seq<SourcePolicy>, tenantId: Id, scope: Scope): Option<SourcePolicy> {
    if policies == [] then None
    else if policies[0].tenantId == tenantId && policies[0].scope == scope then Some(policies[0])
    else PolicyFor(policies[1..], tenantId, scope)
  }

  function CasePolicyOf(w: Workspace, desk: Config, caseId: Id): Option<SourcePolicy>
    requires caseId in w.cases
  {
    PolicyFor(desk.policies, w.tenantId, w.cases[caseId].scope)
  }

  // The independence groups among the receipts that count.
  function Groups(receipts: map<Id, Receipt>, required: set<Id>): set<Id> {
    set s | s in receipts && (required == {} || s in required) :: receipts[s].group
  }

  // ----- Review signals -----

  function ReceiptSignals(s: Id, receipt: Receipt): set<ReviewSignal> {
    var facts := receipt.observation.facts;
    (if Stable(State) in facts && facts[Stable(State)] == IsOpen then {IssueRemainsOpen(s)} else {})
    + if Stable(TransactionSucceeded) in facts && facts[Stable(TransactionSucceeded)] == IsFalse
      then {TransactionReverted(s)} else {}
  }

  function AllReceiptSignals(receipts: map<Id, Receipt>, sources: set<Id>): set<ReviewSignal>
    requires sources <= receipts.Keys
  {
    set s, x | s in sources && x in ReceiptSignals(s, receipts[s]) :: x
  }

  lemma OneMoreReceipt(receipts: map<Id, Receipt>, sources: set<Id>, s: Id)
    requires sources <= receipts.Keys && s in receipts
    ensures AllReceiptSignals(receipts, sources + {s})
      == AllReceiptSignals(receipts, sources) + ReceiptSignals(s, receipts[s])
  {
    forall x | x in ReceiptSignals(s, receipts[s])
      ensures x in AllReceiptSignals(receipts, sources + {s})
    {
      assert s in sources + {s};
    }
    forall x | x in AllReceiptSignals(receipts, sources)
      ensures x in AllReceiptSignals(receipts, sources + {s})
    {
      var k :| k in sources && x in ReceiptSignals(k, receipts[k]);
      assert k in sources + {s};
    }
  }

  // A conflict is reported under the first of its sources.
  function ConflictSignal(c: Conflict): ReviewSignal {
    SourcesConflict(if c.sources == {} then 0 else Least(c.sources), c)
  }

  function SignalsOf(receipts: map<Id, Receipt>, missing: set<Id>, rejected: map<Id, RejectReason>,
                     conflicts: set<Conflict>): set<ReviewSignal> {
    AllReceiptSignals(receipts, receipts.Keys)
    + (set s | s in missing :: MissingRequiredSource(s))
    + (set s | s in rejected :: SourceRejected(s, rejected[s]))
    + set c | c in conflicts :: ConflictSignal(c)
  }

  // Signals that stand in the way of complete evidence.
  predicate Blocking(signal: ReviewSignal) {
    signal.MissingRequiredSource? || signal.SourceRejected? || signal.SourcesConflict?
  }

  lemma BlockingSignals(receipts: map<Id, Receipt>, missing: set<Id>, rejected: map<Id, RejectReason>,
                        conflicts: set<Conflict>)
    ensures (exists x :: x in SignalsOf(receipts, missing, rejected, conflicts) && Blocking(x))
      <==> missing != {} || rejected != map[] || conflicts != {}
  {
    var signals := SignalsOf(receipts, missing, rejected, conflicts);
    if s :| s in missing {
      assert MissingRequiredSource(s) in signals;
    }
    if s :| s in rejected {
      assert SourceRejected(s, rejected[s]) in signals;
    }
    if c :| c in conflicts {
      assert ConflictSignal(c) in signals;
    }
  }

  method CollectSignals(receipts: map<Id, Receipt>, missing: set<Id>, rejected: map<Id, RejectReason>,
                        conflicts: set<Conflict>)
    returns (signals: set<ReviewSignal>)
    ensures signals == SignalsOf(receipts, missing, rejected, conflicts)
  {
    signals := {};
    var rest := receipts.Keys;
    while rest != {}
      invariant rest <= receipts.Keys
      invariant signals == AllReceiptSignals(receipts, receipts.Keys - rest)
      decreases rest
    {
      var s :| s in rest;
      OneMoreReceipt(receipts, receipts.Keys - rest, s);
      assert receipts.Keys - (rest - {s}) == receipts.Keys - rest + {s};
      var facts := receipts[s].observation.facts;
      if Stable(State) in facts && facts[Stable(State)] == IsOpen {
        signals := signals + {IssueRemainsOpen(s)};
      }
      if Stable(TransactionSucceeded) in facts && facts[Stable(TransactionSucceeded)] == IsFalse {
        signals := signals + {TransactionReverted(s)};
      }
      rest := rest - {s};
    }
    assert receipts.Keys - rest == receipts.Keys;
    signals := signals + set s | s in missing :: MissingRequiredSource(s);
    signals := signals + set s | s in rejected :: SourceRejected(s, rejected[s]);
    signals := signals + set c | c in conflicts :: ConflictSignal(c);
  }

  function ContextFrom(w: Workspace, caseId: Id, policy: Option<SourcePolicy>, floor: Floor, r: Receipts): Context
    requires caseId in w.cases
  {
    var conflicts := Conflicts(r.accepted);
    var missing := floor.required - r.accepted.Keys;
    var groups := |Groups(r.accepted, floor.required)|;
    Context(caseId, w.cases[caseId].version, floor.required, missing, groups,
            r.rejected == map[] && conflicts == {} && missing == {} && groups >= floor.minGroups,
            conflicts, floor.required != {} || policy.Some?, floor, policy, r.accepted, r.rejected,
            SignalsOf(r.accepted, missing, r.rejected, conflicts))
  }

  /** The evidence of a case at an instant; a removed or weakened policy is refused. */
  function ContextOf(w: Workspace, desk: Config, caseId: Id, at: Time): Result<Context>
    requires caseId in w.cases
  {
    var policy := CasePolicyOf(w, desk, caseId);
    var floor :- EffectivePolicy(w.artifacts, caseId, policy);
    var receipts :- CurrentReceipts(w, caseId, at, desk.specs);
    Ok(ContextFrom(w, caseId, policy, floor, receipts))
  }

  method BuildContext(w: Workspace, desk: Config, caseId: Id, at: Time) returns (r: Result<Context>)
    requires caseId in w.cases
    ensures r == ContextOf(w, desk, caseId, at)
  {
    var policy := CasePolicyOf(w, desk, caseId);
    var owed := CollectObligations(w.artifacts, caseId);
    if owed.configured && policy.None? {
      return Err(SourcePolicyRemoved);
    }
    if policy.Some? && Weakened(w.artifacts, caseId, policy.value) {
      return Err(SourcePolicyWeakened);
    }
    var floor := Join(owed, PolicyFloor(policy));
    var receipts := CollectReceipts(w, caseId, at, desk.specs);
    if receipts.Err? {
      return Err(receipts.error);
    }
    var accepted, rejected := receipts.value.accepted, receipts.value.rejected;
    var conflicts := CollectConflicts(accepted);
    var missing := floor.required - accepted.Keys;
    var groups := |Groups(accepted, floor.required)|;
    var complete := rejected == map[] && conflicts == {} && missing == {} && groups >= floor.minGroups;
    var signals := CollectSignals(accepted, missing, rejected, conflicts);
    return Ok(Context(caseId, w.cases[caseId].version, floor.required, missing, groups, complete,
                      conflicts, floor.required != {} || policy.Some?, floor, policy, accepted, rejected, signals));
  }

  // A case with neither policy nor obligations is investigated without sources.
  predicate NeedsSources(w: Workspace, desk: Config, caseId: Id)
    requires caseId in w.cases
  {
    CasePolicyOf(w, desk, caseId).Some? || HasObligations(w.artifacts, caseId)
  }

  function ReportContext(w: Workspace, desk: Config, caseId: Id, at: Time): Result<Option<Context>>
    requires caseId in w.cases
  {
    if !NeedsSources(w, desk, caseId) then Ok(None)
    else
      var context :- ContextOf(w, desk, caseId, at);
      Ok(Some(context))
  }

  function EvidenceEvents(trace: seq<TraceEvent>): seq<TraceEvent> {
    if trace == [] then []
    else (if trace[0].EvidenceInspect? then [trace[0]] else []) + EvidenceEvents(trace[1..])
  }

  /** A report is valid evidence only if it quotes exactly the present, complete context. */
  function ValidateReport(w: Workspace, desk: Config, caseId: Id, report: ReportBody, at: Time): Result<()>
    requires caseId in w.cases
  {
    var context :- ReportContext(w, desk, caseId, at);
    if context.None? then Ok(())
    else if EvidenceEvents(report.trace) != [EvidenceInspect(context.value)] then Err(SourceReportStale)
    else if context.value.conflicts != {} then Err(SourceConflict)
    else if !context.value.complete then Err(SourceCoverageRequired)
    else Ok(())
  }

  /** A resolution must name the bundle of the present, complete context. */
  function ResolutionGate(w: Workspace, desk: Config, caseId: Id, evidence: Digest, at: Time): Result<()>
    requires caseId in w.cases
  {
    var context :- ReportContext(w, desk, caseId, at);
    if context.None? then Ok(())
    else if context.value.conflicts != {} then Err(SourceConflict)
    else if !context.value.complete || evidence != BundleRoot(context.value) then Err(CurrentEvidenceBundleRequired)
    else Ok(())
  }

  // Remembers the configured policy of a case, when there is a desk.
  function Remember(w: Workspace, desk: Option<Config>, caseId: Id, sources: set<Id>): Result<Workspace>
    requires caseId in w.cases
  {
    if desk.None? then Ok(w)
    else
      var artifacts :- RememberPolicy(w.artifacts, caseId, CasePolicyOf(w, desk.value, caseId), sources);
      Ok(w.(artifacts := artifacts))
  }

  /** Evidence is complete exactly when it has enough groups and no signal stands in its way. */
  lemma CompleteIffUnblocked(w: Workspace, desk: Config, caseId: Id, at: Time)
    requires caseId in w.cases && ContextOf(w, desk, caseId, at).Ok?
    ensures var c := ContextOf(w, desk, caseId, at).value;
      c.complete <==> c.groups >= c.floor.minGroups && forall x | x in c.signals :: !Blocking(x)
  {
    var c := ContextOf(w, desk, caseId, at).value;
    BlockingSignals(c.receipts, c.missing, c.rejected, c.conflicts);
  }

  // ----- What a passed gate establishes -----

  // Source s has a current head whose receipt is accepted now and is bound to this case version.
  ghost predicate Covered(w: Workspace, desk: Config, caseId: Id, at: Time, s: Id, receipt: Receipt)
    requires caseId in w.cases
  {
    var heads := EvidenceHeads(w, caseId);
    && heads.Ok? && s in heads.value
    && Judge(w, caseId, s, heads.value[s], at, desk.specs) == None
    && receipt == ReceiptOf(w, caseId, s, heads.value[s], at, desk.specs)
    && receipt.sourceId == s && receipt.expiresAt > at
    && receipt.caseId == caseId && receipt.caseVersion == w.cases[caseId].version
  }

  lemma AcceptedIsCovered(w: Workspace, desk: Config, caseId: Id, at: Time, s: Id)
    requires caseId in w.cases && CurrentReceipts(w, caseId, at, desk.specs).Ok?
    requires s in CurrentReceipts(w, caseId, at, desk.specs).value.accepted
    ensures Covered(w, desk, caseId, at, s, CurrentReceipts(w, caseId, at, desk.specs).value.accepted[s])
  {
  }

  /** A complete context has a usable, conflict-free receipt for each owed source, and enough groups. */
  lemma CompleteContextCovers(w: Workspace, desk: Config, caseId: Id, at: Time)
    requires caseId in w.cases && ContextOf(w, desk, caseId, at).Ok?
    requires ContextOf(w, desk, caseId, at).value.complete
    ensures var c := ContextOf(w, desk, caseId, at).value;
      var owed := Obligations(w.artifacts, caseId);
      && Below(owed, c.floor) && c.rejected == map[] && Agree(c.receipts)
      && |Groups(c.receipts, c.required)| >= owed.minGroups
      && forall s | s in owed.required :: s in c.receipts && Covered(w, desk, caseId, at, s, c.receipts[s])
  {
    var c := ContextOf(w, desk, caseId, at).value;
    NoConflictsIffAgree(c.receipts);
    var owed := Obligations(w.artifacts, caseId);
    var policy := CasePolicyOf(w, desk, caseId);
    assert c.floor == Join(owed, PolicyFloor(policy));
    forall s | s in owed.required
      ensures s in c.receipts && Covered(w, desk, caseId, at, s, c.receipts[s])
    {
      assert s in c.floor.required && s !in c.missing;
      AcceptedIsCovered(w, desk, caseId, at, s);
    }
  }
}
