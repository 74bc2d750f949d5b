/** What a case owes its sources: obligations are read from what was ever stored. */
module SourceGuard {
  import opened Common
  import opened CaseworkModels

  const NO_FLOOR := Floor({}, 0, false)

  function Max(a: nat, b: nat): nat {
    if a < b then b else a
  }

  function Join(a: Floor, b: Floor): Floor {
    Floor(a.required + b.required, Max(a.minGroups, b.minGroups), a.configured || b.configured)
  }

  // The order in which obligations grow.
  predicate Below(a: Floor, b: Floor) {
    a.required <= b.required && a.minGroups <= b.minGroups && (a.configured ==> b.configured)
  }

  // What one stored artifact obliges a case to.
  function Contribution(a: Artifact, caseId: Id): Floor {
    match a
    case GuardArtifact(c, floor, _) => if c == caseId then floor else NO_FLOOR
    case RequestArtifact(request) =>
      if request.caseId == caseId then Floor({request.sourceId}, 0, false) else NO_FLOOR
    case HeadArtifact(head) =>
      if head.caseId == caseId then Floor({head.sourceId}, 0, false) else NO_FLOOR
    case ReceiptArtifact(receipt, _) =>
      if receipt.caseId == caseId then Floor({receipt.sourceId}, 0, false) else NO_FLOOR
    case BundleArtifact(_, c, _, bundle) =>
      if c != caseId then NO_FLOOR
      else Floor(bundle.required + bundle.receipts.Keys,
                 if bundle.floor.configured then bundle.floor.minGroups else 0,
                 bundle.floor.configured)
    case _ => NO_FLOOR
  }

  lemma {:induction false} HasMaximum(s: set<nat>)
    requires s != {}
    ensures exists m :: m in s && forall x | x in s :: x <= m
  {
    var y :| y in s;
    var rest := s - {y};
    assert s == rest + {y};
    if rest == {} {
      assert forall x | x in s :: x <= y;
    } else {
      HasMaximum(rest);
      var m :| m in rest && forall x | x in rest :: x <= m;
      var top := Max(m, y);
      assert top in s && forall x | x in s :: x <= top;
    }
  }

  function Maximum(s: set<nat>): (m: nat)
    requires s != {}
    ensures m in s && forall x | x in s :: x <= m
  {
    HasMaximum(s);
    var m :| m in s && forall x | x in s :: x <= m;
    m
  }

  /** Everything the stored artifacts oblige a case to. */
  function Obligations(artifacts: map<Key, Artifact>, caseId: Id): Floor {
    Floor(
      set k, s | k in artifacts && s in Contribution(artifacts[k], caseId).required :: s,
      Maximum({0} + set k | k in artifacts :: Contribution(artifacts[k], caseId).minGroups),
      exists k | k in artifacts :: Contribution(artifacts[k], caseId).configured)
  }

  lemma ContributionBelow(artifacts: map<Key, Artifact>, caseId: Id, k: Key)
    requires k in artifacts
    ensures Below(Contribution(artifacts[k], caseId), Obligations(artifacts, caseId))
  {
    var groups := set j | j in artifacts :: Contribution(artifacts[j], caseId).minGroups;
    assert Contribution(artifacts[k], caseId).minGroups in groups;
  }

  // Obligations are the least floor above every contribution.
  lemma ObligationsLeast(artifacts: map<Key, Artifact>, caseId: Id, f: Floor)
    requires forall k | k in artifacts :: Below(Contribution(artifacts[k], caseId), f)
    ensures Below(Obligations(artifacts, caseId), f)
  {
  }

  lemma BelowAntisymmetric(a: Floor, b: Floor)
    requires Below(a, b) && Below(b, a)
    ensures a == b
  {
  }

  function HasObligations(artifacts: map<Key, Artifact>, caseId: Id): bool {
    var floor := Obligations(artifacts, caseId);
    floor.required != {} || floor.configured
  }

  function Guard(artifacts: map<Key, Artifact>, caseId: Id): Option<Artifact> {
    if GuardKey(caseId) in artifacts && artifacts[GuardKey(caseId)].GuardArtifact?
    then Some(artifacts[GuardKey(caseId)]) else None
  }

  // A guard that records a configured policy, which the present policy no longer meets.
  predicate Weakened(artifacts: map<Key, Artifact>, caseId: Id, policy: SourcePolicy) {
    var guard := Guard(artifacts, caseId);
    guard.Some? && guard.value.floor.configured &&
    (!(guard.value.configuredSources <= policy.required) || policy.minGroups < guard.value.floor.minGroups)
  }

  function PolicyFloor(policy: Option<SourcePolicy>): Floor {
    if policy.Some? then Floor(policy.value.required, policy.value.minGroups, true) else NO_FLOOR
  }

  function EffectivePolicy(artifacts: map<Key, Artifact>, caseId: Id, policy: Option<SourcePolicy>): Result<Floor> {
    var floor := Obligations(artifacts, caseId);
    if floor.configured && policy.None? then Err(SourcePolicyRemoved)
    else if policy.Some? && Weakened(artifacts, caseId, policy.value) then Err(SourcePolicyWeakened)
    else Ok(Join(floor, PolicyFloor(policy)))
  }

  function RememberPolicy(artifacts: map<Key, Artifact>, caseId: Id, policy: Option<SourcePolicy>, sources: set<Id>)
    : Result<map<Key, Artifact>>
  {
    var effective :- EffectivePolicy(artifacts, caseId, policy);
    var floor := effective.(required := effective.required + sources);
    if floor.required == {} && !floor.configured then Ok(artifacts)
    else
      var guard := Guard(artifacts, caseId);
      var configured := (if guard.Some? then guard.value.configuredSources else {}) + PolicyFloor(policy).required;
      Ok(artifacts[GuardKey(caseId) := GuardArtifact(caseId, floor, configured)])
  }

  // The desk is needed once a case has obligations, or a report quotes evidence.
  function RequireDesk(artifacts: map<Key, Artifact>, caseId: Id, desk: Option<Config>,
                       quotesEvidence: bool): Result<()>
  {
    if desk.None? && (quotesEvidence || HasObligations(artifacts, caseId)) then Err(SourceGuardUnavailable) else Ok(())
  }

  // ----- Growth -----

  // Nothing a later state stores obliges less than what the earlier one stored.
  ghost predicate Retains(before: map<Key, Artifact>, after: map<Key, Artifact>, caseId: Id) {
    forall k | k in before :: k in after && Below(Contribution(before[k], caseId), Contribution(after[k], caseId))
  }

  lemma RetainsGrows(before: map<Key, Artifact>, after: map<Key, Artifact>, caseId: Id)
    requires Retains(before, after, caseId)
    ensures Below(Obligations(before, caseId), Obligations(after, caseId))
  {
    forall k | k in before
      ensures Below(Contribution(before[k], caseId), Obligations(after, caseId))
    {
      ContributionBelow(after, caseId, k);
    }
    ObligationsLeast(before, caseId, Obligations(after, caseId));
  }

  // A guard is only ever stored under its own case's key.
  ghost predicate GuardsKeyed(artifacts: map<Key, Artifact>) {
    forall c | GuardKey(c) in artifacts :: artifacts[GuardKey(c)].GuardArtifact? && artifacts[GuardKey(c)].caseId == c
  }

  /** Remembering a policy, whatever it is and whichever sources are added, weakens no case's obligations. */
  lemma RememberPolicyRetains(artifacts: map<Key, Artifact>, caseId: Id, policy: Option<SourcePolicy>,
                              sources: set<Id>, other: Id)
    requires GuardsKeyed(artifacts)
    requires RememberPolicy(artifacts, caseId, policy, sources).Ok?
    ensures var after := RememberPolicy(artifacts, caseId, policy, sources).value;
      && GuardsKeyed(after) && Retains(artifacts, after, other)
      && sources <= Obligations(after, caseId).required
      && Below(PolicyFloor(policy), Obligations(after, caseId))
  {
    var after := RememberPolicy(artifacts, caseId, policy, sources).value;
    if GuardKey(caseId) in artifacts {
      ContributionBelow(artifacts, caseId, GuardKey(caseId));
    }
    if after != artifacts {
      ContributionBelow(after, caseId, GuardKey(caseId));
    } else if GuardKey(caseId) in artifacts {
      RetainsGrows(artifacts, after, caseId);
    }
    assert policy.None? ==> PolicyFloor(policy) == NO_FLOOR;
  }

  // ----- The same, as the loop over the stored artifacts -----

  method CollectObligations(artifacts: map<Key, Artifact>, caseId: Id) returns (floor: Floor)
    ensures floor == Obligations(artifacts, caseId)
  {
    var ids: set<Id>, groups: nat, configured := {}, 0, false;
    var rest := artifacts.Keys;
    ghost var done: set<Key> := {};
    while rest != {}
      invariant done + rest == artifacts.Keys && done !! rest
      invariant forall k | k in done :: Below(Contribution(artifacts[k], caseId), Floor(ids, groups, configured))
      invariant forall s | s in ids :: exists k :: k in done && s in Contribution(artifacts[k], caseId).required
      invariant groups == 0 || exists k :: k in done && Contribution(artifacts[k], caseId).minGroups == groups
      invariant configured ==> exists k :: k in done && Contribution(artifacts[k], caseId).configured
      decreases rest
    {
      var k :| k in rest;
      var c := Contribution(artifacts[k], caseId);
      ids := ids + c.required;
      groups := Max(groups, c.minGroups);
      configured := configured || c.configured;
      rest := rest - {k};
      done := done + {k};
    }
    floor := Floor(ids, groups, configured);
    assert done == artifacts.Keys;
    ObligationsLeast(artifacts, caseId, floor);
    assert Below(floor, Obligations(artifacts, caseId)) by {
      forall k | k in artifacts
        ensures Below(Contribution(artifacts[k], caseId), Obligations(artifacts, caseId))
      {
        ContributionBelow(artifacts, caseId, k);
      }
    }
    BelowAntisymmetric(floor, Obligations(artifacts, caseId));
  }
}
