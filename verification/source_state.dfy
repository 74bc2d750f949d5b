/** The current evidence of a case: heads, receipts and their disagreements. */
module SourceState {
  import opened Common
  import opened CaseworkModels

  predicate IsCurrentHead(a: Artifact, caseId: Id, version: nat) {
    a.HeadArtifact? && a.head.caseId == caseId && a.head.caseVersion == version
  }

  // Where the current heads of a case are stored.
  function HeadKeys(w: Workspace, caseId: Id): set<Key>
    requires caseId in w.cases
  {
    set k | k in w.artifacts && IsCurrentHead(w.artifacts[k], caseId, w.cases[caseId].version)
  }

  // Two current heads for one source: there is no authoritative one.
  predicate Ambiguous(w: Workspace, caseId: Id)
    requires caseId in w.cases
  {
    exists a, b | a in HeadKeys(w, caseId) && b in HeadKeys(w, caseId) ::
      a != b && w.artifacts[a].head.sourceId == w.artifacts[b].head.sourceId
  }

  function HeadSources(w: Workspace, caseId: Id): set<Id>
    requires caseId in w.cases
  {
    set k | k in HeadKeys(w, caseId) :: w.artifacts[k].head.sourceId
  }

  function HeadFor(w: Workspace, caseId: Id, sourceId: Id): SourceHead
    requires caseId in w.cases && !Ambiguous(w, caseId) && sourceId in HeadSources(w, caseId)
  {
    var k :| k in HeadKeys(w, caseId) && w.artifacts[k].head.sourceId == sourceId;
    w.artifacts[k].head
  }

  /** The current head of every source of a case. */
  function EvidenceHeads(w: Workspace, caseId: Id): Result<map<Id, SourceHead>>
    requires caseId in w.cases
  {
    if Ambiguous(w, caseId) then Err(SourceConflict)
    else Ok(map s | s in HeadSources(w, caseId) :: HeadFor(w, caseId, s))
  }

  predicate ReceiptBound(a: Artifact, caseId: Id, version: nat, sourceId: Id, head: SourceHead) {
    && a.ReceiptArtifact?
    && a.receipt.caseId == caseId && a.receipt.caseVersion == version
    && a.receipt.sourceId == sourceId && head.receiptId == Some(a.receipt.receiptId)
  }

  predicate SpecCurrent(w: Workspace, caseId: Id, sourceId: Id, receipt: Receipt, specs: map<Id, SourceSpec>)
    requires caseId in w.cases
  {
    && sourceId in specs && specs[sourceId].tenantId == w.tenantId
    && w.cases[caseId].scope.subject in specs[sourceId].subjects
    && receipt.spec == specs[sourceId]
  }

  predicate RequestBound(w: Workspace, caseId: Id, sourceId: Id, head: SourceHead, receipt: Receipt, spec: SourceSpec)
    requires caseId in w.cases
  {
    && RequestKey(head.requestId) in w.artifacts
    && var a := w.artifacts[RequestKey(head.requestId)];
    && a.RequestArtifact? && a.request.state == Observed
    && a.request.caseId == caseId && a.request.sourceId == sourceId
    && a.request.caseVersion == w.cases[caseId].version
    && a.request.receiptId == Some(receipt.receiptId)
    && a.request.resource == receipt.resource && a.request.spec == receipt.spec
    && receipt.group == spec.group
  }

  predicate FreshnessPlausible(receipt: Receipt, spec: SourceSpec, at: Time) {
    receipt.fetchedAt <= at && receipt.fetchedAt < receipt.expiresAt <= receipt.fetchedAt + spec.ttl * SECOND
  }

  /** Why the receipt behind a head cannot be used, if it cannot. */
  function Judge(w: Workspace, caseId: Id, sourceId: Id, head: SourceHead, at: Time,
                 specs: map<Id, SourceSpec>): Option<RejectReason>
    requires caseId in w.cases
  {
    if head.state != Observed || head.receiptId.None? || ReceiptKey(head.receiptId.value) !in w.artifacts then
      Some(NotObserved)
    else
      var a := w.artifacts[ReceiptKey(head.receiptId.value)];
      if !ReceiptBound(a, caseId, w.cases[caseId].version, sourceId, head) then Some(ReceiptBindingInvalid)
      else if !SpecCurrent(w, caseId, sourceId, a.receipt, specs) then Some(PolicyChanged)
      else if !RequestBound(w, caseId, sourceId, head, a.receipt, specs[sourceId]) then Some(RequestBindingInvalid)
      else if !FreshnessPlausible(a.receipt, specs[sourceId], at) then Some(FreshnessInvalid)
      else if a.receipt.expiresAt <= at then Some(Expired)
      else if a.root != a.receipt then Some(ReceiptCorrupt)
      else None
  }

  datatype Receipts = Receipts(accepted: map<Id, Receipt>, rejected: map<Id, RejectReason>)

  function ReceiptOf(w: Workspace, caseId: Id, sourceId: Id, head: SourceHead, at: Time,
                     specs: map<Id, SourceSpec>): Receipt
    requires caseId in w.cases && Judge(w, caseId, sourceId, head, at, specs) == None
  {
    w.artifacts[ReceiptKey(head.receiptId.value)].receipt
  }

  function SortReceipts(w: Workspace, caseId: Id, heads: map<Id, SourceHead>, at: Time,
                        specs: map<Id, SourceSpec>): Receipts
    requires caseId in w.cases
  {
    Receipts(
      map s | s in heads && Judge(w, caseId, s, heads[s], at, specs) == None ::
        ReceiptOf(w, caseId, s, heads[s], at, specs),
      map s | s in heads && Judge(w, caseId, s, heads[s], at, specs) != None ::
        Judge(w, caseId, s, heads[s], at, specs).value)
  }

  lemma SortReceiptsIs(w: Workspace, caseId: Id, heads: map<Id, SourceHead>, at: Time, specs: map<Id, SourceSpec>,
                       r: Receipts)
    requires caseId in w.cases
    requires forall s :: s in r.accepted <==> s in heads && Judge(w, caseId, s, heads[s], at, specs) == None
    requires forall s :: s in r.rejected <==> s in heads && Judge(w, caseId, s, heads[s], at, specs) != None
    requires forall s | s in r.accepted :: r.accepted[s] == ReceiptOf(w, caseId, s, heads[s], at, specs)
    requires forall s | s in r.rejected :: r.rejected[s] == Judge(w, caseId, s, heads[s], at, specs).value
    ensures r == SortReceipts(w, caseId, heads, at, specs)
  {
    var sorted := SortReceipts(w, caseId, heads, at, specs);
    assert r.accepted == sorted.accepted;
    assert r.rejected == sorted.rejected;
  }

  /** The receipts that can be used now, and the sources whose receipt cannot. */
  function CurrentReceipts(w: Workspace, caseId: Id, at: Time, specs: map<Id, SourceSpec>): Result<Receipts>
    requires caseId in w.cases
  {
    var heads :- EvidenceHeads(w, caseId);
    Ok(SortReceipts(w, caseId, heads, at, specs))
  }

  // ----- Disagreements between receipts -----

  predicate Claims(receipt: Receipt, resource: Id, field: Field) {
    receipt.resource.folded == resource && field.Stable? && field in receipt.observation.facts
  }

  function ClaimKeys(receipts: map<Id, Receipt>): set<(Id, Field)> {
    set s, f | s in receipts && f in receipts[s].observation.facts && f.Stable? ::
      (receipts[s].resource.folded, f)
  }

  function ClaimValues(receipts: map<Id, Receipt>, resource: Id, field: Field): set<FactValue> {
    set s | s in receipts && Claims(receipts[s], resource, field) :: receipts[s].observation.facts[field]
  }

  function ClaimSources(receipts: map<Id, Receipt>, resource: Id, field: Field): set<Id> {
    set s | s in receipts && Claims(receipts[s], resource, field)
  }

  function Conflicts(receipts: map<Id, Receipt>): set<Conflict> {
    set c | c in ClaimKeys(receipts) && |ClaimValues(receipts, c.0, c.1)| > 1 ::
      Conflict(c.0, c.1, ClaimSources(receipts, c.0, c.1), ClaimValues(receipts, c.0, c.1))
  }

  // Receipt s is about a resource and states a field of it.
  ghost predicate Says(receipts: map<Id, Receipt>, s: Id, resource: Id, f: Field) {
    s in receipts && receipts[s].resource.folded == resource && f in receipts[s].observation.facts
  }

  // Any two receipts about one resource agree on every field they both state, but for the two that are meant to move.
  ghost predicate Agree(receipts: map<Id, Receipt>) {
    forall s, t, f | s in receipts && t in receipts && f in receipts[s].observation.facts && f in receipts[t].observation.facts ::
      receipts[s].resource.folded == receipts[t].resource.folded && f != UpdatedAt && f != Confirmations
      ==> receipts[s].observation.facts[f] == receipts[t].observation.facts[f]
  }

  lemma SmallSet(s: set<FactValue>)
    ensures |s| > 1 <==> exists x, y :: x in s && y in s && x != y
  {
    if |s| > 1 {
      var x :| x in s;
      assert |s - {x}| == |s| - 1;
      var y :| y in s - {x};
    }
    if x, y :| x in s && y in s && x != y {
      assert {x, y} <= s;
      assert |s - {x, y}| == |s| - 2;
    }
  }

  /**
   The reported conflicts: a stable field of a resource with more than one stated value, listing exactly the sources
   that state it and exactly the values they state.
   */
  lemma ConflictsSay(receipts: map<Id, Receipt>, c: Conflict)
    ensures c in Conflicts(receipts) <==>
      && c.field != UpdatedAt && c.field != Confirmations
      && (forall s :: s in c.sources <==> Says(receipts, s, c.resource, c.field))
      && (forall x :: x in c.values <==>
            exists s :: Says(receipts, s, c.resource, c.field) && receipts[s].observation.facts[c.field] == x)
      && exists x, y :: x in c.values && y in c.values && x != y
  {
    var sources, values := ClaimSources(receipts, c.resource, c.field), ClaimValues(receipts, c.resource, c.field);
    SmallSet(values);
    if c.field != UpdatedAt && c.field != Confirmations {
      assert forall s :: s in sources <==> Says(receipts, s, c.resource, c.field);
      assert forall x :: x in values <==>
        exists s :: Says(receipts, s, c.resource, c.field) && receipts[s].observation.facts[c.field] == x;
      if x :| x in values {
        var s :| Says(receipts, s, c.resource, c.field) && receipts[s].observation.facts[c.field] == x;
        assert (c.resource, c.field) in ClaimKeys(receipts);
      }
      if (forall s :: s in c.sources <==> s in sources) && (forall x :: x in c.values <==> x in values) {
        assert c.sources == sources && c.values == values;
      }
    }
  }

  lemma DisagreementConflicts(receipts: map<Id, Receipt>, s: Id, t: Id, f: Field)
    requires s in receipts && Says(receipts, s, receipts[s].resource.folded, f) && Says(receipts, t, receipts[s].resource.folded, f)
    requires f != UpdatedAt && f != Confirmations
    requires receipts[s].observation.facts[f] != receipts[t].observation.facts[f]
    ensures Conflicts(receipts) != {}
  {
    var r := receipts[s].resource.folded;
    var c := Conflict(r, f, ClaimSources(receipts, r, f), ClaimValues(receipts, r, f));
    assert receipts[s].observation.facts[f] in c.values && receipts[t].observation.facts[f] in c.values;
    assert (r, f) in ClaimKeys(receipts);
    SmallSet(c.values);
    assert c in Conflicts(receipts);
  }

  lemma ConflictDisagrees(receipts: map<Id, Receipt>, c: Conflict)
    requires c in Conflicts(receipts)
    ensures !Agree(receipts)
  {
    ConflictsSay(receipts, c);
    var x, y :| x in c.values && y in c.values && x != y;
    var s :| Says(receipts, s, c.resource, c.field) && receipts[s].observation.facts[c.field] == x;
    var t :| Says(receipts, t, c.resource, c.field) && receipts[t].observation.facts[c.field] == y;
  }

  /** No conflict is reported exactly when the receipts agree. */
  lemma NoConflictsIffAgree(receipts: map<Id, Receipt>)
    ensures Conflicts(receipts) == {} <==> Agree(receipts)
  {
    if !Agree(receipts) {
      var s, t, f :| s in receipts && t in receipts
        && f in receipts[s].observation.facts && f in receipts[t].observation.facts
        && receipts[s].resource.folded == receipts[t].resource.folded && f != UpdatedAt && f != Confirmations
        && receipts[s].observation.facts[f] != receipts[t].observation.facts[f];
      DisagreementConflicts(receipts, s, t, f);
    }
    if c :| c in Conflicts(receipts) {
      ConflictDisagrees(receipts, c);
    }
  }

  // ----- The same, as the loops that fill the dictionaries -----

  method CollectHeads(w: Workspace, caseId: Id) returns (r: Result<map<Id, SourceHead>>)
    requires caseId in w.cases
    ensures r == EvidenceHeads(w, caseId)
  {
    var heads: map<Id, SourceHead> := map[];
    var rest := w.artifacts.Keys;
    ghost var done: set<Key> := {};
    ghost var at: map<Id, Key> := map[];
    var version := w.cases[caseId].version;
    while rest != {}
      invariant done + rest == w.artifacts.Keys && done !! rest
      invariant at.Keys == heads.Keys
      invariant forall s | s in at ::
        && at[s] in done && at[s] in HeadKeys(w, caseId)
        && w.artifacts[at[s]].head.sourceId == s && w.artifacts[at[s]].head == heads[s]
      invariant forall k | k in done && k in HeadKeys(w, caseId) ::
        w.artifacts[k].head.sourceId in at && at[w.artifacts[k].head.sourceId] == k
      decreases rest
    {
      var k :| k in rest;
      if IsCurrentHead(w.artifacts[k], caseId, version) {
        var head := w.artifacts[k].head;
        if head.sourceId in heads {
          assert k in HeadKeys(w, caseId) && at[head.sourceId] in HeadKeys(w, caseId);
          return Err(SourceConflict);
        }
        heads := heads[head.sourceId := head];
        at := at[head.sourceId := k];
      }
      rest := rest - {k};
      done := done + {k};
    }
    assert done == w.artifacts.Keys;
    assert !Ambiguous(w, caseId);
    assert heads.Keys == HeadSources(w, caseId);
    assert heads == map s | s in HeadSources(w, caseId) :: HeadFor(w, caseId, s);
    return Ok(heads);
  }

  method CollectReceipts(w: Workspace, caseId: Id, at: Time, specs: map<Id, SourceSpec>) returns (r: Result<Receipts>)
    requires caseId in w.cases
    ensures r == CurrentReceipts(w, caseId, at, specs)
  {
    var heads := CollectHeads(w, caseId);
    if heads.Err? {
      return Err(heads.error);
    }
    var accepted: map<Id, Receipt>, rejected: map<Id, RejectReason> := map[], map[];
    var rest := heads.value.Keys;
    ghost var done: set<Id> := {};
    while rest != {}
      invariant done + rest == heads.value.Keys && done !! rest
      invariant forall s :: s in accepted <==> s in done && Judge(w, caseId, s, heads.value[s], at, specs) == None
      invariant forall s :: s in rejected <==> s in done && Judge(w, caseId, s, heads.value[s], at, specs) != None
      invariant forall s | s in accepted :: accepted[s] == ReceiptOf(w, caseId, s, heads.value[s], at, specs)
      invariant forall s | s in rejected :: rejected[s] == Judge(w, caseId, s, heads.value[s], at, specs).value
      decreases rest
    {
      var s :| s in rest;
      var reason := Judge(w, caseId, s, heads.value[s], at, specs);
      if reason.Some? {
        rejected := rejected[s := reason.value];
      } else {
        accepted := accepted[s := ReceiptOf(w, caseId, s, heads.value[s], at, specs)];
      }
      rest := rest - {s};
      done := done + {s};
    }
    assert done == heads.value.Keys;
    r := Ok(Receipts(accepted, rejected));
    SortReceiptsIs(w, caseId, heads.value, at, specs, r.value);
  }

  datatype Claim = Claim(resource: Id, field: Field, value: FactValue)

  // Every value claimed of a field of a resource, with the sources that claim it.
  type ClaimTable = map<Claim, set<Id>>

  function AddClaim(claims: ClaimTable, c: Claim, sourceId: Id): ClaimTable {
    var sources: set<Id> := if c in claims then claims[c] else {};
    claims[c := sources + {sourceId}]
  }

  ghost predicate States(receipts: map<Id, Receipt>, s: Id, c: Claim) {
    s in receipts && Claims(receipts[s], c.resource, c.field) && receipts[s].observation.facts[c.field] == c.value
  }

  // The table holds the claims of the (source, field) pairs seen so far.
  ghost predicate Tabulates(claims: ClaimTable, receipts: map<Id, Receipt>, seen: set<(Id, Field)>) {
    && (forall c, s :: (c in claims && s in claims[c]) <==> ((s, c.field) in seen && States(receipts, s, c)))
    && (forall c | c in claims :: claims[c] != {})
  }

  function TableKeys(claims: ClaimTable): set<(Id, Field)> {
    set c | c in claims :: (c.resource, c.field)
  }

  function TableValues(claims: ClaimTable, resource: Id, field: Field): set<FactValue> {
    set c | c in claims && c.resource == resource && c.field == field :: c.value
  }

  function TableSources(claims: ClaimTable, resource: Id, field: Field): set<Id> {
    set c, s | c in claims && s in claims[c] && c.resource == resource && c.field == field :: s
  }

  function TableConflicts(claims: ClaimTable): set<Conflict> {
    set k | k in TableKeys(claims) && |TableValues(claims, k.0, k.1)| > 1 ::
      Conflict(k.0, k.1, TableSources(claims, k.0, k.1), TableValues(claims, k.0, k.1))
  }

  lemma TableRowExact(claims: ClaimTable, receipts: map<Id, Receipt>, seen: set<(Id, Field)>, resource: Id,
                      field: Field)
    requires Tabulates(claims, receipts, seen)
    requires forall s, f | s in receipts && f in receipts[s].observation.facts :: (s, f) in seen
    ensures TableSources(claims, resource, field) == ClaimSources(receipts, resource, field)
    ensures TableValues(claims, resource, field) == ClaimValues(receipts, resource, field)
    ensures (resource, field) in TableKeys(claims) <==> (resource, field) in ClaimKeys(receipts)
  {
    forall s | s in ClaimSources(receipts, resource, field)
      ensures s in TableSources(claims, resource, field)
      ensures receipts[s].observation.facts[field] in TableValues(claims, resource, field)
    {
      var c := Claim(resource, field, receipts[s].observation.facts[field]);
      assert States(receipts, s, c) && (s, c.field) in seen;
    }
    forall c | c in claims && c.resource == resource && c.field == field
      ensures claims[c] <= ClaimSources(receipts, resource, field)
      ensures c.value in ClaimValues(receipts, resource, field)
    {
      var s :| s in claims[c];
      assert States(receipts, s, c);
    }
    if (resource, field) in TableKeys(claims) {
      var c :| c in claims && c.resource == resource && c.field == field;
      var s :| s in claims[c];
      assert States(receipts, s, c);
    }
    if (resource, field) in ClaimKeys(receipts) {
      var s :| s in receipts && Claims(receipts[s], resource, field);
      var c := Claim(resource, field, receipts[s].observation.facts[field]);
      assert States(receipts, s, c) && (s, c.field) in seen;
    }
  }

  lemma TableConflictsExact(claims: ClaimTable, receipts: map<Id, Receipt>, seen: set<(Id, Field)>)
    requires Tabulates(claims, receipts, seen)
    requires forall s, f | s in receipts && f in receipts[s].observation.facts :: (s, f) in seen
    ensures TableConflicts(claims) == Conflicts(receipts)
  {
    forall k: (Id, Field)
      ensures TableSources(claims, k.0, k.1) == ClaimSources(receipts, k.0, k.1)
      ensures TableValues(claims, k.0, k.1) == ClaimValues(receipts, k.0, k.1)
      ensures k in TableKeys(claims) <==> k in ClaimKeys(receipts)
    {
      TableRowExact(claims, receipts, seen, k.0, k.1);
    }
  }

  /** Tabulates every stable claim and reports the fields with more than one value. */
  method CollectConflicts(receipts: map<Id, Receipt>) returns (conflicts: set<Conflict>)
    ensures conflicts == Conflicts(receipts)
  {
    var claims: ClaimTable := map[];
    ghost var seen: set<(Id, Field)> := {};
    var sources := receipts.Keys;
    while sources != {}
      invariant sources <= receipts.Keys
      invariant Tabulates(claims, receipts, seen)
      invariant forall s, f :: (s, f) in seen <==>
        s in receipts && s !in sources && f in receipts[s].observation.facts
      decreases sources
    {
      var s :| s in sources;
      var fields := receipts[s].observation.facts.Keys;
      while fields != {}
        invariant fields <= receipts[s].observation.facts.Keys
        invariant Tabulates(claims, receipts, seen)
        invariant forall t, f :: (t, f) in seen <==>
          t in receipts && f in receipts[t].observation.facts && (t !in sources || (t == s && f !in fields))
        decreases fields
      {
        var f :| f in fields;
        if f.Stable? {
          claims := AddClaim(claims, Claim(receipts[s].resource.folded, f, receipts[s].observation.facts[f]), s);
        }
        seen := seen + {(s, f)};
        fields := fields - {f};
      }
      sources := sources - {s};
    }
    TableConflictsExact(claims, receipts, seen);
    conflicts := TableConflicts(claims);
  }
}
