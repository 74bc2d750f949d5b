/** Observing, deciding and finalizing against the hash-chained memory, one locked operation at a time. */
module Guard {
  import opened Common
  import opened GuardModels
  import opened GuardPolicy
  import opened GuardMemory
  import opened GuardFinality

  // ----- Observing -----

  function SubjectOf(m: Memory, ref: Id): SubjectMemory {
    if ref in m.subjects then m.subjects[ref] else EmptySubject(ref)
  }

  function StoredFor(ref: Id, s: SubjectMemory, o: Observation, id: Id): StoredObservation {
    var c := ClassificationOf(o);
    var payload := Payload(
      id, ref, o.sessionId, o.kind, o.sourceId, o.mode, c.status, c.accepted, c.quarantined, c.notes,
      if o.text.Some? then Some(o.text.value.digest) else None, o.key, o.observedAt,
      if s.version > 0 then s.root else Zero);
    StoredObservation(payload, Of(payload))
  }

  // The stored observation answers for the same request.
  predicate SameRequest(x: StoredObservation, o: Observation) {
    var c := ClassificationOf(o);
    && x.payload.kind == o.kind && x.payload.sourceId == o.sourceId && x.payload.mode == o.mode
    && x.payload.facts == c.accepted && x.payload.quarantined == c.quarantined && x.payload.notes == c.notes
    && x.payload.text == if o.text.Some? then Some(o.text.value.digest) else None
  }

  function ReceiptOf(x: StoredObservation, s: SubjectMemory): Receipt {
    Receipt(x.payload.observationId, x.payload.status, x.payload.facts.Keys, x.payload.quarantined, s.version, s.root)
  }

  // The first observation stored under an idempotency key.
  function FindKey(items: seq<StoredObservation>, key: Id): (r: Option<StoredObservation>)
    ensures r.Some? ==> r.value in items && r.value.payload.key == key
    ensures r.None? ==> forall x | x in items :: x.payload.key != key
  {
    if items == [] then None
    else if items[0].payload.key == key then Some(items[0])
    else FindKey(items[1..], key)
  }

  function Remembered(ref: Id, s: SubjectMemory, o: Observation, id: Id): SubjectMemory {
    var x := StoredFor(ref, s, o, id);
    SubjectMemory(ref, s.version + 1, x.hash, s.observations + [x])
  }

  datatype Observed = Observed(answer: Answer<Receipt>, memory: Memory)

  /** One observation: refused, recognised as a repetition, or appended to its subject's chain. */
  function Observe(m: Memory, o: Observation, id: Id): Observed {
    var s := SubjectOf(m, o.subjectId);
    if !o.wellFormed then Observed(Refused(Malformed), m)
    else if !ValidSubject(s) then Observed(Refused(Integrity), m)
    else match FindKey(s.observations, o.key)
      case Some(x) => Observed(if SameRequest(x, o) then Done(ReceiptOf(x, s)) else Refused(Conflict), m)
      case None =>
        var after := Remembered(o.subjectId, s, o, id);
        if !ValidSubject(after) then Observed(Refused(Integrity), m)
        else Observed(Done(ReceiptOf(StoredFor(o.subjectId, s, o, id), after)), m.(subjects := m.subjects[o.subjectId := after]))
  }

  // ----- Deciding -----

  predicate CrossSession(x: StoredObservation, causal: seq<Id>, session: Id) {
    x.payload.observationId in causal && x.payload.sessionId != session
  }

  // Some cause of the verdict was remembered in another session.
  predicate Crosses(items: seq<StoredObservation>, causal: seq<Id>, session: Id) {
    exists i | 0 <= i < |items| :: CrossSession(items[i], causal, session)
  }

  method AnyCrosses(items: seq<StoredObservation>, causal: seq<Id>, session: Id) returns (found: bool)
    ensures found <==> Crosses(items, causal, session)
  {
    for i := 0 to |items|
      invariant forall j | 0 <= j < i :: !CrossSession(items[j], causal, session)
    {
      if CrossSession(items[i], causal, session) {
        return true;
      }
    }
    return false;
  }

  function DraftFor(s: SubjectMemory, i: Intent, id: Id, nonce: Id, policy: Id, now: Time, ttl: Time): DecisionDraft {
    var p := Decide(i, s.observations, now);
    var draft := DecisionDraft(
      id, i.subjectId, i.sessionId, p.verdict, p.reasons, p.causal,
      Crosses(s.observations, p.causal, i.sessionId),
      s.version, s.root, policy, i, HashOfIntent(i), None, nonce, now, now + ttl);
    draft.(proofRoot := Some(ProofOf(draft)))
  }

  datatype Drafted = Drafted(answer: Answer<DecisionDraft>, memory: Memory)

  /** One decision, bound to the memory it was made on. */
  function DecideOn(m: Memory, i: Intent, id: Id, nonce: Id, policy: Id, now: Time, ttl: Time): Drafted {
    var s := SubjectOf(m, i.subjectId);
    if !i.wellFormed then Drafted(Refused(Malformed), m)
    else if !ValidSubject(s) then Drafted(Refused(Integrity), m)
    else
      var d := DraftFor(s, i, id, nonce, policy, now, ttl);
      Drafted(Done(d), m.(decisions := m.decisions[id := d]))
  }

  // ----- Finalizing -----

  /** A decision can be finalized while it is intact, live, under the same policy and, if READY, about unchanged memory. */
  function Finalizable(m: Memory, id: Id, policy: Id, now: Time): Answer<DecisionDraft> {
    if id !in m.decisions then Refused(NotFound)
    else
      var d := m.decisions[id];
      if !ValidDecision(d) then Refused(Integrity)
      else if now >= d.expiresAt then Refused(DraftExpired)
      else if d.policy != policy then Refused(PolicyChangedSince)
      else if d.verdict == Ready && d.subjectRef !in m.subjects then Refused(SubjectGone)
      else if d.verdict == Ready && !ValidSubject(m.subjects[d.subjectRef]) then Refused(Integrity)
      else if d.verdict == Ready
              && (m.subjects[d.subjectRef].version != d.version || m.subjects[d.subjectRef].root != d.root) then
        Refused(MemoryChanged)
      else Done(d)
  }

  datatype Finalized = Finalized(answer: Answer<Finalization>, memory: Memory)

  function WithRecord(m: Memory, saved: Option<Finalization>): Memory {
    if saved.Some? then m.(finalizations := m.finalizations[saved.value.decisionId := saved.value]) else m
  }

  function FinalizeOn(m: Memory, id: Id, q: Request, policy: Id, now: Time): Finalized {
    match Finalizable(m, id, policy, now)
    case Refused(e) => Finalized(Refused(e), m)
    case Done(d) =>
      var step := Finalize(d, Lookup(m.finalizations, id), q);
      Finalized(step.answer, WithRecord(m, step.saved))
  }

  function Inspect(m: Memory, id: Id): Answer<Finalization> {
    if id !in m.decisions then Refused(NotFound)
    else if !ValidDecision(m.decisions[id]) then Refused(Integrity)
    else if id !in m.finalizations then Refused(NotFound)
    else if !Matches(m.finalizations[id], m.decisions[id]) then Refused(Integrity)
    else Done(m.finalizations[id])
  }

  // ----- The guard, over its store -----

  class MemoryGuard {
    const memory: InMemoryAdapter
    const policy: Id
    const ttl: Time

    constructor (memory: InMemoryAdapter, policy: Id, ttl: Time)
      requires 30 * SECOND <= ttl <= 3600 * SECOND
      ensures this.memory == memory && this.policy == policy && this.ttl == ttl
    {
      this.memory, this.policy, this.ttl := memory, policy, ttl;
    }

    method ObserveOne(o: Observation, id: Id) returns (r: Answer<Receipt>)
      modifies memory
      ensures Observed(r, memory.Snapshot()) == Observe(old(memory.Snapshot()), o, id)
    {
      if !o.wellFormed {
        return Refused(Malformed);
      }
      var s := SubjectOf(memory.Snapshot(), o.subjectId);
      var valid := ValidateSubject(s);
      if !valid {
        return Refused(Integrity);
      }
      var c := Classify(o);
      var duplicate := FindKey(s.observations, o.key);
      if duplicate.Some? {
        var x := duplicate.value;
        if !SameRequest(x, o) {
          return Refused(Conflict);
        }
        return Done(ReceiptOf(x, s));
      }
      var payload := Payload(
        id, o.subjectId, o.sessionId, o.kind, o.sourceId, o.mode, c.status, c.accepted, c.quarantined, c.notes,
        if o.text.Some? then Some(o.text.value.digest) else None, o.key, o.observedAt,
        if s.version > 0 then s.root else Zero);
      var x := StoredObservation(payload, Of(payload));
      var updated := SubjectMemory(o.subjectId, s.version + 1, x.hash, s.observations + [x]);
      var fit := ValidateSubject(updated);
      if !fit {
        return Refused(Integrity);
      }
      var committed := memory.CommitObservation(s.version, updated);
      // Under the lock, the version that was read is still the stored one.
      assert committed == Done(());
      return Done(ReceiptOf(x, updated));
    }

    method DecideOne(i: Intent, id: Id, nonce: Id, now: Time) returns (r: Answer<DecisionDraft>)
      modifies memory
      ensures Drafted(r, memory.Snapshot()) == DecideOn(old(memory.Snapshot()), i, id, nonce, policy, now, ttl)
    {
      if !i.wellFormed {
        return Refused(Malformed);
      }
      var s := SubjectOf(memory.Snapshot(), i.subjectId);
      var valid := ValidateSubject(s);
      if !valid {
        return Refused(Integrity);
      }
      var p := DecidePolicy(i, s.observations, now);
      var cross := AnyCrosses(s.observations, p.causal, i.sessionId);
      var draft := DecisionDraft(
        id, i.subjectId, i.sessionId, p.verdict, p.reasons, p.causal, cross, s.version, s.root, policy,
        i, HashOfIntent(i), None, nonce, now, now + ttl);
      draft := draft.(proofRoot := Some(ProofOf(draft)));
      memory.SaveDecision(draft);
      return Done(draft);
    }

    method FinalizeOne(id: Id, q: Request, now: Time) returns (r: Answer<Finalization>)
      modifies memory
      ensures Finalized(r, memory.Snapshot()) == FinalizeOn(old(memory.Snapshot()), id, q, policy, now)
    {
      if id !in memory.decisions {
        return Refused(NotFound);
      }
      var d := memory.decisions[id];
      if !ValidDecision(d) {
        return Refused(Integrity);
      }
      if now >= d.expiresAt {
        return Refused(DraftExpired);
      }
      if d.policy != policy {
        return Refused(PolicyChangedSince);
      }
      if d.verdict == Ready {
        if d.subjectRef !in memory.subjects {
          return Refused(SubjectGone);
        }
        var current := memory.subjects[d.subjectRef];
        var valid := ValidateSubject(current);
        if !valid {
          return Refused(Integrity);
        }
        if current.version != d.version || current.root != d.root {
          return Refused(MemoryChanged);
        }
      }
      var existing := Lookup(memory.finalizations, id);
      if existing.Some? {
        var f := existing.value;
        if !Matches(f, d) {
          return Refused(Integrity);
        }
        if f.state in {Verified, LocalFinalized, Failed} {
          if f.state == Verified && q.tx.Some? && q.tx != BoundTx(f) {
            return Refused(OtherTransaction);
          }
          return Done(f);
        }
        if f.state == Pending && q.tx.Some? && f.verification.Some? && q.tx != BoundTx(f) {
          return Refused(OtherTransaction);
        }
        if q.tx.None? {
          return Done(f);
        }
      }
      var result;
      if q.tx.Some? {
        var executable := d.verdict == Ready && q.verification.state == Verified;
        var notes := set n | n in q.verification.notes :: AnchorNote(n);
        if executable {
          notes := notes + {ExecutionNotImplemented};
          executable := false;
        }
        result := Finalization(d.decisionId, d.verdict, q.verification.state, d.proofRoot, executable,
                               Some(q.verification), None, notes);
        if q.verification.state !in {Pending, Verified} {
          return Done(result);
        }
      } else {
        result := Planned(d, q.plan);
      }
      memory.SaveFinalization(result);
      return Done(result);
    }

    method InspectOne(id: Id) returns (r: Answer<Finalization>)
      ensures r == Inspect(memory.Snapshot(), id)
    {
      if id !in memory.decisions {
        return Refused(NotFound);
      }
      if !ValidDecision(memory.decisions[id]) {
        return Refused(Integrity);
      }
      if id !in memory.finalizations {
        return Refused(NotFound);
      }
      if !Matches(memory.finalizations[id], memory.decisions[id]) {
        return Refused(Integrity);
      }
      return Done(memory.finalizations[id]);
    }
  }

  /** Appending keeps a valid subject of the same reference valid. */
  lemma RememberKeepsValid(s: SubjectMemory, o: Observation, id: Id)
    requires ValidSubject(s)
    ensures ValidSubject(Remembered(s.subjectRef, s, o, id))
  {
    Extended(s.subjectRef, s.observations, StoredFor(s.subjectRef, s, o, id));
  }
}
