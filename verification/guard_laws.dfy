/** What the guard remembers, decides and finalizes, field by field. */
module GuardLaws {
  import opened Common
  import opened GuardModels
  import opened GuardPolicy
  import opened GuardMemory
  import opened GuardFinality
  import opened Guard

  // ----- Fields that count -----

  // The fields an observation of a kind may state.
  ghost predicate MayState(kind: Kind, n: Name) {
    match kind
    case BaselineApproved => n == Target || n == ChainId || n == Method || n == MaxAmount || n == ExpiresAt
    case DisputeOpened => n == Target || n == DisputeId || n == DisputeStatus
    case TargetRevoked => n == Target || n == ReasonCode
    case VendorNote => false
  }

  // The supplied value reads as a fact: an address, a Base chain, a positive amount up to a million, and so on.
  ghost predicate ReadsAs(raw: Raw, n: Name, f: Fact) {
    match f
    case Address(a) => n == Target && raw.address == Some(a)
    case Chain(c) => n == ChainId && raw.chain == Some(c) && (c == 8453 || c == 84532)
    case MethodName(m) => n == Method && raw.operation == Some(m)
    case Amount(x) => n == MaxAmount && raw.amount == Some(x) && 0.0 < x && x <= 1_000_000.0
    case Instant(t) => n == ExpiresAt && raw.instant == Some(t)
    case Identifier(i) => n == DisputeId && raw.identifier == Some(i)
    case OpenStatus => n == DisputeStatus && raw.isOpen
    case Revocation(c) => n == ReasonCode && raw.revocation == Some(c)
  }

  // The field is allowed for the kind and reads as the fact.
  ghost predicate States(o: Observation, n: Name, f: Fact) {
    n in o.facts && MayState(o.kind, n) && ReadsAs(o.facts[n], n, f)
  }

  lemma ReadingIs(o: Observation, n: Name, f: Fact)
    requires n in o.facts
    ensures ReadField(o, n) == Valid(f) <==> States(o, n, f)
  {
  }

  /** A fact is accepted exactly if its field is allowed for the kind, reads as it, and comes from a source that is trusted. */
  lemma AcceptedIs(o: Observation, n: Name, f: Fact)
    ensures var accepted := ClassificationOf(o).accepted;
      n in accepted && accepted[n] == f <==> States(o, n, f) && o.mode != CallerSupplied
  {
    if n in o.facts {
      ReadingIs(o, n, f);
    }
  }

  // A supplied field that reads as nothing.
  ghost predicate Unread(o: Observation, n: Name) {
    n in o.facts && MayState(o.kind, n) && forall f :: !ReadsAs(o.facts[n], n, f)
  }

  lemma InvalidIs(o: Observation, n: Name)
    requires n in o.facts
    ensures ReadField(o, n).Invalid? <==> forall f :: !States(o, n, f)
  {
    if ReadField(o, n).Valid? {
      ReadingIs(o, n, ReadField(o, n).fact);
    } else {
      forall f
        ensures !States(o, n, f)
      {
        ReadingIs(o, n, f);
      }
    }
  }

  // The field whose failure a note reports.
  ghost predicate Reports(note: Note, n: Name) {
    match note
    case InvalidTarget => n == Target
    case InvalidChain => n == ChainId
    case InvalidMethod => n == Method
    case InvalidAmount => n == MaxAmount
    case InvalidExpiry => n == ExpiresAt
    case InvalidStatus => n == DisputeStatus
    case InvalidDisputeId => n == DisputeId
    case InvalidReason => n == ReasonCode
    case _ => false
  }

  lemma NoteOf(o: Observation, n: Name, note: Note)
    requires n in o.facts
    ensures ReadField(o, n) == Invalid(note) <==>
      if note == UnknownField then !MayState(o.kind, n) else Reports(note, n) && Unread(o, n)
  {
    InvalidIs(o, n);
    if Unread(o, n) {
      assert forall f :: !States(o, n, f);
    }
    if ReadField(o, n).Invalid? && MayState(o.kind, n) {
      forall f
        ensures !ReadsAs(o.facts[n], n, f)
      {
        assert !States(o, n, f);
      }
    }
  }

  lemma NoteFrom(o: Observation, note: Note)
    ensures note in ClassificationOf(o).notes <==>
      if note == StructuredFactAccepted then ClassificationOf(o).quarantined == {}
      else note in FieldNotes(o) || note in TextNotes(o.text) || note in SourceNotes(o)
  {
    QuarantineIsExplained(o);
    NotesNeverPlain(o);
  }

  // A note about a field that does not count, not about the text or the source.
  predicate AboutField(note: Note) {
    !note.Instruction? && !note.UntrustedText? && !note.SourceNotVerified? && !note.VendorNeverAuthoritative?
    && !note.StructuredFactAccepted?
  }

  lemma OtherNotesSay(o: Observation, note: Note)
    requires !AboutField(note)
    ensures note !in FieldNotes(o)
    ensures note in TextNotes(o.text) <==>
      && o.text.Some?
      && if o.text.value.patterns == {} then note == UntrustedText
         else note.Instruction? && note.pattern in o.text.value.patterns
    ensures note in SourceNotes(o) <==>
      || (note == SourceNotVerified && o.mode == CallerSupplied && exists n, f :: States(o, n, f))
      || (note == VendorNeverAuthoritative && o.kind == VendorNote)
  {
    SomethingReads(o);
  }

  lemma FieldNotesOnly(o: Observation, note: Note)
    requires AboutField(note)
    ensures note !in TextNotes(o.text) && note !in SourceNotes(o)
  {
  }

  /** Every reason code is given exactly when what it names is so. */
  lemma NotesSay(o: Observation, note: Note)
    ensures note in ClassificationOf(o).notes <==>
      match note
        case UnknownField => exists n :: n in o.facts && !MayState(o.kind, n)
        case Instruction(p) => o.text.Some? && p in o.text.value.patterns
        case UntrustedText => o.text.Some? && o.text.value.patterns == {}
        case SourceNotVerified => o.mode == CallerSupplied && exists n, f :: States(o, n, f)
        case VendorNeverAuthoritative => o.kind == VendorNote
        case StructuredFactAccepted => ClassificationOf(o).quarantined == {}
        case _ => exists n :: Reports(note, n) && Unread(o, n)
  {
    NoteFrom(o, note);
    if AboutField(note) {
      FieldNotesOnly(o, note);
      FieldNoteSays(o, note);
    } else {
      OtherNotesSay(o, note);
    }
  }

  lemma SomethingReads(o: Observation)
    ensures Readable(o) != map[] <==> exists n, f :: States(o, n, f)
  {
    if n, f :| States(o, n, f) {
      ReadingIs(o, n, f);
      assert n in Readable(o);
    }
    if Readable(o) != map[] {
      var n :| n in Readable(o);
      ReadingIs(o, n, ReadField(o, n).fact);
    }
  }

  lemma FieldNoteSays(o: Observation, note: Note)
    ensures note in FieldNotes(o) <==>
      if note == UnknownField then exists n :: n in o.facts && !MayState(o.kind, n)
      else exists n :: Reports(note, n) && Unread(o, n)
  {
    forall n | n in o.facts
      ensures ReadField(o, n) == Invalid(note) <==>
        if note == UnknownField then !MayState(o.kind, n) else Reports(note, n) && Unread(o, n)
    {
      NoteOf(o, n, note);
    }
    if note in FieldNotes(o) {
      var n :| n in o.facts && ReadField(o, n) == Invalid(note);
    }
    if note == UnknownField && exists n :: n in o.facts && !MayState(o.kind, n) {
      var n :| n in o.facts && !MayState(o.kind, n);
      assert ReadField(o, n) == Invalid(note);
    }
    if note != UnknownField && exists n :: Reports(note, n) && Unread(o, n) {
      var n :| Reports(note, n) && Unread(o, n);
      assert ReadField(o, n) == Invalid(note);
    }
  }

  /** The status: accepted facts and nothing quarantined, some of each, a caller's unverified facts, or nothing at all. */
  lemma StatusSays(o: Observation)
    ensures var c := ClassificationOf(o);
      && (c.status == Accepted <==> c.accepted != map[] && c.quarantined == {})
      && (c.status == PartiallyAccepted <==> c.accepted != map[] && c.quarantined != {})
      && (c.status == ReviewRequired <==> c.accepted == map[] && o.mode == CallerSupplied && o.facts != map[])
  {
  }

  // ----- Observing -----

  // The stored observation is of the same kind, source and mode, and reads the same.
  ghost predicate Repeats(p: Payload, o: Observation) {
    && p.kind == o.kind && p.sourceId == o.sourceId && p.mode == o.mode
    && p.facts == ClassificationOf(o).accepted && p.quarantined == ClassificationOf(o).quarantined
    && p.notes == ClassificationOf(o).notes
    && (p.text.Some? <==> o.text.Some?) && (o.text.Some? ==> p.text == Some(o.text.value.digest))
  }

  ghost predicate Earliest(items: seq<StoredObservation>, key: Id, i: int) {
    0 <= i < |items| && items[i].payload.key == key && forall j | 0 <= j < i :: items[j].payload.key != key
  }

  lemma {:induction false} FindsEarliest(items: seq<StoredObservation>, key: Id, i: int)
    requires Earliest(items, key, i)
    ensures FindKey(items, key) == Some(items[i])
  {
    if i > 0 {
      assert Earliest(items[1..], key, i - 1);
      FindsEarliest(items[1..], key, i - 1);
    }
  }

  /**
   A key that was used before is answered from what it stored first, if that is the same observation, and refused
   otherwise; nothing is remembered either way.
   */
  lemma RepetitionSays(m: Memory, o: Observation, id: Id, i: int)
    requires o.wellFormed && o.subjectId in m.subjects && ValidSubject(m.subjects[o.subjectId])
    requires Earliest(m.subjects[o.subjectId].observations, o.key, i)
    ensures var s, x := m.subjects[o.subjectId], m.subjects[o.subjectId].observations[i].payload;
      && Observe(m, o, id).memory == m
      && Observe(m, o, id).answer ==
           if Repeats(x, o) then Done(Receipt(x.observationId, x.status, x.facts.Keys, x.quarantined, s.version, s.root))
           else Refused(Conflict)
  {
    FindsEarliest(m.subjects[o.subjectId].observations, o.key, i);
  }

  // The payload that is stored for an observation after others.
  ghost predicate StoredAs(p: Payload, o: Observation, id: Id, before: seq<StoredObservation>) {
    && p.observationId == id && p.subjectRef == o.subjectId && p.sessionId == o.sessionId && p.key == o.key
    && p.observedAt == o.observedAt && p.status == ClassificationOf(o).status && Repeats(p, o)
    && p.previous == if before == [] then Zero else before[|before| - 1].hash
  }

  /** A new key appends one observation to its subject alone, linked to the one before it, and advances the version. */
  lemma NewObservationSays(m: Memory, o: Observation, id: Id)
    requires o.wellFormed && (o.subjectId in m.subjects ==> m.subjects[o.subjectId].subjectRef == o.subjectId)
    requires ValidSubject(SubjectOf(m, o.subjectId))
    requires forall x | x in SubjectOf(m, o.subjectId).observations :: x.payload.key != o.key
    ensures Observe(m, o, id).answer.Done?
    ensures var before, n := SubjectOf(m, o.subjectId).observations, Observe(m, o, id).memory;
      && n == m.(subjects := n.subjects) && n.subjects.Keys == m.subjects.Keys + {o.subjectId}
      && (forall r | r in m.subjects && r != o.subjectId :: n.subjects[r] == m.subjects[r])
      && var s := n.subjects[o.subjectId];
      && s.subjectRef == o.subjectId && |s.observations| == |before| + 1 && s.observations[..|before|] == before
      && s.version == |before| + 1 && s.root == s.observations[|before|].hash
      && s.observations[|before|].hash == Hash.Of(s.observations[|before|].payload)
      && StoredAs(s.observations[|before|].payload, o, id, before)
      && var p := s.observations[|before|].payload;
         Observe(m, o, id).answer == Done(Receipt(id, p.status, p.facts.Keys, p.quarantined, s.version, s.root))
  {
    RememberKeepsValid(SubjectOf(m, o.subjectId), o, id);
  }

  // ----- Deciding -----

  /** A decision says what the policy says, of which memory, for which action, under which policy and for how long. */
  lemma DraftSays(m: Memory, i: Intent, id: Id, nonce: Id, policy: Id, now: Time, ttl: Time)
    ensures var r := DecideOn(m, i, id, nonce, policy, now, ttl);
      && (r.answer.Done? <==> i.wellFormed && ValidSubject(SubjectOf(m, i.subjectId)))
      && (r.answer.Refused? ==> r.memory == m)
      && (r.answer.Done? ==>
            var d, s, p := r.answer.value, SubjectOf(m, i.subjectId), Decide(i, SubjectOf(m, i.subjectId).observations, now);
            && r.memory == m.(decisions := m.decisions[id := d])
            && d.decisionId == id && d.subjectRef == i.subjectId && d.sessionId == i.sessionId && d.intent == i
            && d.verdict == p.verdict && d.reasons == p.reasons && d.causal == p.causal
            && (d.crossSession <==> exists x :: x in s.observations && x.payload.observationId in p.causal && x.payload.sessionId != i.sessionId)
            && d.version == |s.observations| && d.root == RootOf(s.observations) && d.policy == policy && d.nonce == nonce
            && d.createdAt == now && d.expiresAt == now + ttl && ValidDecision(d))
  {
    var s := SubjectOf(m, i.subjectId);
    CrossesSays(s.observations, Decide(i, s.observations, now).causal, i.sessionId);
  }

  lemma CrossesSays(items: seq<StoredObservation>, causal: seq<Id>, session: Id)
    ensures Crosses(items, causal, session) <==>
      exists x :: x in items && x.payload.observationId in causal && x.payload.sessionId != session
  {
    if x :| x in items && x.payload.observationId in causal && x.payload.sessionId != session {
      var i :| 0 <= i < |items| && items[i] == x;
      assert CrossSession(items[i], causal, session);
    }
  }

  // ----- Finalizing -----

  /**
   A decision can be finalized exactly while it is stored and intact, has not expired, was made under this policy, and,
   if READY, its subject is intact at the very version and root it was made on.
   */
  lemma FinalizableIff(m: Memory, id: Id, policy: Id, now: Time)
    ensures Finalizable(m, id, policy, now).Done? <==>
      && id in m.decisions && ValidDecision(m.decisions[id]) && now < m.decisions[id].expiresAt
      && m.decisions[id].policy == policy
      && (m.decisions[id].verdict == Ready ==>
            && m.decisions[id].subjectRef in m.subjects
            && var s := m.subjects[m.decisions[id].subjectRef];
            ValidSubject(s) && s.version == m.decisions[id].version && s.root == m.decisions[id].root)
    ensures Finalizable(m, id, policy, now).Done? ==> Finalizable(m, id, policy, now) == Done(m.decisions[id])
  {
  }

  // The transaction named is not the one a record is bound to.
  ghost predicate Rebinds(f: Finalization, q: Request) {
    && q.tx.Some? && (f.state == Verified || (f.state == Pending && f.verification.Some?))
    && (f.verification.Some? ==> f.verification.value.tx != q.tx)
  }

  // A record that this call leaves as it is.
  ghost predicate Settled(f: Finalization, q: Request) {
    f.state == Verified || f.state == LocalFinalized || f.state == Failed || q.tx.None?
  }

  /** An existing record of the decision answers for itself: refused for another transaction, or returned as it is. */
  lemma ExistingSays(d: DecisionDraft, f: Finalization, q: Request)
    ensures var ours := f.decisionId == d.decisionId && f.verdict == d.verdict && f.proofRoot == d.proofRoot;
      && (!ours ==> Finalize(d, Some(f), q) == Step(Refused(Integrity), None))
      && (ours && Rebinds(f, q) ==> Finalize(d, Some(f), q) == Step(Refused(OtherTransaction), None))
      && (ours && !Rebinds(f, q) && Settled(f, q) ==> Finalize(d, Some(f), q) == Step(Done(f), None))
      && (ours && !Rebinds(f, q) && !Settled(f, q) ==> Finalize(d, Some(f), q) == Finalize(d, None, q))
  {
  }

  // The record names the decision it finalizes, and executes nothing.
  ghost predicate RecordOf(f: Finalization, d: DecisionDraft) {
    f.decisionId == d.decisionId && f.verdict == d.verdict && f.proofRoot == d.proofRoot && !f.executable
  }

  /**
   What a call answers otherwise: the anchor's verification of the named transaction, kept while pending or verified; or
   a plan to confirm; or, with no anchor, a failure of READY and a local finalization of anything else.
   */
  lemma OutcomeSays(d: DecisionDraft, q: Request)
    ensures var step := Finalize(d, None, q);
      && step.answer.Done? && RecordOf(step.answer.value, d)
      && (step.saved.Some? ==> step.saved == Some(step.answer.value))
      && var f := step.answer.value;
      && (q.tx.Some? ==>
            && f.state == q.verification.state && f.verification == Some(q.verification) && f.plan == None
            && (step.saved.Some? <==> f.state == Pending || f.state == Verified)
            && (forall n :: AnchorNote(n) in f.notes <==> n in q.verification.notes)
            && (ExecutionNotImplemented in f.notes <==> d.verdict == Ready && f.state == Verified))
      && (q.tx.None? ==>
            && step.saved.Some? && f.verification == None && f.plan == q.plan
            && (f.state == ConfirmationRequired <==> q.plan.Some?)
            && (f.state == Failed <==> q.plan.None? && d.verdict == Ready)
            && (f.state == LocalFinalized <==> q.plan.None? && d.verdict != Ready))
  {
  }

  /** A finalization changes only the record of its decision, to what the call saved, if the decision can be finalized. */
  lemma FinalizationSays(m: Memory, id: Id, q: Request, policy: Id, now: Time)
    requires id in m.decisions ==> m.decisions[id].decisionId == id
    ensures var r := FinalizeOn(m, id, q, policy, now);
      if Finalizable(m, id, policy, now).Refused? then r.answer.Refused? && r.memory == m
      else
        var step := Finalize(m.decisions[id], if id in m.finalizations then Some(m.finalizations[id]) else None, q);
        && r.answer == step.answer
        && r.memory == if step.saved.Some? then m.(finalizations := m.finalizations[id := step.saved.value]) else m
  {
    if Finalizable(m, id, policy, now).Done? {
      OutcomeSays(m.decisions[id], q);
    }
  }

  /** An inspection answers exactly for an intact decision with a record of its own, and changes nothing. */
  lemma InspectSays(m: Memory, id: Id)
    ensures Inspect(m, id).Done? <==>
      && id in m.decisions && ValidDecision(m.decisions[id]) && id in m.finalizations
      && m.finalizations[id].decisionId == m.decisions[id].decisionId
      && m.finalizations[id].verdict == m.decisions[id].verdict && m.finalizations[id].proofRoot == m.decisions[id].proofRoot
    ensures Inspect(m, id).Done? ==> Inspect(m, id) == Done(m.finalizations[id])
  {
  }

  /** An intact decision is about its own subject and session, and its hashes are of its own fields. */
  lemma IntactDecisionSays(d: DecisionDraft)
    ensures ValidDecision(d) <==>
      && d.intent.subjectId == d.subjectRef && d.intent.sessionId == d.sessionId
      && d.intentHash == IntentHash(d.intent.subjectId, d.intent.chain, d.intent.target, d.intent.operation,
                                    d.intent.amount, d.intent.mode)
      && d.proofRoot == Some(ProofRoot(
           d.decisionId, d.subjectRef, d.sessionId, d.verdict, d.reasons, d.causal, d.crossSession, d.version, d.root,
           d.policy, d.intentHash, d.nonce, d.createdAt, d.expiresAt))
  {
  }
}
