/** What holds of the payment memory over any sequence of operations. */
module GuardRuns {
  import opened Common
  import opened GuardModels
  import opened GuardPolicy
  import opened GuardMemory
  import opened GuardFinality
  import opened Guard

  datatype Operation =
    | Observing(o: Observation, id: Id)
    | Deciding(intent: Intent, id: Id, nonce: Id, ttl: Time)
    | Finalizing(id: Id, request: Request)

  // One operation under a policy at an instant; a new decision's identifier is new.
  datatype Event = Event(operation: Operation, policy: Id, now: Time)

  function After(m: Memory, e: Event): Memory {
    match e.operation
    case Observing(o, id) => Observe(m, o, id).memory
    case Deciding(i, id, nonce, ttl) => DecideOn(m, i, id, nonce, e.policy, e.now, ttl).memory
    case Finalizing(id, q) => FinalizeOn(m, id, q, e.policy, e.now).memory
  }

  ghost predicate FreshEvent(m: Memory, e: Event) {
    && (e.operation.Deciding? ==> e.operation.id !in m.decisions && e.operation.id !in m.finalizations)
    && (e.operation.Finalizing? ==> Echoes(e.operation.request))
  }

  // Every subject is intact under its own reference, every decision is intact, every record is one the guard stores.
  ghost predicate MemorySound(m: Memory) {
    && (forall r | r in m.subjects :: m.subjects[r].subjectRef == r && ValidSubject(m.subjects[r]))
    && (forall d | d in m.decisions :: m.decisions[d].decisionId == d && ValidDecision(m.decisions[d]))
    && (forall d | d in m.finalizations :: d in m.decisions && Reachable(m.decisions[d], Some(m.finalizations[d])))
  }

  function ObservationsOf(m: Memory, ref: Id): seq<StoredObservation> {
    SubjectOf(m, ref).observations
  }

  // Observations are only appended, decisions are kept, and records only move forward.
  ghost predicate Keeps(m: Memory, n: Memory) {
    && (forall r: Id :: ObservationsOf(m, r) <= ObservationsOf(n, r))
    && (forall d | d in m.decisions :: d in n.decisions && n.decisions[d] == m.decisions[d])
    && (forall d | d in m.decisions :: Progresses(Lookup(m.finalizations, d), Lookup(n.finalizations, d)))
  }

  lemma SubjectSound(m: Memory, ref: Id)
    requires MemorySound(m)
    ensures ValidSubject(SubjectOf(m, ref)) && SubjectOf(m, ref).subjectRef == ref
  {
  }

  lemma SubjectPutKeeps(m: Memory, ref: Id, after: SubjectMemory)
    requires MemorySound(m) && ValidSubject(after) && after.subjectRef == ref && ObservationsOf(m, ref) <= after.observations
    ensures var n := m.(subjects := m.subjects[ref := after]); MemorySound(n) && Keeps(m, n)
  {
  }

  lemma ObserveKeeps(m: Memory, o: Observation, id: Id)
    requires MemorySound(m)
    ensures MemorySound(Observe(m, o, id).memory) && Keeps(m, Observe(m, o, id).memory)
  {
    var s := SubjectOf(m, o.subjectId);
    SubjectSound(m, o.subjectId);
    RememberKeepsValid(s, o, id);
    var after := Remembered(o.subjectId, s, o, id);
    SubjectPutKeeps(m, o.subjectId, after);
    KeepsItself(m);
    assert Observe(m, o, id).memory in {m, m.(subjects := m.subjects[o.subjectId := after])};
  }

  lemma DecideKeeps(m: Memory, i: Intent, id: Id, nonce: Id, policy: Id, now: Time, ttl: Time)
    requires MemorySound(m) && id !in m.decisions && id !in m.finalizations
    ensures var n := DecideOn(m, i, id, nonce, policy, now, ttl).memory; MemorySound(n) && Keeps(m, n)
  {
    SubjectSound(m, i.subjectId);
    var n := DecideOn(m, i, id, nonce, policy, now, ttl).memory;
    assert n.subjects == m.subjects && n.finalizations == m.finalizations;
  }

  lemma RecordPutKeeps(m: Memory, f: Finalization)
    requires MemorySound(m) && f.decisionId in m.decisions && Reachable(m.decisions[f.decisionId], Some(f))
    requires Progresses(Lookup(m.finalizations, f.decisionId), Some(f))
    ensures MemorySound(WithRecord(m, Some(f))) && Keeps(m, WithRecord(m, Some(f)))
  {
    var n := WithRecord(m, Some(f));
    RecordPutSound(m, f);
    assert n.subjects == m.subjects && n.decisions == m.decisions;
    forall d | d in m.decisions
      ensures Progresses(Lookup(m.finalizations, d), Lookup(n.finalizations, d))
    {
    }
  }

  lemma RecordPutSound(m: Memory, f: Finalization)
    requires MemorySound(m) && f.decisionId in m.decisions && Reachable(m.decisions[f.decisionId], Some(f))
    ensures MemorySound(WithRecord(m, Some(f)))
  {
  }

  lemma FinalizeKeeps(m: Memory, id: Id, q: Request, policy: Id, now: Time)
    requires MemorySound(m) && Echoes(q)
    ensures var n := FinalizeOn(m, id, q, policy, now).memory; MemorySound(n) && Keeps(m, n)
  {
    var admitted := Finalizable(m, id, policy, now);
    KeepsItself(m);
    if admitted.Done? {
      FinalizeProgresses(admitted.value, Lookup(m.finalizations, id), q);
      var saved := Finalize(admitted.value, Lookup(m.finalizations, id), q).saved;
      if saved.Some? {
        RecordPutKeeps(m, saved.value);
      }
    }
  }

  lemma EventKeeps(m: Memory, e: Event)
    requires MemorySound(m) && FreshEvent(m, e)
    ensures MemorySound(After(m, e)) && Keeps(m, After(m, e))
  {
    match e.operation
    case Observing(o, id) => ObserveKeeps(m, o, id);
    case Deciding(i, id, nonce, ttl) => DecideKeeps(m, i, id, nonce, e.policy, e.now, ttl);
    case Finalizing(id, q) => FinalizeKeeps(m, id, q, e.policy, e.now);
  }

  // ----- Runs -----

  ghost predicate EventAt(ms: seq<Memory>, es: seq<Event>, i: nat)
    requires i < |es| && |ms| == |es| + 1
  {
    FreshEvent(ms[i], es[i]) && ms[i + 1] == After(ms[i], es[i])
  }

  ghost predicate GuardRun(ms: seq<Memory>, es: seq<Event>) {
    && |ms| == |es| + 1 && ms[0] == Memory(map[], map[], map[])
    && forall i: nat | i < |es| :: EventAt(ms, es, i)
  }

  lemma {:induction false} RunSound(ms: seq<Memory>, es: seq<Event>, i: nat)
    requires GuardRun(ms, es) && i < |ms|
    ensures MemorySound(ms[i])
    decreases i
  {
    if i > 0 {
      RunSound(ms, es, i - 1);
      assert EventAt(ms, es, i - 1);
      EventKeeps(ms[i - 1], es[i - 1]);
    }
  }

  lemma KeepsThrough(a: Memory, b: Memory, c: Memory)
    requires Keeps(a, b) && Keeps(b, c)
    ensures Keeps(a, c)
  {
    forall r: Id
      ensures ObservationsOf(a, r) <= ObservationsOf(c, r)
    {
      assert ObservationsOf(a, r) <= ObservationsOf(b, r) <= ObservationsOf(c, r);
    }
    forall d | d in a.decisions
      ensures d in c.decisions && c.decisions[d] == a.decisions[d]
      ensures Progresses(Lookup(a.finalizations, d), Lookup(c.finalizations, d))
    {
      assert d in b.decisions;
      ProgressesThrough(Lookup(a.finalizations, d), Lookup(b.finalizations, d), Lookup(c.finalizations, d));
    }
  }

  lemma KeepsItself(m: Memory)
    ensures Keeps(m, m)
  {
  }

  /** Between any two points of a run, observations are only appended, decisions kept, and records only move forward. */
  lemma {:induction false} RunKeeps(ms: seq<Memory>, es: seq<Event>, i: nat, j: nat)
    requires GuardRun(ms, es) && i <= j < |ms|
    ensures Keeps(ms[i], ms[j])
    decreases j
  {
    if i == j {
      KeepsItself(ms[i]);
    } else {
      RunKeeps(ms, es, i, j - 1);
      RunSound(ms, es, j - 1);
      assert EventAt(ms, es, j - 1);
      EventKeeps(ms[j - 1], es[j - 1]);
      KeepsThrough(ms[i], ms[j - 1], ms[j]);
    }
  }

  // Event i stores decision d.
  ghost predicate DecidesAt(ms: seq<Memory>, es: seq<Event>, i: nat, d: DecisionDraft)
    requires i < |es| && |ms| == |es| + 1
  {
    && es[i].operation.Deciding?
    && var op := es[i].operation;
    DecideOn(ms[i], op.intent, op.id, op.nonce, es[i].policy, es[i].now, op.ttl).answer == Done(d)
  }

  // Event j answers the finalization of decision id.
  ghost predicate FinalizesAt(ms: seq<Memory>, es: seq<Event>, j: nat, id: Id, f: Finalization)
    requires j < |es| && |ms| == |es| + 1
  {
    && es[j].operation.Finalizing? && es[j].operation.id == id
    && FinalizeOn(ms[j], id, es[j].operation.request, es[j].policy, es[j].now).answer == Done(f)
  }

  lemma DecidedHolds(m: Memory, i: Intent, id: Id, nonce: Id, policy: Id, now: Time, ttl: Time, d: DecisionDraft)
    requires MemorySound(m) && DecideOn(m, i, id, nonce, policy, now, ttl).answer == Done(d)
    ensures var n := DecideOn(m, i, id, nonce, policy, now, ttl).memory; id in n.decisions && n.decisions[id] == d
    ensures d.decisionId == id && d.subjectRef == i.subjectId
    ensures d.version == |ObservationsOf(m, i.subjectId)| && d.root == RootOf(ObservationsOf(m, i.subjectId))
    ensures d.verdict == Decide(i, ObservationsOf(m, i.subjectId), now).verdict
  {
    SubjectSound(m, i.subjectId);
  }

  lemma FinalizedUnchanged(m: Memory, id: Id, policy: Id, now: Time)
    requires MemorySound(m) && Finalizable(m, id, policy, now).Done?
    ensures var d := m.decisions[id];
      var s := SubjectOf(m, d.subjectRef);
      d.verdict == Ready ==> (ValidSubject(s) && s.version == d.version && s.root == d.root)
  {
  }

  /**
   A READY decision that is finalized, at any later point of a run, saw exactly the observations its subject then has;
   nothing it is answered is executable.
   */
  lemma ReadySawWhatIsCurrent(ms: seq<Memory>, es: seq<Event>, i: nat, j: nat, d: DecisionDraft, f: Finalization)
    requires GuardRun(ms, es) && i < j < |es| && DecidesAt(ms, es, i, d) && FinalizesAt(ms, es, j, d.decisionId, f)
    ensures !f.executable && Matches(f, d)
    ensures d.verdict == Ready ==> ObservationsOf(ms[j], d.subjectRef) == ObservationsOf(ms[i], d.subjectRef)
  {
    RunSound(ms, es, i);
    RunSound(ms, es, j);
    assert EventAt(ms, es, i) && EventAt(ms, es, j);
    var op := es[i].operation;
    DecidedHolds(ms[i], op.intent, op.id, op.nonce, es[i].policy, es[i].now, op.ttl, d);
    RunKeeps(ms, es, i + 1, j);
    FinalizedUnchanged(ms[j], d.decisionId, es[j].policy, es[j].now);
    FinalizeProgresses(d, Lookup(ms[j].finalizations, d.decisionId), es[j].operation.request);
    if d.verdict == Ready {
      SubjectSound(ms[i], d.subjectRef);
      RootCommits(SubjectOf(ms[i], d.subjectRef), SubjectOf(ms[j], d.subjectRef));
    }
  }

  /** Once a target is denied to a subject in a mode, every later decision about it on the run denies it too. */
  lemma DenialPersistsOnRun(ms: seq<Memory>, es: seq<Event>, i: nat, j: nat, d: DecisionDraft, e: DecisionDraft)
    requires GuardRun(ms, es) && i < j < |es| && DecidesAt(ms, es, i, d) && DecidesAt(ms, es, j, e)
    requires d.subjectRef == e.subjectRef && SameQuestion(d.intent, e.intent) && d.verdict == Deny
    ensures e.verdict == Deny
  {
    RunSound(ms, es, i);
    RunSound(ms, es, j);
    var op, oq := es[i].operation, es[j].operation;
    DecidedHolds(ms[i], op.intent, op.id, op.nonce, es[i].policy, es[i].now, op.ttl, d);
    DecidedHolds(ms[j], oq.intent, oq.id, oq.nonce, es[j].policy, es[j].now, oq.ttl, e);
    RunKeeps(ms, es, i, j);
    DenialSurvives(op.intent, oq.intent, ObservationsOf(ms[i], d.subjectRef), ObservationsOf(ms[j], d.subjectRef), es[i].now, es[j].now);
  }

  lemma DenialSurvives(a: Intent, b: Intent, items: seq<StoredObservation>, later: seq<StoredObservation>, now: Time,
                       then': Time)
    requires SameQuestion(a, b) && Decide(a, items, now).verdict == Deny && items <= later
    ensures Decide(b, later, then').verdict == Deny
  {
    assert later == items + later[|items|..];
    DenialPersists(a, b, items, later[|items|..], now, then');
  }

  /** Over a run, the stored record of a decision only moves forward, and its bound transaction never changes. */
  lemma RecordsOnlyAdvance(ms: seq<Memory>, es: seq<Event>, i: nat, j: nat, id: Id)
    requires GuardRun(ms, es) && i <= j < |ms| && id in ms[i].decisions
    ensures Progresses(Lookup(ms[i].finalizations, id), Lookup(ms[j].finalizations, id))
  {
    RunKeeps(ms, es, i, j);
  }

  // ----- Inspection -----

  /**
   On a run an inspection never finds a mismatch: it answers with the stored record, which is of that very decision and
   not executable, and refuses only where there is no decision or no record of it.
   */
  lemma InspectFindsTheRecord(ms: seq<Memory>, es: seq<Event>, i: nat, id: Id)
    requires GuardRun(ms, es) && i < |ms|
    ensures var m, r := ms[i], Inspect(ms[i], id);
      && (r == Refused(NotFound) <==> id !in m.decisions || id !in m.finalizations)
      && (r != Refused(NotFound) ==>
            r == Done(m.finalizations[id]) && Matches(r.value, m.decisions[id]) && !r.value.executable)
  {
    RunSound(ms, es, i);
  }

  // Event i finalizes decision id and stores record f.
  ghost predicate StoresAt(ms: seq<Memory>, es: seq<Event>, i: nat, id: Id, f: Finalization)
    requires i < |es| && |ms| == |es| + 1
  {
    && es[i].operation.Finalizing? && es[i].operation.id == id
    && var admitted := Finalizable(ms[i], id, es[i].policy, es[i].now);
    && admitted.Done?
    && Finalize(admitted.value, Lookup(ms[i].finalizations, id), es[i].operation.request).saved == Some(f)
  }

  // No event from i up to j stores a record of decision id.
  ghost predicate Unstored(ms: seq<Memory>, es: seq<Event>, i: nat, j: nat, id: Id)
    requires i <= j <= |es| && |ms| == |es| + 1
  {
    forall k: nat, f | i <= k < j :: !StoresAt(ms, es, k, id, f)
  }

  lemma StoredIsKept(ms: seq<Memory>, es: seq<Event>, i: nat, id: Id, f: Finalization)
    requires GuardRun(ms, es) && i < |es| && StoresAt(ms, es, i, id, f)
    ensures id in ms[i + 1].decisions && Lookup(ms[i + 1].finalizations, id) == Some(f)
  {
    RunSound(ms, es, i);
    assert EventAt(ms, es, i);
    var d := ms[i].decisions[id];
    FinalizeProgresses(d, Lookup(ms[i].finalizations, id), es[i].operation.request);
  }

  lemma FinalizingOther(m: Memory, id: Id, q: Request, policy: Id, now: Time, other: Id)
    requires MemorySound(m) && Echoes(q)
    requires id != other || Finalizable(m, id, policy, now).Refused?
             || Finalize(Finalizable(m, id, policy, now).value, Lookup(m.finalizations, id), q).saved.None?
    ensures Lookup(FinalizeOn(m, id, q, policy, now).memory.finalizations, other) == Lookup(m.finalizations, other)
  {
    var admitted := Finalizable(m, id, policy, now);
    if admitted.Done? {
      FinalizeProgresses(admitted.value, Lookup(m.finalizations, id), q);
    }
  }

  lemma UnstoredStep(ms: seq<Memory>, es: seq<Event>, i: nat, id: Id)
    requires GuardRun(ms, es) && i < |es| && Unstored(ms, es, i, i + 1, id)
    ensures Lookup(ms[i + 1].finalizations, id) == Lookup(ms[i].finalizations, id)
  {
    RunSound(ms, es, i);
    assert EventAt(ms, es, i);
    if es[i].operation.Finalizing? {
      var e, op := es[i], es[i].operation;
      var admitted := Finalizable(ms[i], op.id, e.policy, e.now);
      if op.id == id && admitted.Done? {
        var saved := Finalize(admitted.value, Lookup(ms[i].finalizations, id), op.request).saved;
        if saved.Some? {
          assert StoresAt(ms, es, i, id, saved.value);
        }
      }
      FinalizingOther(ms[i], op.id, op.request, e.policy, e.now, id);
    }
  }

  lemma {:induction false} UnstoredStays(ms: seq<Memory>, es: seq<Event>, i: nat, j: nat, id: Id)
    requires GuardRun(ms, es) && i <= j < |ms| && Unstored(ms, es, i, j, id)
    ensures Lookup(ms[j].finalizations, id) == Lookup(ms[i].finalizations, id)
    decreases j
  {
    if i < j {
      UnstoredStays(ms, es, i, j - 1, id);
      UnstoredStep(ms, es, j - 1, id);
    }
  }

  /** An inspection returns exactly what the last storing finalization stored, whatever was done in between. */
  lemma InspectReturnsLastStored(ms: seq<Memory>, es: seq<Event>, i: nat, j: nat, id: Id, f: Finalization)
    requires GuardRun(ms, es) && i < j < |ms| && StoresAt(ms, es, i, id, f) && Unstored(ms, es, i + 1, j, id)
    ensures Inspect(ms[j], id) == Done(f)
  {
    StoredIsKept(ms, es, i, id, f);
    UnstoredStays(ms, es, i + 1, j, id);
    RunKeeps(ms, es, i + 1, j);
    InspectFindsTheRecord(ms, es, j, id);
  }

  /** Two inspections in order: once a record was found one is found again, and it only moved forward. */
  lemma InspectionsAdvance(ms: seq<Memory>, es: seq<Event>, i: nat, j: nat, id: Id)
    requires GuardRun(ms, es) && i <= j < |ms| && Inspect(ms[i], id).Done?
    ensures Inspect(ms[j], id).Done? && Progresses(Some(Inspect(ms[i], id).value), Some(Inspect(ms[j], id).value))
    ensures Inspect(ms[i], id).value.state in {Verified, LocalFinalized, Failed} ==>
      Inspect(ms[j], id) == Inspect(ms[i], id)
  {
    RunKeeps(ms, es, i, j);
    InspectFindsTheRecord(ms, es, i, id);
    InspectFindsTheRecord(ms, es, j, id);
  }

  // ----- Idempotence -----

  lemma {:induction false} FindAppended(items: seq<StoredObservation>, x: StoredObservation, key: Id)
    requires FindKey(items, key) == None && x.payload.key == key
    ensures FindKey(items + [x], key) == Some(x)
  {
    if items == [] {
      assert items + [x] == [x];
    } else {
      assert items[0] in items;
      assert (items + [x])[1..] == items[1..] + [x];
      FindAppended(items[1..], x, key);
    }
  }

  /** Repeating an observation appends nothing and is answered with the observation already stored. */
  lemma ObservingTwiceIsOnce(m: Memory, o: Observation, id: Id, again: Id)
    requires MemorySound(m) && Observe(m, o, id).answer.Done?
    ensures var n := Observe(m, o, id).memory;
      && Observe(n, o, again).memory == n
      && Observe(n, o, again).answer.Done?
      && Observe(n, o, again).answer.value.observationId == Observe(m, o, id).answer.value.observationId
  {
    var s := SubjectOf(m, o.subjectId);
    SubjectSound(m, o.subjectId);
    RememberKeepsValid(s, o, id);
    if FindKey(s.observations, o.key) == None {
      FindAppended(s.observations, StoredFor(o.subjectId, s, o, id), o.key);
    }
  }
}
