/** The hash chain of a subject's observations as a commitment, and the store it is kept in. */
module GuardMemory {
  import opened Common
  import opened GuardModels

  // ----- The chain -----

  function RootOf(items: seq<StoredObservation>): Hash {
    if items == [] then Zero else items[|items| - 1].hash
  }

  // Each observation belongs to the subject, names its predecessor's hash and carries its own.
  predicate Linked(ref: Id, items: seq<StoredObservation>) {
    forall i | 0 <= i < |items| ::
      && items[i].payload.subjectRef == ref
      && items[i].payload.previous == RootOf(items[..i])
      && items[i].hash == Of(items[i].payload)
  }

  predicate ValidSubject(s: SubjectMemory) {
    s.version == |s.observations| && Linked(s.subjectRef, s.observations) && s.root == RootOf(s.observations)
  }

  lemma LinkedPrefix(ref: Id, items: seq<StoredObservation>, n: nat)
    requires Linked(ref, items) && n <= |items|
    ensures Linked(ref, items[..n])
  {
    forall i | 0 <= i < n
      ensures items[..n][..i] == items[..i]
    {
    }
  }

  lemma {:induction false} ChainCommits(a: Id, b: Id, s: seq<StoredObservation>, t: seq<StoredObservation>)
    requires Linked(a, s) && Linked(b, t) && |s| == |t| && RootOf(s) == RootOf(t)
    ensures s == t
  {
    if s == [] {
    } else {
      var n := |s| - 1;
      LinkedPrefix(a, s, n);
      LinkedPrefix(b, t, n);
      assert s[n] == t[n];
      ChainCommits(a, b, s[..n], t[..n]);
      assert s == s[..n] + [s[n]] && t == t[..n] + [t[n]];
    }
  }

  /** The version and root of a valid subject commit to its whole sequence of observations. */
  lemma RootCommits(s: SubjectMemory, t: SubjectMemory)
    requires ValidSubject(s) && ValidSubject(t) && s.version == t.version && s.root == t.root
    ensures s.observations == t.observations
    ensures s.version > 0 ==> s.subjectRef == t.subjectRef
  {
    ChainCommits(s.subjectRef, t.subjectRef, s.observations, t.observations);
  }

  lemma Extended(ref: Id, items: seq<StoredObservation>, x: StoredObservation)
    requires Linked(ref, items)
    requires x.payload.subjectRef == ref && x.payload.previous == RootOf(items) && x.hash == Of(x.payload)
    ensures Linked(ref, items + [x])
  {
    var longer := items + [x];
    forall i | 0 <= i < |longer|
      ensures longer[i].payload.previous == RootOf(longer[..i])
    {
      if i < |items| {
        assert longer[..i] == items[..i];
      } else {
        assert longer[..i] == items;
      }
    }
  }

  /** The checks made on a loaded subject, as the loop that makes them. */
  method ValidateSubject(s: SubjectMemory) returns (ok: bool)
    ensures ok <==> ValidSubject(s)
  {
    if s.version != |s.observations| {
      return false;
    }
    var previous := Zero;
    for i := 0 to |s.observations|
      invariant Linked(s.subjectRef, s.observations[..i]) && previous == RootOf(s.observations[..i])
    {
      var item := s.observations[i];
      if item.payload.subjectRef != s.subjectRef || item.payload.previous != previous || item.hash != Of(item.payload) {
        return false;
      }
      Extended(s.subjectRef, s.observations[..i], item);
      assert s.observations[..i + 1] == s.observations[..i] + [item];
      previous := item.hash;
    }
    assert s.observations[..|s.observations|] == s.observations;
    return s.root == previous;
  }

  // ----- Decisions -----

  function HashOfIntent(i: Intent): IntentHash {
    IntentHash(i.subjectId, i.chain, i.target, i.operation, i.amount, i.mode)
  }

  function ProofOf(d: DecisionDraft): ProofRoot {
    ProofRoot(d.decisionId, d.subjectRef, d.sessionId, d.verdict, d.reasons, d.causal, d.crossSession,
              d.version, d.root, d.policy, d.intentHash, d.nonce, d.createdAt, d.expiresAt)
  }

  predicate ValidDecision(d: DecisionDraft) {
    && d.intent.subjectId == d.subjectRef && d.intent.sessionId == d.sessionId
    && d.intentHash == HashOfIntent(d.intent) && d.proofRoot == Some(ProofOf(d))
  }

  /** Two valid decisions with one proof root decide the same action, with the same verdict, on the same memory. */
  lemma ProofRootCommits(d: DecisionDraft, e: DecisionDraft)
    requires ValidDecision(d) && ValidDecision(e) && d.proofRoot == e.proofRoot
    ensures d.verdict == e.verdict && d.version == e.version && d.root == e.root && d.expiresAt == e.expiresAt
    ensures HashOfIntent(d.intent) == HashOfIntent(e.intent)
  {
    assert ProofOf(d) == ProofOf(e);
  }

  // ----- The store -----

  datatype Memory = Memory(
    subjects: map<Id, SubjectMemory>, decisions: map<Id, DecisionDraft>, finalizations: map<Id, Finalization>)

  function Lookup<K(==), V>(m: map<K, V>, k: K): Option<V> {
    if k in m then Some(m[k]) else None
  }

  class InMemoryAdapter {
    var subjects: map<Id, SubjectMemory>
    var decisions: map<Id, DecisionDraft>
    var finalizations: map<Id, Finalization>

    constructor ()
      ensures subjects == map[] && decisions == map[] && finalizations == map[]
    {
      subjects, decisions, finalizations := map[], map[], map[];
    }

    function Snapshot(): Memory
      reads this
    {
      Memory(subjects, decisions, finalizations)
    }

    /** Compare and set: the new subject replaces the one whose version the caller read, or nothing changes. */
    method CommitObservation(previousVersion: nat, subject: SubjectMemory) returns (r: Answer<()>)
      modifies this`subjects
      ensures var actual := if subject.subjectRef in old(subjects) then old(subjects)[subject.subjectRef].version else 0;
        if actual == previousVersion then r == Done(()) && subjects == old(subjects)[subject.subjectRef := subject]
        else r == Refused(Conflict) && subjects == old(subjects)
    {
      var actual := if subject.subjectRef in subjects then subjects[subject.subjectRef].version else 0;
      if actual != previousVersion {
        return Refused(Conflict);
      }
      subjects := subjects[subject.subjectRef := subject];
      return Done(());
    }

    method SaveDecision(d: DecisionDraft)
      modifies this`decisions
      ensures decisions == old(decisions)[d.decisionId := d]
    {
      decisions := decisions[d.decisionId := d];
    }

    method SaveFinalization(f: Finalization)
      modifies this`finalizations
      ensures finalizations == old(finalizations)[f.decisionId := f]
    {
      finalizations := finalizations[f.decisionId := f];
    }
  }
}
