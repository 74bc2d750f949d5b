/** What policy, proofs, checklists and bases say, field by field. */
module PolicyLaws {
  import opened Common
  import opened CaseworkModels
  import opened SourceState
  import opened CasePolicy
  import opened Safety

  // ----- Causes -----

  // A stored case about the scope of a listed task.
  ghost predicate CaseIn(w: Workspace, c: seq<Id>, x: Id)
    requires Listed(w.tasks, c)
  {
    x in w.cases && exists k :: k in c && w.tasks[k].intent.scope == w.cases[x].scope
  }

  // A token of the baseline stored for a task's scope.
  ghost predicate Refers(w: Workspace, k: Id, token: Token)
    requires k in w.tasks
  {
    var own := w.tasks[k].intent.scope;
    own in w.baselines && token == BaselineToken(w.baselines[own].scope, w.baselines[own].version)
  }

  lemma {:induction false} ScanRefs(w: Workspace, c: seq<Id>, at: Time, token: Token)
    requires Listed(w.tasks, c)
    ensures token in ScanBaselines(w, c, at).refs <==>
      exists i :: 0 <= i < |c| && (forall j | 0 <= j < i :: WithinBaseline(w, c[j], at)) && Refers(w, c[i], token)
  {
    if c == [] {
    } else {
      FaultMeans(w, c[0], at);
      ScanRefs(w, c[1..], at, token);
      if i :| 0 <= i < |c[1..]| && (forall j | 0 <= j < i :: WithinBaseline(w, c[1..][j], at)) && Refers(w, c[1..][i], token) {
        if WithinBaseline(w, c[0], at) {
          forall j | 0 <= j < i + 1
            ensures WithinBaseline(w, c[j], at)
          {
            assert j > 0 ==> c[1..][j - 1] == c[j];
          }
          assert Refers(w, c[i + 1], token);
        }
      }
      if i :| 0 <= i < |c| && (forall j | 0 <= j < i :: WithinBaseline(w, c[j], at)) && Refers(w, c[i], token) {
        if i > 0 {
          forall j | 0 <= j < i - 1
            ensures WithinBaseline(w, c[1..][j], at)
          {
            assert c[1..][j] == c[j + 1];
          }
          assert Refers(w, c[1..][i - 1], token);
        }
      }
    }
  }

  /**
   What a verdict is caused by: every case about a scope in the closure, under its present version, as open or as
   resolved; and, unless a case is open, every baseline consulted up to the first fault.
   */
  lemma CausesSay(w: Workspace, t: Id, at: Time, explicit: bool, token: Token)
    requires t in w.tasks && ClosureOf(w.tasks, t).Ok?
    ensures var c, causal := ClosureOf(w.tasks, t).value, PolicyOf(w, t, at, explicit).value.causal;
      token in causal <==>
        match token
          case CaseToken(x, n) => CaseIn(w, c, x) && w.cases[x].status == Open && w.cases[x].version == n
          case ResolutionToken(x, n) => CaseIn(w, c, x) && w.cases[x].status == Resolved && w.cases[x].version == n
          case BaselineToken(_, _) =>
            !OpenRiskIn(w, c)
            && exists i :: 0 <= i < |c| && (forall j | 0 <= j < i :: WithinBaseline(w, c[j], at)) && Refers(w, c[i], token)
  {
    var c := ClosureOf(w.tasks, t).value;
    BlockersMean(w, c);
    ScanRefs(w, c, at, token);
    CaseRefsSay(w, c, token);
    OnlyBaselines(w, c, at, token);
    var causal := PolicyOf(w, t, at, explicit).value.causal;
    var refs := CaseRefs(w.cases, Scopes(w.tasks, c));
    if OpenRiskIn(w, c) {
      assert causal == refs;
    } else {
      assert causal == refs + ScanBaselines(w, c, at).refs;
    }
  }

  lemma CaseRefsSay(w: Workspace, c: seq<Id>, token: Token)
    requires Listed(w.tasks, c)
    ensures token in CaseRefs(w.cases, Scopes(w.tasks, c)) <==>
      || (token.CaseToken? && CaseIn(w, c, token.caseId) && w.cases[token.caseId].status == Open
          && w.cases[token.caseId].version == token.version)
      || (token.ResolutionToken? && CaseIn(w, c, token.caseId) && w.cases[token.caseId].status == Resolved
          && w.cases[token.caseId].version == token.version)
  {
  }

  lemma OnlyBaselines(w: Workspace, c: seq<Id>, at: Time, token: Token)
    requires Listed(w.tasks, c)
    ensures token in ScanBaselines(w, c, at).refs ==> token.BaselineToken?
  {
    ScanRefs(w, c, at, token);
  }

  // ----- Proofs -----

  // The task's current decision is stored.
  ghost predicate Decided(w: Workspace, t: Id, d: Id)
    requires t in w.tasks
  {
    w.tasks[t].current == Some(d) && d in w.decisions
  }

  // Which reasons speak against a decision, each for itself.
  ghost predicate Against(w: Workspace, t: Id, body: DecisionBody, v: Verdicts, at: Time, invalid: set<InvalidReason>)
    requires t in w.tasks
  {
    && (DecisionExpired in invalid <==> body.expiresAt <= at)
    && (BasisChanged in invalid <==> BasisOf(w, t) != Ok(body.basis))
    && (StatusChanged in invalid <==> w.tasks[t].status != Of(body.verdict))
    && (PolicyChangedSince in invalid <==> body.verdict != v.verdict || multiset(body.reasons) != multiset(v.reasons))
  }

  lemma ReasonsSay(w: Workspace, t: Id, body: DecisionBody, v: Verdicts, at: Time)
    requires t in w.tasks
    ensures Against(w, t, body, v, at, InvalidReasons(w, t, body, v, at))
    ensures DecisionMissing !in InvalidReasons(w, t, body, v, at)
  {
  }

  lemma CurrentIs(w: Workspace, t: Id)
    requires t in w.tasks
    ensures CurrentDecision(w, t).Some? <==> exists d :: Decided(w, t, d)
    ensures forall d | Decided(w, t, d) :: CurrentDecision(w, t) == Some(w.decisions[d].body)
  {
    if CurrentDecision(w, t).Some? {
      assert Decided(w, t, w.tasks[t].current.value);
    }
  }

  /**
   A proof is valid exactly if the task's current decision is stored and unexpired, on the present basis, with the
   task's status, and the policy would decide and explain the same now; every reason against it is reported for itself.
   */
  lemma ValiditySays(w: Workspace, t: Id, at: Time)
    requires t in w.tasks && ClosureOf(w.tasks, t).Ok?
    ensures ValidityOf(w, t, at).Ok?
    ensures var x, v := ValidityOf(w, t, at).value, PolicyOf(w, t, at, false).value;
      && x.verdict == v.verdict && x.reasons == v.reasons && x.blockers == v.blockers
      && (DecisionMissing in x.invalid <==> !exists d :: Decided(w, t, d))
      && (forall d | Decided(w, t, d) :: Against(w, t, w.decisions[d].body, v, at, x.invalid))
      && (x.valid <==> x.invalid == {})
      && (x.preparable <==> x.valid && v.verdict == Ready)
  {
    CurrentIs(w, t);
    if CurrentDecision(w, t).Some? {
      ReasonsSay(w, t, CurrentDecision(w, t).value, PolicyOf(w, t, at, false).value, at);
    }
  }

  // ----- The recovery checklist -----

  // The step a task is told to take, from what stands in its way.
  ghost predicate StepFits(w: Workspace, t: Id, at: Time, step: Step)
    requires t in w.tasks && ClosureOf(w.tasks, t).Ok? && ValidityOf(w, t, at).Ok?
  {
    var c := ClosureOf(w.tasks, t).value;
    var faulty := exists k :: k in c && !WithinBaseline(w, k, at);
    var stale := exists k :: k in c && k != t && !ProvenNow(w, k, at);
    match step
    case NoReviewNeeded => ValidityOf(w, t, at).value.valid && ReadyConditions(w, t, at, false)
    case InvestigateAndResolve => OpenRiskIn(w, c)
    case OwnerReviewBaselineOrRequest => !OpenRiskIn(w, c) && faulty
    case ReviewAncestorsFirst => !OpenRiskIn(w, c) && !faulty && stale
    case ExplicitReconsideration =>
      !OpenRiskIn(w, c) && !faulty && !stale && (w.tasks[t].taints != map[] || !ValidityOf(w, t, at).value.valid)
  }

  lemma SomeFirstFault(w: Workspace, c: seq<Id>, at: Time) returns (i: nat)
    requires Listed(w.tasks, c) && exists k :: k in c && !WithinBaseline(w, k, at)
    ensures FirstFault(w, c, at, i)
  {
    i := 0;
    while WithinBaseline(w, c[i], at)
      invariant i < |c| && (forall j | 0 <= j < i :: WithinBaseline(w, c[j], at))
      invariant exists k :: k in c[i..] && !WithinBaseline(w, k, at)
      decreases |c| - i
    {
      assert c[i..] == [c[i]] + c[i + 1..];
      i := i + 1;
    }
  }

  lemma FaultReason(w: Workspace, t: Id, at: Time)
    requires t in w.tasks && ClosureOf(w.tasks, t).Ok? && !OpenRiskIn(w, ClosureOf(w.tasks, t).value)
    ensures var c, reasons := ClosureOf(w.tasks, t).value, PolicyOf(w, t, at, false).value.reasons;
      (exists k :: k in c && !WithinBaseline(w, k, at)) <==>
        BaselineMissing in reasons || BaselineExpired in reasons || LimitExceeded in reasons
  {
    var c := ClosureOf(w.tasks, t).value;
    PolicyReasons(w, t, at, false);
    PolicyMeaning(w, t, at, false);
    if exists k :: k in c && !WithinBaseline(w, k, at) {
      var i := SomeFirstFault(w, c, at);
    } else {
      ScanFaultIff(w, c, at);
      forall k | k in c
        ensures BaselineFault(w, k, at).None?
      {
        FaultMeans(w, k, at);
      }
    }
  }

  /** Every step of the checklist fits exactly what stands in the task's way; no two steps fit at once. */
  lemma StepSays(w: Workspace, t: Id, at: Time, step: Step)
    requires t in w.tasks && ClosureOf(w.tasks, t).Ok?
    ensures ValidityOf(w, t, at).Ok?
    ensures NextStep(ValidityOf(w, t, at).value) == step <==> StepFits(w, t, at, step)
  {
    ValiditySays(w, t, at);
    PolicyMeaning(w, t, at, false);
    BlockersMean(w, ClosureOf(w.tasks, t).value);
    if !OpenRiskIn(w, ClosureOf(w.tasks, t).value) {
      FaultReason(w, t, at);
      PolicyReasons(w, t, at, false);
    }
  }

  // ----- Bases -----

  // The two workspaces agree about the scopes of a closure: its baselines, cases and resolution links.
  ghost predicate SameAbout(w: Workspace, s: Workspace, scope: Scope) {
    && (scope in w.baselines <==> scope in s.baselines) && (scope in w.baselines ==> s.baselines[scope] == w.baselines[scope])
    && (forall x :: (x in w.cases && w.cases[x].scope == scope) <==> (x in s.cases && s.cases[x].scope == scope))
    && (forall x | x in w.cases && w.cases[x].scope == scope :: s.cases[x] == w.cases[x])
  }

  ghost predicate LinkAbout(w: Workspace, k: Key, proof: ResolutionProof, scopes: set<Scope>) {
    && k in w.artifacts && w.artifacts[k] == LinkArtifact(proof)
    && proof.caseId in w.cases && w.cases[proof.caseId].scope in scopes
  }

  ghost predicate SameTask(w: Workspace, s: Workspace, t: Id, k: Id)
    requires k in w.tasks && k in s.tasks
  {
    && s.tasks[k].intent == w.tasks[k].intent && s.tasks[k].dependsOn == w.tasks[k].dependsOn
    && (k != t ==> s.tasks[k].current == w.tasks[k].current && s.tasks[k].status == w.tasks[k].status)
  }

  /**
   What a basis commits to: of the closure each task's intent and parents, and of the ancestors also status and current
   decision; of its scopes the baselines, the cases and the links of their resolutions. Nothing else of the workspace,
   and nothing less.
   */
  lemma BasisCommits(w: Workspace, s: Workspace, t: Id)
    requires ClosureOf(w.tasks, t).Ok? && ClosureOf(s.tasks, t).Ok?
    ensures var a, b := ClosureOf(w.tasks, t).value, ClosureOf(s.tasks, t).value;
      BasisOf(s, t) == BasisOf(w, t) <==>
        && (forall k :: k in a <==> k in b)
        && (forall k | k in a :: k in s.tasks && SameTask(w, s, t, k))
        && (forall k | k in a :: SameAbout(w, s, w.tasks[k].intent.scope))
        && (forall k, proof :: LinkAbout(w, k, proof, Scopes(w.tasks, a)) <==> LinkAbout(s, k, proof, Scopes(s.tasks, b)))
  {
    var a, b := ClosureOf(w.tasks, t).value, ClosureOf(s.tasks, t).value;
    if BasisOf(s, t) == BasisOf(w, t) {
      BasisFixes(w, s, t, a, b);
    }
    if && (forall k :: k in a <==> k in b)
       && (forall k | k in a :: k in s.tasks && SameTask(w, s, t, k))
       && (forall k | k in a :: SameAbout(w, s, w.tasks[k].intent.scope))
       && (forall k, proof :: LinkAbout(w, k, proof, Scopes(w.tasks, a)) <==> LinkAbout(s, k, proof, Scopes(s.tasks, b)))
    {
      BasisFixed(w, s, t, a, b);
    }
  }

  lemma ScopesSame(w: Workspace, s: Workspace, t: Id, a: seq<Id>, b: seq<Id>)
    requires Listed(w.tasks, a) && Listed(s.tasks, b)
    requires (forall k :: k in a <==> k in b) && forall k | k in a :: s.tasks[k].intent == w.tasks[k].intent
    ensures Scopes(s.tasks, b) == Scopes(w.tasks, a)
  {
    forall scope
      ensures scope in Scopes(s.tasks, b) <==> scope in Scopes(w.tasks, a)
    {
      if k :| k in a && w.tasks[k].intent.scope == scope {
        assert k in b && s.tasks[k].intent.scope == scope;
      }
      if k :| k in b && s.tasks[k].intent.scope == scope {
        assert k in a;
      }
    }
  }

  lemma BasisFixes(w: Workspace, s: Workspace, t: Id, a: seq<Id>, b: seq<Id>)
    requires Listed(w.tasks, a) && Listed(s.tasks, b) && BasisOver(s, t, b) == BasisOver(w, t, a)
    ensures forall k :: k in a <==> k in b
    ensures forall k | k in a :: k in s.tasks && SameTask(w, s, t, k)
    ensures forall k | k in a :: SameAbout(w, s, w.tasks[k].intent.scope)
    ensures forall k, proof :: LinkAbout(w, k, proof, Scopes(w.tasks, a)) <==> LinkAbout(s, k, proof, Scopes(s.tasks, b))
  {
    var x, y := BasisOver(w, t, a), BasisOver(s, t, b);
    forall k
      ensures k in a <==> k in b
      ensures k in a ==> k in s.tasks && SameTask(w, s, t, k)
    {
      assert k in a <==> k in x.tasks;
      assert k in b <==> k in y.tasks;
      if k in a {
        assert x.tasks[k] == EntryOf(w.tasks[k], k == t) && y.tasks[k] == EntryOf(s.tasks[k], k == t);
      }
    }
    ScopesSame(w, s, t, a, b);
    forall k | k in a
      ensures SameAbout(w, s, w.tasks[k].intent.scope)
    {
      ScopeFixed(w, s, x, y, Scopes(w.tasks, a), w.tasks[k].intent.scope);
    }
    LinksFixed(w, s, Scopes(w.tasks, a));
  }

  lemma ScopeFixed(w: Workspace, s: Workspace, x: TaskBasis, y: TaskBasis, scopes: set<Scope>, scope: Scope)
    requires scope in scopes
    requires x.baselines == (map b | b in w.baselines && b in scopes :: w.baselines[b])
    requires y.baselines == (map b | b in s.baselines && b in scopes :: s.baselines[b])
    requires x.cases == CasesIn(w.cases, scopes) && y.cases == CasesIn(s.cases, scopes)
    requires x.baselines == y.baselines && x.cases == y.cases
    ensures SameAbout(w, s, scope)
  {
    assert scope in w.baselines <==> scope in x.baselines;
    assert scope in s.baselines <==> scope in y.baselines;
    forall c
      ensures (c in w.cases && w.cases[c].scope == scope) <==> (c in s.cases && s.cases[c].scope == scope)
      ensures c in w.cases && w.cases[c].scope == scope ==> s.cases[c] == w.cases[c]
    {
      assert c in x.cases <==> c in w.cases && w.cases[c].scope in scopes;
      assert c in y.cases <==> c in s.cases && s.cases[c].scope in scopes;
    }
  }

  lemma LinksFixed(w: Workspace, s: Workspace, scopes: set<Scope>)
    requires CasesIn(w.cases, scopes) == CasesIn(s.cases, scopes)
    requires LinksOf(w.artifacts, CasesIn(w.cases, scopes).Keys) == LinksOf(s.artifacts, CasesIn(s.cases, scopes).Keys)
    ensures forall k, proof :: LinkAbout(w, k, proof, scopes) <==> LinkAbout(s, k, proof, scopes)
  {
    forall k, proof
      ensures LinkAbout(w, k, proof, scopes) <==> LinkAbout(s, k, proof, scopes)
    {
      LinkListed(w, k, proof, scopes);
      LinkListed(s, k, proof, scopes);
    }
  }

  lemma LinkListed(w: Workspace, k: Key, proof: ResolutionProof, scopes: set<Scope>)
    ensures var links := LinksOf(w.artifacts, CasesIn(w.cases, scopes).Keys);
      LinkAbout(w, k, proof, scopes) <==> k in links && links[k] == proof
  {
    if k in w.artifacts && w.artifacts[k].LinkArtifact? {
      assert w.artifacts[k] == LinkArtifact(w.artifacts[k].proof);
    }
  }

  lemma BasisFixed(w: Workspace, s: Workspace, t: Id, a: seq<Id>, b: seq<Id>)
    requires Listed(w.tasks, a) && Listed(s.tasks, b) && (forall k :: k in a <==> k in b)
    requires forall k | k in a :: SameTask(w, s, t, k)
    requires forall k | k in a :: SameAbout(w, s, w.tasks[k].intent.scope)
    requires forall k, proof :: LinkAbout(w, k, proof, Scopes(w.tasks, a)) <==> LinkAbout(s, k, proof, Scopes(s.tasks, b))
    ensures BasisOver(s, t, b) == BasisOver(w, t, a)
  {
    ScopesSame(w, s, t, a, b);
    var scopes := Scopes(w.tasks, a);
    var x, y := BasisOver(w, t, a), BasisOver(s, t, b);
    assert x.tasks == y.tasks;
    forall scope | scope in scopes
      ensures SameAbout(w, s, scope)
    {
      var k :| k in a && w.tasks[k].intent.scope == scope;
    }
    AboutSame(w, s, scopes);
    LinksSame(w, s, scopes);
  }

  lemma AboutSame(w: Workspace, s: Workspace, scopes: set<Scope>)
    requires forall scope | scope in scopes :: SameAbout(w, s, scope)
    ensures (map b | b in w.baselines && b in scopes :: w.baselines[b]) == map b | b in s.baselines && b in scopes :: s.baselines[b]
    ensures CasesIn(w.cases, scopes) == CasesIn(s.cases, scopes)
  {
    forall x
      ensures x in CasesIn(w.cases, scopes) <==> x in CasesIn(s.cases, scopes)
      ensures x in CasesIn(w.cases, scopes) ==> CasesIn(s.cases, scopes)[x] == CasesIn(w.cases, scopes)[x]
    {
      if x in w.cases && w.cases[x].scope in scopes {
        assert SameAbout(w, s, w.cases[x].scope);
      }
      if x in s.cases && s.cases[x].scope in scopes {
        assert SameAbout(w, s, s.cases[x].scope);
      }
    }
  }

  lemma LinksSame(w: Workspace, s: Workspace, scopes: set<Scope>)
    requires forall k, proof :: LinkAbout(w, k, proof, scopes) <==> LinkAbout(s, k, proof, scopes)
    ensures LinksOf(w.artifacts, CasesIn(w.cases, scopes).Keys) == LinksOf(s.artifacts, CasesIn(s.cases, scopes).Keys)
  {
    var a, b := LinksOf(w.artifacts, CasesIn(w.cases, scopes).Keys), LinksOf(s.artifacts, CasesIn(s.cases, scopes).Keys);
    forall k
      ensures k in a <==> k in b
      ensures k in a ==> a[k] == b[k]
    {
      if k in a {
        LinkListed(w, k, a[k], scopes);
        LinkListed(s, k, a[k], scopes);
      }
      if k in b {
        LinkListed(w, k, b[k], scopes);
        LinkListed(s, k, b[k], scopes);
      }
    }
  }

  // ----- Investigations -----

  // A lesson about a case of the same scope and kind that is still resolved as it was when the lesson was kept.
  ghost predicate Teaches(w: Workspace, lesson: Lesson, c: Id)
    requires c in w.cases
  {
    && lesson.scope == w.cases[c].scope && lesson.kind == w.cases[c].kind
    && lesson.caseId != c && lesson.caseId in w.cases
    && w.cases[lesson.caseId].status == Resolved && w.cases[lesson.caseId].version == lesson.caseVersion
    && w.cases[lesson.caseId].resolvedSeq == Some(lesson.resolvedSeq)
  }

  /**
   What an investigation rests on: the case, the basis of every task that depends on its scope and of no other, the
   lessons that still teach about it, and its current source heads.
   */
  lemma InvestigationSays(w: Workspace, c: Id)
    requires WellFounded(w) && c in w.cases && InvestigationBasisOf(w, c).Ok?
    ensures var b := InvestigationBasisOf(w, c).value;
      && b.riskCase == w.cases[c]
      && (forall t :: t in b.affected <==> t in w.tasks && w.cases[c].scope in ScopesOf(w.tasks, t))
      && (forall t | t in b.affected :: BasisOf(w, t) == Ok(b.affected[t]))
      && (forall k :: k in b.precedents <==> k in w.lessons && Teaches(w, w.lessons[k], c))
      && (forall k | k in b.precedents :: b.precedents[k] == w.lessons[k])
      && Ok(b.external) == EvidenceHeads(w, c)
  {
    var affected := Affected(w.tasks, w.cases[c].scope);
    forall t
      ensures t in affected <==> t in w.tasks && w.cases[c].scope in ScopesOf(w.tasks, t)
    {
      if t in w.tasks {
        AffectedExact(w.tasks, w.cases[c].scope, t);
      }
    }
  }
}
