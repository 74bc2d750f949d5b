/** What a READY verdict means now, until when, and for everything it depends on. */
module ProofValidity {
  import opened Common
  import opened CaseworkModels
  import opened DependencyGraph
  import opened CasePolicy
  import opened Commands
  import opened Safety

  // ----- Stored READY decisions carry the READY reasons -----

  ghost predicate ReadyReasoned(decisions: map<Id, Decision>) {
    forall d | d in decisions && decisions[d].body.verdict == Ready :: decisions[d].body.reasons == READY_REASONS
  }

  // ----- READY is downward closed -----

  lemma ClosureOfNested(tasks: map<Id, Task>, t: Id, a: Id)
    requires ClosureOf(tasks, t).Ok? && a in ClosureOf(tasks, t).value
    ensures ClosureOf(tasks, a).Ok?
    ensures forall k | k in ClosureOf(tasks, a).value :: k in ClosureOf(tasks, t).value
    ensures a != t ==> t !in ClosureOf(tasks, a).value
  {
    var g := GraphOf(tasks);
    assert a in Closure(g, t);
    ClosureNested(g, t, a);
    forall k | k in ClosureOf(tasks, a).value
      ensures k in ClosureOf(tasks, t).value
    {
      assert k in Closure(g, a);
    }
    assert t in Closure(g, a) <==> t in ClosureOf(tasks, a).value;
  }

  /** If the policy says READY for a task, every ancestor is READY on its own, live proof. */
  lemma ReadyDownwardClosed(w: Workspace, t: Id, at: Time, explicit: bool, a: Id)
    requires t in w.tasks && ClosureOf(w.tasks, t).Ok? && ReadyReasoned(w.decisions)
    requires PolicyOf(w, t, at, explicit).value.verdict == Ready
    requires a in ClosureOf(w.tasks, t).value && a != t
    ensures PolicyOf(w, a, at, false).Ok? && PolicyOf(w, a, at, false).value.verdict == Ready
    ensures ValidityOf(w, a, at).Ok? && ValidityOf(w, a, at).value.preparable
  {
    ClosureOfNested(w.tasks, t, a);
    PolicyMeaning(w, t, at, explicit);
    PolicyMeaning(w, a, at, false);
    assert ParentCurrent(w, a, at);
    assert ReadyConditions(w, a, at, false);
    var d := CurrentDecision(w, a).value;
    assert d.reasons == READY_REASONS;
    assert InvalidReasons(w, a, d, PolicyOf(w, a, at, false).value, at) == {};
  }

  ghost predicate Preparable(w: Workspace, k: Id, at: Time)
    requires k in w.tasks
  {
    ValidityOf(w, k, at).Ok? && ValidityOf(w, k, at).value.preparable
  }

  lemma PreparableRow(w: Workspace, c: seq<Id>, at: Time)
    requires Listed(w.tasks, c) && c != [] && Preparable(w, c[0], at) && Rows(w, c[1..], at).Ok?
    ensures Rows(w, c, at).Ok?
    ensures var rows := Rows(w, c, at).value;
      && rows != [] && rows[1..] == Rows(w, c[1..], at).value
      && rows[0].taskId == c[0] && rows[0].step == NoReviewNeeded
  {
    var v := ValidityOf(w, c[0], at).value;
    var row := Row(c[0], w.tasks[c[0]].dependsOn, NextStep(v), v);
    assert Rows(w, c, at) == Ok([row] + Rows(w, c[1..], at).value);
  }

  ghost predicate NothingToReview(rows: seq<Row>, c: seq<Id>) {
    && |rows| == |c|
    && forall i | 0 <= i < |c| :: rows[i].taskId == c[i] && rows[i].step == NoReviewNeeded
  }

  lemma {:induction false} AllPreparableRows(w: Workspace, c: seq<Id>, at: Time)
    requires Listed(w.tasks, c)
    requires forall k | k in c :: Preparable(w, k, at)
    ensures Rows(w, c, at).Ok? && NothingToReview(Rows(w, c, at).value, c)
  {
    if c == [] {
    } else {
      assert c[0] in c;
      AllPreparableRows(w, c[1..], at);
      PreparableRow(w, c, at);
      NothingMore(Rows(w, c, at).value, c);
    }
  }

  lemma NothingMore(rows: seq<Row>, c: seq<Id>)
    requires c != [] && rows != [] && NothingToReview(rows[1..], c[1..])
    requires rows[0].taskId == c[0] && rows[0].step == NoReviewNeeded
    ensures NothingToReview(rows, c)
  {
    forall i | 0 <= i < |c|
      ensures rows[i].taskId == c[i] && rows[i].step == NoReviewNeeded
    {
      if i > 0 {
        assert rows[i] == rows[1..][i - 1] && c[i] == c[1..][i - 1];
      }
    }
  }

  /** A task whose proof can be prepared leaves nothing on its recovery checklist. */
  lemma PreparableNeedsNoReview(w: Workspace, t: Id, at: Time)
    requires t in w.tasks && ReadyReasoned(w.decisions)
    requires ValidityOf(w, t, at).Ok? && ValidityOf(w, t, at).value.preparable
    ensures ClosureOf(w.tasks, t).Ok? && RecoveryPlan(w, t, at).Ok?
    ensures NothingToReview(RecoveryPlan(w, t, at).value, ClosureOf(w.tasks, t).value)
  {
    var c := ClosureOf(w.tasks, t).value;
    forall k | k in c
      ensures Preparable(w, k, at)
    {
      if k != t {
        ReadyDownwardClosed(w, t, at, false, k);
      }
    }
    AllPreparableRows(w, c, at);
  }

  /** An accepted review preparation names a task whose whole closure is preparable. */
  lemma PreparedIsPreparable(w: Workspace, call: Call, t: Id, d: Id)
    requires ReadyReasoned(w.decisions) && PrepareChange(w, call, t, d).Ok?
    ensures t in w.tasks && ValidityOf(w, t, call.env.at).Ok? && ValidityOf(w, t, call.env.at).value.preparable
  {
    PolicyMeaning(w, t, call.env.at, false);
    var v := PolicyOf(w, t, call.env.at, false).value;
    assert InvalidReasons(w, t, w.decisions[d].body, v, call.env.at) == {};
  }

  // ----- Expiry -----

  lemma ConditionsAtAnother(w: Workspace, t: Id, at: Time, later: Time, explicit: bool)
    requires t in w.tasks && ClosureOf(w.tasks, t).Ok? && ReadyConditions(w, t, at, explicit)
    ensures ReadyConditions(w, t, later, explicit) <==> BoundedBelow(w, t, ClosureOf(w.tasks, t).value, later + 1)
  {
    var c := ClosureOf(w.tasks, t).value;
    forall k | k in c
      ensures BaselineFault(w, k, at).None?
      ensures k != t ==> ParentCurrent(w, k, at) && CurrentDecision(w, k).Some?
    {
    }
    if ReadyConditions(w, t, later, explicit) {
      forall k | k in c
        ensures BaselineFault(w, k, later).None?
        ensures k != t ==> ParentCurrent(w, k, later)
      {
      }
    }
  }

  // READY at an instant, spelled out as bounds on that instant.
  lemma ReadyAtAnother(w: Workspace, t: Id, at: Time, later: Time, explicit: bool)
    requires t in w.tasks && ClosureOf(w.tasks, t).Ok? && PolicyOf(w, t, at, explicit).value.verdict == Ready
    ensures var c := ClosureOf(w.tasks, t).value;
      PolicyOf(w, t, later, explicit).value.verdict == Ready <==> BoundedBelow(w, t, c, later + 1)
  {
    PolicyMeaning(w, t, at, explicit);
    PolicyMeaning(w, t, later, explicit);
    ConditionsAtAnother(w, t, at, later, explicit);
  }

  /**
   The expiry of a READY proof is sound and tight: it can always be computed, the unchanged workspace stays
   READY at every earlier instant, and when it falls short of ten minutes READY ends exactly there.
   */
  lemma ExpirySoundAndTight(w: Workspace, t: Id, at: Time, explicit: bool)
    requires t in w.tasks && ClosureOf(w.tasks, t).Ok? && PolicyOf(w, t, at, explicit).value.verdict == Ready
    ensures ReadyExpiry(w, t, at, at + TEN_MINUTES).Ok?
    ensures var e := ReadyExpiry(w, t, at, at + TEN_MINUTES).value;
      && at < e <= at + TEN_MINUTES
      && (forall later: Time | later < e :: PolicyOf(w, t, later, explicit).value.verdict == Ready)
      && (e < at + TEN_MINUTES ==> PolicyOf(w, t, e, explicit).value.verdict != Ready)
  {
    var c := ClosureOf(w.tasks, t).value;
    var e := LimitOver(w, t, c, at + TEN_MINUTES);
    LimitOverIsMinimum(w, t, c, at + TEN_MINUTES);
    ReadyAtAnother(w, t, at, at, explicit);
    assert BoundedBelow(w, t, c, at + 1) && at + 1 <= at + TEN_MINUTES;
    assert at + 1 <= e;
    forall later: Time | later < e
      ensures PolicyOf(w, t, later, explicit).value.verdict == Ready
    {
      ReadyAtAnother(w, t, at, later, explicit);
      assert BoundedBelow(w, t, c, later + 1);
    }
    if e < at + TEN_MINUTES {
      ReadyAtAnother(w, t, at, e, explicit);
      assert Attained(w, t, c, e);
      assert !BoundedBelow(w, t, c, e + 1);
    }
  }

  // ----- Recording a decision leaves the rest of its closure as it was -----

  // A link artifact lives under the key of its own case version.
  ghost predicate LinksKeyed(artifacts: map<Key, Artifact>) {
    forall k | k in artifacts && artifacts[k].LinkArtifact? ::
      k == LinkKey(artifacts[k].proof.caseId, artifacts[k].proof.caseVersion)
  }

  // Two workspaces that agree on everything the bases of some tasks read.
  ghost predicate SameGround(a: Workspace, b: Workspace) {
    && SameShape(a.tasks, b.tasks) && a.baselines == b.baselines && a.cases == b.cases
    && forall cases :: LinksOf(a.artifacts, cases) == LinksOf(b.artifacts, cases)
  }

  lemma BasisFrame(a: Workspace, b: Workspace, t: Id)
    requires SameGround(a, b)
    requires ClosureOf(a.tasks, t).Ok? ==> forall k | k in ClosureOf(a.tasks, t).value && k != t ::
      a.tasks[k].current == b.tasks[k].current && a.tasks[k].status == b.tasks[k].status
    ensures BasisOf(a, t) == BasisOf(b, t)
  {
    ShapeFrame(a.tasks, b.tasks);
    var r := ClosureOf(a.tasks, t);
    if r.Ok? {
      var c := r.value;
      assert (map k | k in c :: EntryOf(a.tasks[k], k == t)) == map k | k in c :: EntryOf(b.tasks[k], k == t);
      assert BasisOver(a, t, c) == BasisOver(b, t, c);
    }
  }

  lemma EscalationKeepsLinks(artifacts: map<Key, Artifact>, t: Id, body: DecisionBody, cases: set<Id>)
    requires LinksKeyed(artifacts)
    ensures LinksOf(artifacts[EscalationKey(t, body.decisionId) := EscalationArtifact(body)], cases) == LinksOf(artifacts, cases)
  {
  }

  lemma RecordGround(w: Workspace, t: Id, decision: Decision, explicit: bool)
    requires t in w.tasks && decision.body.blockers <= w.cases.Keys && LinksKeyed(w.artifacts)
    ensures SameGround(w, RecordDecision(w, t, decision, explicit))
  {
    forall cases
      ensures LinksOf(RecordDecision(w, t, decision, explicit).artifacts, cases) == LinksOf(w.artifacts, cases)
    {
      EscalationKeepsLinks(w.artifacts, t, decision.body, cases);
    }
  }

  // A task's current decision is stored.
  ghost predicate CurrentsKnown(w: Workspace) {
    forall t | t in w.tasks && w.tasks[t].current.Some? :: w.tasks[t].current.value in w.decisions
  }

  /** Recording a decision changes no basis and no liveness of a task whose closure does not contain it. */
  lemma RecordFrame(w: Workspace, t: Id, decision: Decision, explicit: bool, k: Id, at: Time)
    requires t in w.tasks && decision.body.blockers <= w.cases.Keys && LinksKeyed(w.artifacts)
    requires decision.body.decisionId !in w.decisions && CurrentsKnown(w)
    requires k in w.tasks && ClosureOf(w.tasks, k).Ok?
    requires k == t || t !in ClosureOf(w.tasks, k).value
    ensures BasisOf(RecordDecision(w, t, decision, explicit), k) == BasisOf(w, k)
    ensures k != t ==> (ParentCurrent(RecordDecision(w, t, decision, explicit), k, at) <==> ParentCurrent(w, k, at))
  {
    RecordGround(w, t, decision, explicit);
    BasisFrame(w, RecordDecision(w, t, decision, explicit), k);
  }

  // Two workspaces that look alike from a task, apart from its own taints.
  ghost predicate Alike(w: Workspace, s: Workspace, t: Id, at: Time)
    requires t in w.tasks && ClosureOf(w.tasks, t).Ok?
  {
    && SameShape(w.tasks, s.tasks) && s.baselines == w.baselines && s.cases == w.cases
    && forall k | k in ClosureOf(w.tasks, t).value && k != t :: ParentCurrent(s, k, at) <==> ParentCurrent(w, k, at)
  }

  lemma {:induction false} ScanFrame(a: Workspace, b: Workspace, c: seq<Id>, at: Time)
    requires SameShape(a.tasks, b.tasks) && a.baselines == b.baselines && Listed(a.tasks, c)
    ensures ScanBaselines(a, c, at) == ScanBaselines(b, c, at)
  {
    if c == [] {
    } else {
      ScanFrame(a, b, c[1..], at);
    }
  }

  // READY carries over to an untainted likeness; any other verdict to one that lost no taint.
  lemma VerdictCarries(w: Workspace, s: Workspace, t: Id, at: Time, explicit: bool)
    requires t in w.tasks && ClosureOf(w.tasks, t).Ok? && Alike(w, s, t, at)
    requires if PolicyOf(w, t, at, explicit).value.verdict == Ready then s.tasks[t].taints == map[]
             else w.tasks[t].taints != map[] ==> s.tasks[t].taints != map[]
    ensures PolicyOf(s, t, at, false).Ok?
    ensures var v, v' := PolicyOf(w, t, at, explicit).value, PolicyOf(s, t, at, false).value;
      v'.verdict == v.verdict && v'.reasons == v.reasons
  {
    ShapeFrame(w.tasks, s.tasks);
    ScanFrame(w, s, ClosureOf(w.tasks, t).value, at);
  }

  lemma RecordAlike(w: Workspace, t: Id, decision: Decision, explicit: bool, at: Time)
    requires t in w.tasks && ClosureOf(w.tasks, t).Ok?
    requires decision.body.blockers <= w.cases.Keys && LinksKeyed(w.artifacts)
    requires decision.body.decisionId !in w.decisions && CurrentsKnown(w)
    ensures Alike(w, RecordDecision(w, t, decision, explicit), t, at)
  {
    forall k | k in ClosureOf(w.tasks, t).value && k != t
      ensures ParentCurrent(RecordDecision(w, t, decision, explicit), k, at) <==> ParentCurrent(w, k, at)
    {
      ClosureOfNested(w.tasks, t, k);
      RecordFrame(w, t, decision, explicit, k, at);
    }
  }

  // What a decision's body says about the workspace it was made in.
  lemma DecisionSays(w: Workspace, t: Id, call: Call, explicit: bool)
    requires t in w.tasks && Decide(w, t, call, explicit).Ok?
    ensures var made := Decide(w, t, call, explicit).value;
      var d := made.decision.body;
      && d.taskId == t && d.decisionId == call.env.newId && d.blockers <= w.cases.Keys
      && ClosureOf(w.tasks, t).Ok?
      && made.state == RecordDecision(w, t, made.decision, explicit)
      && d.verdict == PolicyOf(w, t, call.env.at, explicit).value.verdict
      && d.reasons == PolicyOf(w, t, call.env.at, explicit).value.reasons
      && BasisOf(w, t) == Ok(d.basis) && d.expiresAt > call.env.at
      && (d.verdict == Ready ==> ReadyExpiry(w, t, call.env.at, call.env.at + TEN_MINUTES) == Ok(d.expiresAt))
      && (d.verdict == Ready ==> d.blockers == {} && (explicit || w.tasks[t].taints == map[]))
  {
    DecisionParts(w, t, call, explicit);
  }

  lemma DecidedTaints(w: Workspace, t: Id, decision: Decision, explicit: bool)
    requires t in w.tasks && decision.body.blockers <= w.cases.Keys
    requires decision.body.verdict == Ready ==> decision.body.blockers == {} && (explicit || w.tasks[t].taints == map[])
    ensures var task := DecidedTask(w, t, decision, explicit);
      if decision.body.verdict == Ready then task.taints == map[]
      else w.tasks[t].taints != map[] ==> task.taints != map[]
  {
    if decision.body.verdict == Ready {
      assert BlockerTokens(w.cases, decision.body.blockers) == {};
    } else if w.tasks[t].taints != map[] {
      var token :| token in w.tasks[t].taints;
      assert token in DecidedTask(w, t, decision, explicit).taints;
    }
  }

  /** The verdict and reasons of a fresh decision are what the policy, without review, says afterwards. */
  lemma VerdictAfterDecision(w: Workspace, t: Id, call: Call, explicit: bool)
    requires t in w.tasks && Decide(w, t, call, explicit).Ok? && LinksKeyed(w.artifacts)
    requires call.env.newId !in w.decisions && CurrentsKnown(w)
    ensures var made := Decide(w, t, call, explicit).value;
      var after := PolicyOf(made.state, t, call.env.at, false);
      && after.Ok? && after.value.verdict == made.decision.body.verdict && after.value.reasons == made.decision.body.reasons
  {
    var made := Decide(w, t, call, explicit).value;
    DecisionSays(w, t, call, explicit);
    DecidedTaints(w, t, made.decision, explicit);
    RecordAlike(w, t, made.decision, explicit, call.env.at);
    VerdictCarries(w, made.state, t, call.env.at, explicit);
  }

  /** A READY proof stays READY, without review, at every instant before its recorded expiry, and ends there if early. */
  lemma ReadyUntilExpiry(w: Workspace, t: Id, call: Call, explicit: bool, made: DecisionMade, later: Time)
    requires t in w.tasks && Decide(w, t, call, explicit) == Ok(made) && LinksKeyed(w.artifacts)
    requires call.env.newId !in w.decisions && CurrentsKnown(w)
    requires made.decision.body.verdict == Ready
    ensures PolicyOf(made.state, t, later, false).Ok?
    ensures later < made.decision.body.expiresAt ==> PolicyOf(made.state, t, later, false).value.verdict == Ready
    ensures later == made.decision.body.expiresAt < call.env.at + TEN_MINUTES ==>
      PolicyOf(made.state, t, later, false).value.verdict != Ready
  {
    var at, e := call.env.at, made.decision.body.expiresAt;
    assert ClosureOf(w.tasks, t).Ok? && PolicyOf(w, t, at, explicit).value.verdict == Ready
        && ReadyExpiry(w, t, at, at + TEN_MINUTES) == Ok(e) by {
      DecisionSays(w, t, call, explicit);
    }
    assert Alike(w, made.state, t, later) by {
      DecisionSays(w, t, call, explicit);
      RecordAlike(w, t, made.decision, explicit, later);
    }
    assert made.state.tasks[t].taints == map[] && (explicit || w.tasks[t].taints == map[]) by {
      DecisionSays(w, t, call, explicit);
      DecidedTaints(w, t, made.decision, explicit);
    }
    CarriedUntilExpiry(w, made.state, t, at, explicit, e, later);
  }

  lemma CarriedUntilExpiry(w: Workspace, s: Workspace, t: Id, at: Time, explicit: bool, e: Time, later: Time)
    requires t in w.tasks && ClosureOf(w.tasks, t).Ok? && PolicyOf(w, t, at, explicit).value.verdict == Ready
    requires ReadyExpiry(w, t, at, at + TEN_MINUTES) == Ok(e) && Alike(w, s, t, later)
    requires s.tasks[t].taints == map[] && (explicit || w.tasks[t].taints == map[])
    ensures PolicyOf(s, t, later, false).Ok?
    ensures later < e ==> PolicyOf(s, t, later, false).value.verdict == Ready
    ensures later == e < at + TEN_MINUTES ==> PolicyOf(s, t, later, false).value.verdict != Ready
  {
    ReadyAround(w, t, at, explicit, e, later);
    ReviewedTaints(w, s, t, later, explicit);
  }

  lemma ReadyAround(w: Workspace, t: Id, at: Time, explicit: bool, e: Time, later: Time)
    requires t in w.tasks && ClosureOf(w.tasks, t).Ok? && PolicyOf(w, t, at, explicit).value.verdict == Ready
    requires ReadyExpiry(w, t, at, at + TEN_MINUTES) == Ok(e)
    ensures later < e ==> PolicyOf(w, t, later, explicit).value.verdict == Ready
    ensures later == e < at + TEN_MINUTES ==> PolicyOf(w, t, later, explicit).value.verdict != Ready
  {
    ExpirySoundAndTight(w, t, at, explicit);
  }

  // With its own taints gone, a task is READY without review iff it was READY under review.
  lemma ReviewedTaints(w: Workspace, s: Workspace, t: Id, at: Time, explicit: bool)
    requires t in w.tasks && ClosureOf(w.tasks, t).Ok? && Alike(w, s, t, at)
    requires s.tasks[t].taints == map[] && (explicit || w.tasks[t].taints == map[])
    ensures PolicyOf(s, t, at, false).Ok?
    ensures PolicyOf(s, t, at, false).value.verdict == PolicyOf(w, t, at, explicit).value.verdict
  {
    ShapeFrame(w.tasks, s.tasks);
    ScanFrame(w, s, ClosureOf(w.tasks, t).value, at);
  }

  /** A fresh decision, whatever its verdict, is a valid proof at the instant it is made. */
  lemma FreshDecisionValid(w: Workspace, t: Id, call: Call, explicit: bool)
    requires t in w.tasks && Decide(w, t, call, explicit).Ok? && LinksKeyed(w.artifacts)
    requires call.env.newId !in w.decisions && CurrentsKnown(w)
    ensures var s := Decide(w, t, call, explicit).value.state;
      ValidityOf(s, t, call.env.at).Ok? && ValidityOf(s, t, call.env.at).value.valid
  {
    var made := Decide(w, t, call, explicit).value;
    DecisionSays(w, t, call, explicit);
    VerdictAfterDecision(w, t, call, explicit);
    RecordFrame(w, t, made.decision, explicit, t, call.env.at);
    RecordedIsValid(made.state, t, made.decision.body, call.env.at);
  }

  lemma RecordedIsValid(s: Workspace, t: Id, d: DecisionBody, at: Time)
    requires t in s.tasks && CurrentDecision(s, t) == Some(d) && s.tasks[t].status == Of(d.verdict)
    requires d.expiresAt > at && BasisOf(s, t) == Ok(d.basis)
    requires PolicyOf(s, t, at, false).Ok?
    requires PolicyOf(s, t, at, false).value.verdict == d.verdict && PolicyOf(s, t, at, false).value.reasons == d.reasons
    ensures ValidityOf(s, t, at).Ok? && ValidityOf(s, t, at).value.valid
  {
    assert InvalidReasons(s, t, d, PolicyOf(s, t, at, false).value, at) == {};
  }
}
