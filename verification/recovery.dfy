/** Reconsidering a task's closure in its published order recovers all of it. */
module Recovery {
  import opened Common
  import opened CaseworkModels
  import opened DependencyGraph
  import opened CasePolicy
  import opened Commands
  import opened Envelope
  import opened Safety
  import opened ProofValidity

  // A task that is READY on a proof of its present content, good until the horizon.
  ghost predicate Restored(w: Workspace, k: Id, horizon: Time) {
    && k in w.tasks && w.tasks[k].status == Of(Ready) && w.tasks[k].taints == map[]
    && CurrentDecision(w, k).Some?
    && var d := CurrentDecision(w, k).value;
    && d.verdict == Ready && d.reasons == READY_REASONS && d.taskId == k
    && d.expiresAt >= horizon && BasisOf(w, k) == Ok(d.basis)
  }

  // Nothing outside the tasks themselves stands in the way until the horizon.
  ghost predicate Unobstructed(w: Workspace, c: seq<Id>, horizon: Time) {
    && Listed(w.tasks, c)
    && (forall k | k in w.cases && w.cases[k].scope in Scopes(w.tasks, c) :: w.cases[k].status == Resolved)
    && (forall k | k in c :: BaselineCarries(w, k, horizon))
  }

  ghost predicate BaselineCarries(w: Workspace, k: Id, horizon: Time)
    requires k in w.tasks
  {
    var intent := w.tasks[k].intent;
    && intent.scope in w.baselines && w.baselines[intent.scope].expiresAt >= horizon
    && intent.amount <= w.baselines[intent.scope].limit
  }

  // The first i tasks of the order are restored.
  ghost predicate Progress(w: Workspace, t: Id, c: seq<Id>, i: nat, horizon: Time) {
    && WellFounded(w) && ClosureOf(w.tasks, t) == Ok(c) && i <= |c|
    && Unobstructed(w, c, horizon) && LinksKeyed(w.artifacts) && CurrentsKnown(w)
    && forall j | 0 <= j < i :: Restored(w, c[j], horizon)
  }

  lemma ClosureOfBefore(tasks: map<Id, Task>, t: Id, c: seq<Id>, i: nat)
    requires ClosureOf(tasks, t) == Ok(c) && i < |c|
    ensures ClosureOf(tasks, c[i]).Ok?
    ensures forall k | k in ClosureOf(tasks, c[i]).value && k != c[i] :: k in c[..i]
    ensures forall j | 0 <= j < i :: ClosureOf(tasks, c[j]).Ok? && c[j] != c[i] && c[i] !in ClosureOf(tasks, c[j]).value
  {
    var g := GraphOf(tasks);
    AncestorsExact(g, t);
    ClosureBefore(g, t, i);
    forall k | k in ClosureOf(tasks, c[i]).value && k != c[i]
      ensures k in c[..i]
    {
      assert k in Closure(g, c[i]);
      assert k in c[..i + 1];
    }
    forall j | 0 <= j < i
      ensures ClosureOf(tasks, c[j]).Ok? && c[j] != c[i] && c[i] !in ClosureOf(tasks, c[j]).value
    {
      ClosureBefore(g, t, j);
      assert c[i] in Closure(g, c[j]) <==> c[i] in ClosureOf(tasks, c[j]).value;
      assert c[i] !in c[..j + 1];
    }
  }

  lemma RestoredIsCurrent(w: Workspace, k: Id, horizon: Time, at: Time)
    requires Restored(w, k, horizon) && at < horizon
    ensures ParentCurrent(w, k, at)
  {
  }

  // The next task in the order meets every condition for READY under review.
  lemma NextIsReady(w: Workspace, t: Id, c: seq<Id>, i: nat, horizon: Time, at: Time)
    requires Progress(w, t, c, i, horizon) && i < |c| && at < horizon
    ensures ClosureOf(w.tasks, c[i]).Ok? && PolicyOf(w, c[i], at, true).value.verdict == Ready
  {
    NextConditions(w, t, c, i, horizon, at);
    PolicyMeaning(w, c[i], at, true);
  }

  lemma NextConditions(w: Workspace, t: Id, c: seq<Id>, i: nat, horizon: Time, at: Time)
    requires Progress(w, t, c, i, horizon) && i < |c| && at < horizon
    ensures ClosureOf(w.tasks, c[i]).Ok? && ReadyConditions(w, c[i], at, true)
  {
    ClosureOfBefore(w.tasks, t, c, i);
    ClosureOfNested(w.tasks, t, c[i]);
    var own := ClosureOf(w.tasks, c[i]).value;
    forall k | k in own
      ensures BaselineFault(w, k, at).None?
    {
      assert BaselineCarries(w, k, horizon);
    }
    forall k | k in own && k != c[i]
      ensures ParentCurrent(w, k, at)
    {
      var j :| 0 <= j < i && c[j] == k;
      RestoredIsCurrent(w, k, horizon, at);
    }
    assert forall s | s in Scopes(w.tasks, own) :: s in Scopes(w.tasks, c);
  }

  lemma EarlierLasts(w: Workspace, t: Id, c: seq<Id>, i: nat, horizon: Time, k: Id)
    requires Progress(w, t, c, i, horizon) && i < |c| && k in w.tasks
    requires k == c[i] || exists j :: 0 <= j < i && c[j] == k
    ensures w.tasks[k].intent.scope in w.baselines ==> horizon <= w.baselines[w.tasks[k].intent.scope].expiresAt
    ensures k != c[i] && CurrentDecision(w, k).Some? ==> horizon <= CurrentDecision(w, k).value.expiresAt
  {
    assert k in c;
    assert BaselineCarries(w, k, horizon);
    if k != c[i] {
      var j :| 0 <= j < i && c[j] == k;
      assert Restored(w, c[j], horizon);
    }
  }

  // Its proof lasts to the horizon.
  lemma NextLasts(w: Workspace, t: Id, c: seq<Id>, i: nat, horizon: Time, at: Time)
    requires Progress(w, t, c, i, horizon) && i < |c| && at < horizon <= at + TEN_MINUTES
    ensures ReadyExpiry(w, c[i], at, at + TEN_MINUTES).Ok?
    ensures ReadyExpiry(w, c[i], at, at + TEN_MINUTES).value >= horizon
  {
    ClosureOfBefore(w.tasks, t, c, i);
    ClosureOfNested(w.tasks, t, c[i]);
    var own := ClosureOf(w.tasks, c[i]).value;
    LimitOverIsMinimum(w, c[i], own, at + TEN_MINUTES);
    forall k | k in own
      ensures w.tasks[k].intent.scope in w.baselines ==> horizon <= w.baselines[w.tasks[k].intent.scope].expiresAt
      ensures k != c[i] && CurrentDecision(w, k).Some? ==> horizon <= CurrentDecision(w, k).value.expiresAt
    {
      EarlierLasts(w, t, c, i, horizon, k);
    }
    assert BoundedBelow(w, c[i], own, horizon);
  }

  lemma RecordRestored(w: Workspace, t: Id, decision: Decision, k: Id, horizon: Time)
    requires t in w.tasks && decision.body.blockers <= w.cases.Keys && LinksKeyed(w.artifacts)
    requires decision.body.decisionId !in w.decisions && CurrentsKnown(w)
    requires Restored(w, k, horizon) && k != t && ClosureOf(w.tasks, k).Ok? && t !in ClosureOf(w.tasks, k).value
    ensures Restored(RecordDecision(w, t, decision, true), k, horizon)
  {
    RecordFrame(w, t, decision, true, k, horizon);
  }

  lemma RecordedRestored(w: Workspace, t: Id, decision: Decision, horizon: Time)
    requires t in w.tasks && decision.body.blockers == {} && LinksKeyed(w.artifacts) && CurrentsKnown(w)
    requires ClosureOf(w.tasks, t).Ok? && decision.body.decisionId !in w.decisions
    requires decision.body.verdict == Ready && decision.body.reasons == READY_REASONS && decision.body.taskId == t
    requires decision.body.expiresAt >= horizon && BasisOf(w, t) == Ok(decision.body.basis)
    ensures Restored(RecordDecision(w, t, decision, true), t, horizon)
  {
    RecordFrame(w, t, decision, true, t, horizon);
  }

  lemma RecordUnobstructed(w: Workspace, t: Id, decision: Decision, c: seq<Id>, horizon: Time)
    requires t in w.tasks && decision.body.blockers <= w.cases.Keys && Unobstructed(w, c, horizon)
    ensures Unobstructed(RecordDecision(w, t, decision, true), c, horizon)
  {
    var s := RecordDecision(w, t, decision, true);
    assert SameShape(w.tasks, s.tasks);
    ShapeFrame(w.tasks, s.tasks);
    forall k | k in c
      ensures BaselineCarries(s, k, horizon)
    {
      assert BaselineCarries(w, k, horizon);
    }
  }

  // A READY policy with a live expiry makes a READY decision on the present basis.
  lemma ReadyDecides(w: Workspace, k: Id, call: Call, horizon: Time)
    requires k in w.tasks && ClosureOf(w.tasks, k).Ok?
    requires PolicyOf(w, k, call.env.at, true).value.verdict == Ready
    requires ReadyExpiry(w, k, call.env.at, call.env.at + TEN_MINUTES).Ok?
    requires ReadyExpiry(w, k, call.env.at, call.env.at + TEN_MINUTES).value >= horizon
    ensures Decide(w, k, call, true).Ok?
    ensures var made := Decide(w, k, call, true).value;
      var d := made.decision.body;
      && d.verdict == Ready && d.reasons == READY_REASONS && d.blockers == {} && d.taskId == k
      && d.decisionId == call.env.newId && d.expiresAt >= horizon && BasisOf(w, k) == Ok(d.basis)
      && made.state == RecordDecision(w, k, made.decision, true)
  {
    PolicyMeaning(w, k, call.env.at, true);
    DecisionSays(w, k, call, true);
  }

  /** One reviewer reconsideration of the next task in the order makes it READY and spares the earlier ones. */
  lemma ReconsiderProgresses(w: Workspace, t: Id, c: seq<Id>, i: nat, horizon: Time, call: Call)
    requires Progress(w, t, c, i, horizon) && i < |c|
    requires call.env.at < horizon <= call.env.at + TEN_MINUTES && call.env.newId !in w.decisions
    ensures Decide(w, c[i], call, true).Ok?
    ensures Decide(w, c[i], call, true).value.decision.body.verdict == Ready
    ensures Progress(Decide(w, c[i], call, true).value.state, t, c, i + 1, horizon)
  {
    NextIsReady(w, t, c, i, horizon, call.env.at);
    NextLasts(w, t, c, i, horizon, call.env.at);
    ReadyDecides(w, c[i], call, horizon);
    var made := Decide(w, c[i], call, true).value;
    RecordProgresses(w, t, c, i, horizon, made.decision);
  }

  lemma RecordProgresses(w: Workspace, t: Id, c: seq<Id>, i: nat, horizon: Time, decision: Decision)
    requires Progress(w, t, c, i, horizon) && i < |c|
    requires decision.body.blockers == {} && decision.body.decisionId !in w.decisions
    requires decision.body.verdict == Ready && decision.body.reasons == READY_REASONS && decision.body.taskId == c[i]
    requires decision.body.expiresAt >= horizon && BasisOf(w, c[i]) == Ok(decision.body.basis)
    ensures Progress(RecordDecision(w, c[i], decision, true), t, c, i + 1, horizon)
  {
    var s := RecordDecision(w, c[i], decision, true);
    ClosureOfBefore(w.tasks, t, c, i);
    assert SameShape(w.tasks, s.tasks);
    ShapeFrame(w.tasks, s.tasks);
    RecordUnobstructed(w, c[i], decision, c, horizon);
    RecordedRestored(w, c[i], decision, horizon);
    forall j | 0 <= j < i
      ensures Restored(s, c[j], horizon)
    {
      RecordRestored(w, c[i], decision, c[j], horizon);
    }
  }

  // ----- Through the envelope -----

  // Bookkeeping of the envelope is invisible to progress.
  lemma BookkeepingProgress(w: Workspace, s: Workspace, t: Id, c: seq<Id>, i: nat, horizon: Time)
    requires Progress(w, t, c, i, horizon)
    requires s == w.(revision := s.revision, audit := s.audit, completed := s.completed)
    ensures Progress(s, t, c, i, horizon)
  {
    forall j | 0 <= j < i
      ensures Restored(s, c[j], horizon)
    {
      assert Restored(w, c[j], horizon);
      BasisFrame(w, s, c[j]);
    }
    forall k | k in c
      ensures BaselineCarries(s, k, horizon)
    {
      assert BaselineCarries(w, k, horizon);
    }
  }

  // A well-posed reviewer reconsideration: a new key, the present revision, a task the reviewer sees.
  ghost predicate WellPosed(w: Workspace, call: Call, k: Id) {
    && call.command == Reconsider(k) && call.actor.role == Reviewer && SeesTask(w, call.actor, k)
    && KeyOf(call) !in w.completed && call.expected == w.revision && w.revision < MAX_REVISION
    && call.env.newId !in w.decisions
  }

  lemma WellPosedAccepted(w: Workspace, call: Call, k: Id)
    requires WellPosed(w, call, k) && Decide(w, k, call, true).Ok?
    ensures Accepted(w, call)
    ensures Next(w, call) == Record(w, Decide(w, k, call, true).value.state, call, Change(w, call).value.outcome)
  {
    assert Change(w, call) == EvaluateChange(w, call, k, true);
    ReconsideredAs(w, call, k);
    WellPosedChecks(w, call, k);
    AcceptedUnderNewKey(w, call);
  }

  lemma ReconsideredAs(w: Workspace, call: Call, k: Id)
    requires SeesTask(w, call.actor, k) && Decide(w, k, call, true).Ok?
    ensures EvaluateChange(w, call, k, true).Ok?
    ensures EvaluateChange(w, call, k, true).value.state == Decide(w, k, call, true).value.state
  {
  }

  // A command that passes every check of the envelope under a new key is applied.
  lemma AcceptedUnderNewKey(w: Workspace, call: Call)
    requires Admit(call).Ok? && KeyOf(call) !in w.completed && Precheck(w, call.actor, call.command).Ok?
    requires Current(w, call).Ok? && !call.command.Bootstrap? && w.revision < MAX_REVISION && Change(w, call).Ok?
    ensures Accepted(w, call)
    ensures Next(w, call) == Record(w, Change(w, call).value.state, call, Change(w, call).value.outcome)
  {
  }

  lemma WellPosedChecks(w: Workspace, call: Call, k: Id)
    requires WellPosed(w, call, k)
    ensures Admit(call).Ok? && KeyOf(call) !in w.completed
    ensures Precheck(w, call.actor, call.command).Ok? && Current(w, call).Ok?
  {
  }

  lemma RecoveryStep(w: Workspace, t: Id, c: seq<Id>, i: nat, horizon: Time, call: Call)
    requires Progress(w, t, c, i, horizon) && i < |c| && WellPosed(w, call, c[i])
    requires call.env.at < horizon <= call.env.at + TEN_MINUTES
    ensures Accepted(w, call) && Progress(Next(w, call), t, c, i + 1, horizon)
  {
    ReconsiderProgresses(w, t, c, i, horizon, call);
    WellPosedAccepted(w, call, c[i]);
    var s := Decide(w, c[i], call, true).value.state;
    BookkeepingProgress(s, Next(w, call), t, c, i + 1, horizon);
  }

  ghost predicate LeadsTo(ws: seq<Workspace>, calls: seq<Call>, i: nat)
    requires i < |calls| && |ws| == |calls| + 1
  {
    ws[i + 1] == Next(ws[i], calls[i])
  }

  // A run of reconsiderations that follows the published order.
  ghost predicate ReconsidersInOrder(ws: seq<Workspace>, calls: seq<Call>, c: seq<Id>, horizon: Time) {
    && |calls| == |c| && |ws| == |c| + 1
    && (forall i | 0 <= i < |c| ::
          && WellPosed(ws[i], calls[i], c[i])
          && calls[i].env.at < horizon <= calls[i].env.at + TEN_MINUTES)
    && (forall i: nat | i < |c| :: LeadsTo(ws, calls, i))
  }

  lemma StepInOrder(ws: seq<Workspace>, calls: seq<Call>, t: Id, c: seq<Id>, horizon: Time, i: nat)
    requires ReconsidersInOrder(ws, calls, c, horizon) && i < |c| && Progress(ws[i], t, c, i, horizon)
    ensures Accepted(ws[i], calls[i]) && Progress(ws[i + 1], t, c, i + 1, horizon)
  {
    RecoveryStep(ws[i], t, c, i, horizon, calls[i]);
    assert LeadsTo(ws, calls, i);
  }

  lemma {:induction false} OrderProgresses(ws: seq<Workspace>, calls: seq<Call>, t: Id, c: seq<Id>, horizon: Time,
                                           i: nat)
    requires ReconsidersInOrder(ws, calls, c, horizon) && i <= |c|
    requires Progress(ws[0], t, c, 0, horizon)
    ensures Progress(ws[i], t, c, i, horizon)
    decreases i
  {
    if i == 0 {
    } else {
      OrderProgresses(ws, calls, t, c, horizon, i - 1);
      StepInOrder(ws, calls, t, c, horizon, i - 1);
    }
  }

  lemma OrderAccepted(ws: seq<Workspace>, calls: seq<Call>, t: Id, c: seq<Id>, horizon: Time, i: nat)
    requires ReconsidersInOrder(ws, calls, c, horizon) && i < |c|
    requires Progress(ws[0], t, c, 0, horizon)
    ensures Accepted(ws[i], calls[i])
  {
    OrderProgresses(ws, calls, t, c, horizon, i);
    StepInOrder(ws, calls, t, c, horizon, i);
  }

  lemma RestoredIsPreparable(w: Workspace, t: Id, c: seq<Id>, horizon: Time, k: Id, at: Time)
    requires Progress(w, t, c, |c|, horizon) && k in c && at < horizon
    ensures k in w.tasks && ValidityOf(w, k, at).Ok? && ValidityOf(w, k, at).value.preparable
  {
    var i :| 0 <= i < |c| && c[i] == k;
    assert Restored(w, k, horizon);
    assert Progress(w, t, c, i, horizon);
    NextIsReady(w, t, c, i, horizon, at);
    PolicyMeaning(w, k, at, true);
    PolicyMeaning(w, k, at, false);
    assert ReadyConditions(w, k, at, false);
    RecordedIsValid(w, k, CurrentDecision(w, k).value, at);
  }

  /**
   Recovery completeness. When no case is open in a task's closure and its baselines suffice up to a horizon,
   reviewers who reconsider the tasks one by one in the order of the closure are accepted every time, and at the
   end every task of the closure can be prepared for review, without further reconsideration, at every instant
   before the horizon. The horizon may be any instant up to ten minutes after the first reconsideration.
   */
  lemma RecoveryIsComplete(ws: seq<Workspace>, calls: seq<Call>, t: Id, c: seq<Id>, horizon: Time, at: Time)
    requires |ws| > 0 && WellFounded(ws[0]) && ClosureOf(ws[0].tasks, t) == Ok(c)
    requires Unobstructed(ws[0], c, horizon) && LinksKeyed(ws[0].artifacts) && CurrentsKnown(ws[0])
    requires ReconsidersInOrder(ws, calls, c, horizon) && at < horizon
    ensures forall i | 0 <= i < |c| :: Accepted(ws[i], calls[i])
    ensures var done := ws[|c|];
      forall k | k in c :: k in done.tasks && done.tasks[k].status == Of(Ready)
                           && ValidityOf(done, k, at).Ok? && ValidityOf(done, k, at).value.preparable
  {
    OrderProgresses(ws, calls, t, c, horizon, |c|);
    forall i | 0 <= i < |c|
      ensures Accepted(ws[i], calls[i])
    {
      OrderAccepted(ws, calls, t, c, horizon, i);
    }
    forall k | k in c
      ensures k in ws[|c|].tasks && ws[|c|].tasks[k].status == Of(Ready)
      ensures ValidityOf(ws[|c|], k, at).Ok? && ValidityOf(ws[|c|], k, at).value.preparable
    {
      var i :| 0 <= i < |c| && c[i] == k;
      assert Restored(ws[|c|], c[i], horizon);
      RestoredIsPreparable(ws[|c|], t, c, horizon, k, at);
    }
  }
}
