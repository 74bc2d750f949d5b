/** What a workspace must satisfy to be loaded, how a used key is answered, and what every refusal says. */
module EnvelopeLaws {
  import opened Common
  import opened CaseworkModels
  import opened CasePolicy
  import opened Commands
  import opened Envelope
  import opened Safety
  import opened CommandLaws

  // ----- Loading -----

  // The audit is numbered from one, and each event carries its own hash and its predecessor's.
  ghost predicate AuditSound(audit: seq<AuditEntry>) {
    forall i | 0 <= i < |audit| ::
      && audit[i].hash == EventHash(audit[i].event) && audit[i].event.sequence == i + 1
      && audit[i].event.previous == if i == 0 then Genesis else audit[i - 1].hash
  }

  // The history holds versions one, two and so on, and ends with the present record.
  ghost predicate CaseHistorySound(w: Workspace, c: Id) {
    && c in w.cases && c in w.caseHistory
    && |w.caseHistory[c]| == w.cases[c].version && w.cases[c].version > 0
    && w.caseHistory[c][w.cases[c].version - 1] == w.cases[c]
    && forall i | 0 <= i < |w.caseHistory[c]| :: w.caseHistory[c][i].version == i + 1
  }

  ghost predicate BaselineHistorySound(w: Workspace, s: Scope) {
    && s in w.baselines && s in w.baselineHistory
    && |w.baselineHistory[s]| == w.baselines[s].version && w.baselines[s].version > 0
    && w.baselineHistory[s][w.baselines[s].version - 1] == w.baselines[s]
    && forall i | 0 <= i < |w.baselineHistory[s]| :: w.baselineHistory[s][i].version == i + 1
  }

  lemma AuditIff(audit: seq<AuditEntry>)
    ensures Chained(audit) <==> AuditSound(audit)
  {
    forall i | 0 <= i < |audit|
      ensures LastHash(audit[..i]) == if i == 0 then Genesis else audit[i - 1].hash
    {
    }
  }

  lemma HistoriesIff(w: Workspace)
    ensures CasesIntact(w.cases, w.caseHistory) <==> forall c | c in w.cases :: CaseHistorySound(w, c)
    ensures BaselinesIntact(w.baselines, w.baselineHistory) <==> forall s | s in w.baselines :: BaselineHistorySound(w, s)
  {
    forall c | c in w.cases
      ensures (c in w.caseHistory && CaseHistoryIntact(w.cases[c], w.caseHistory[c])) <==> CaseHistorySound(w, c)
    {
    }
    forall s | s in w.baselines
      ensures (s in w.baselineHistory && BaselineHistoryIntact(w.baselines[s], w.baselineHistory[s])) <==> BaselineHistorySound(w, s)
    {
    }
  }

  /**
   A sealed workspace loads exactly if its seal and its audit chain hold, the chain is as long as the revision, every
   history leads up to the present record, and every decision and report is stored under its own name and root.
   */
  lemma LoadsIff(s: Sealed)
    ensures var w := s.body;
      Validate(s).Ok? <==>
        && s.root == w && AuditSound(w.audit) && |w.audit| == w.revision
        && (forall c | c in w.cases :: CaseHistorySound(w, c)) && (forall b | b in w.baselines :: BaselineHistorySound(w, b))
        && (forall d | d in w.decisions :: w.decisions[d].body.decisionId == d && w.decisions[d].proofRoot == w.decisions[d].body)
        && (forall r | r in w.reports :: w.reports[r].body.reportId == r && w.reports[r].root == w.reports[r].body)
  {
    AuditIff(s.body.audit);
    HistoriesIff(s.body);
  }

  // ----- Used keys -----

  // A review that was prepared could still be prepared of the decision.
  ghost predicate StillPrepared(w: Workspace, t: Id, d: Id, at: Time) {
    && ReadyNow(w, t, at) && d in w.decisions
    && w.tasks[t].current == Some(w.decisions[d].body.decisionId)
    && w.decisions[d].body.expiresAt > at && BasisOf(w, t) == Ok(w.decisions[d].body.basis)
  }

  /**
   A used key never changes anything: the stored response is repeated, marked as replayed, to the command and session it
   answered, a prepared review only while it still stands; anything else is refused as a conflict.
   */
  lemma ReplaySays(w: Workspace, call: Call)
    requires WellFounded(w) && Authorized(w, call) && (call.actor.actorId, call.key) in w.completed
    ensures var known := w.completed[(call.actor.actorId, call.key)];
      && Next(w, call) == w
      && Attempt(w, call) ==
           if known.request != Fingerprint(call.command, call.actor.actorId, call.session) then Err(IdempotencyConflict)
           else if call.command.PrepareReview? && !StillPrepared(w, call.command.taskId, call.command.decisionId, call.env.at)
           then Err(StaleOrBlockedReview)
           else Ok(Taken(w, Response(known.response.outcome, known.response.revision, known.response.eventHash, true)))
  {
    AuthorizedIff(w, call);
    NextMeaning(w, call);
    if call.command.PrepareReview? {
      PreparedIff(w, call, call.command.taskId, call.command.decisionId);
    }
  }

  lemma PreparedIff(w: Workspace, call: Call, t: Id, d: Id)
    requires WellFounded(w) && call.command == PrepareReview(t, d) && Precheck(w, call.actor, call.command).Ok?
    ensures ReplayCheck(w, call) == if StillPrepared(w, t, d, call.env.at) then Ok(()) else Err(StaleOrBlockedReview)
  {
    GraphOkClosure(w.tasks, t);
    PolicyMeaning(w, t, call.env.at, false);
  }

  /** A new key is refused in this order: the actor, the revision or basis it expects, a second start, and no room. */
  lemma RefusedInOrder(w: Workspace, call: Call)
    requires (call.actor.actorId, call.key) !in w.completed && Authorized(w, call)
    ensures !StillExpected(w, call) && !call.command.Investigate? ==> Attempt(w, call) == Err(RevisionConflict)
    ensures StillExpected(w, call) && call.command.Bootstrap? && w.revision > 0 ==> Attempt(w, call) == Err(WorkspaceAlreadyExists)
    ensures StillExpected(w, call) && !call.command.Bootstrap? && w.revision >= 5000 ==>
      Attempt(w, call) == Err(WorkspaceCapacityReached)
  {
    AuthorizedIff(w, call);
    ExpectedIff(w, call);
  }
}
