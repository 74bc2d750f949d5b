/** One call of `finalize`, and what any sequence of them can do to the stored record. */
module GuardFinality {
  import opened Common
  import opened GuardModels

  // What a call brings: the transaction named by the caller, and what the anchor would answer.
  datatype Request = Request(tx: Option<Id>, verification: AnchorVerification, plan: Option<Id>)

  // The anchor reports on the transaction it was asked about.
  predicate Echoes(q: Request) {
    q.verification.state in {Pending, Verified} ==> q.verification.tx == q.tx
  }

  predicate Matches(f: Finalization, d: DecisionDraft) {
    f.decisionId == d.decisionId && f.verdict == d.verdict && f.proofRoot == d.proofRoot
  }

  function BoundTx(f: Finalization): Option<Id> {
    if f.verification.Some? then f.verification.value.tx else None
  }

  function AnchoredAs(d: DecisionDraft, v: AnchorVerification, executable: bool, notes: set<FinalNote>): Finalization {
    Finalization(d.decisionId, d.verdict, v.state, d.proofRoot, executable, Some(v), None, notes)
  }

  // What would be executable is withdrawn with a note: there is no adapter to execute it.
  function WithVerification(d: DecisionDraft, v: AnchorVerification): Finalization {
    var notes := set n | n in v.notes :: AnchorNote(n);
    var executable := d.verdict == Ready && v.state == Verified;
    if executable then AnchoredAs(d, v, false, notes + {ExecutionNotImplemented}) else AnchoredAs(d, v, executable, notes)
  }

  function Planned(d: DecisionDraft, plan: Option<Id>): Finalization {
    if plan.Some? then
      Finalization(d.decisionId, d.verdict, ConfirmationRequired, d.proofRoot, false, None, plan, {WalletConfirmationRequired})
    else if d.verdict == Ready then
      Finalization(d.decisionId, d.verdict, Failed, d.proofRoot, false, None, None, {AnchorRequired})
    else
      Finalization(d.decisionId, d.verdict, LocalFinalized, d.proofRoot, false, None, None, {FinalizedLocally})
  }

  // The answer, and the record that is saved, if one is.
  datatype Step = Step(answer: Answer<Finalization>, saved: Option<Finalization>)

  function Kept(existing: Option<Finalization>, step: Step): Option<Finalization> {
    if step.saved.Some? then step.saved else existing
  }

  // With no record yet, or one that still waits: verify the named transaction, or plan.
  function Advance(d: DecisionDraft, q: Request): Step {
    if q.tx.Some? then
      var result := WithVerification(d, q.verification);
      Step(Done(result), if q.verification.state in {Pending, Verified} then Some(result) else None)
    else
      Step(Done(Planned(d, q.plan)), Some(Planned(d, q.plan)))
  }

  /** One call on a valid, live decision whose memory is unchanged. */
  function Finalize(d: DecisionDraft, existing: Option<Finalization>, q: Request): Step {
    if existing.None? then Advance(d, q)
    else
      var f := existing.value;
      if !Matches(f, d) then Step(Refused(Integrity), None)
      else if f.state in {Verified, LocalFinalized, Failed} then
        if f.state == Verified && q.tx.Some? && q.tx != BoundTx(f) then Step(Refused(OtherTransaction), None)
        else Step(Done(f), None)
      else if f.state == Pending && q.tx.Some? && f.verification.Some? && q.tx != BoundTx(f) then
        Step(Refused(OtherTransaction), None)
      else if q.tx.None? then Step(Done(f), None)
      else Advance(d, q)
  }

  // ----- Monotonicity -----

  function Rank(f: Option<Finalization>): nat {
    if f.None? then 0
    else match f.value.state
      case NotConfigured => 0
      case ConfirmationRequired => 1
      case Pending => 2
      case Verified => 3
      case LocalFinalized => 3
      case Failed => 3
  }

  // A record that this module can have stored for the decision.
  ghost predicate Reachable(d: DecisionDraft, f: Option<Finalization>) {
    f.Some? ==>
      && Matches(f.value, d) && !f.value.executable && f.value.state != NotConfigured
      && (f.value.state in {Pending, Verified} <==> f.value.verification.Some?)
      && (f.value.state in {Pending, Verified} ==> BoundTx(f.value).Some?)
      && (f.value.state == Failed ==> d.verdict == Ready) && (f.value.state == LocalFinalized ==> d.verdict != Ready)
  }

  // The stored record stays, or moves up; a bound transaction is kept, and a terminal record is.
  ghost predicate Progresses(f: Option<Finalization>, g: Option<Finalization>) {
    && Rank(f) <= Rank(g)
    && (Rank(f) == Rank(g) && Rank(f) != 2 ==> f == g)
    && (f.Some? && BoundTx(f.value).Some? ==> g.Some? && BoundTx(g.value) == BoundTx(f.value))
    && (g.Some? && g.value.state in {LocalFinalized, Failed} ==> f.None? || f == g)
  }

  /** Every call keeps the record reachable and only moves it forward; nothing it answers is executable. */
  lemma FinalizeProgresses(d: DecisionDraft, f: Option<Finalization>, q: Request)
    requires Reachable(d, f) && Echoes(q)
    ensures var step := Finalize(d, f, q);
      && Reachable(d, Kept(f, step)) && Progresses(f, Kept(f, step))
      && (step.answer.Done? ==> !step.answer.value.executable && Matches(step.answer.value, d))
  {
  }

  // The record after some calls, starting from none.
  function Replayed(d: DecisionDraft, qs: seq<Request>): Option<Finalization> {
    if qs == [] then None
    else
      var before := Replayed(d, qs[..|qs| - 1]);
      Kept(before, Finalize(d, before, qs[|qs| - 1]))
  }

  lemma {:induction false} ReplayReachable(d: DecisionDraft, qs: seq<Request>)
    requires forall q | q in qs :: Echoes(q)
    ensures Reachable(d, Replayed(d, qs))
  {
    if qs == [] {
    } else {
      ReplayReachable(d, qs[..|qs| - 1]);
      FinalizeProgresses(d, Replayed(d, qs[..|qs| - 1]), qs[|qs| - 1]);
    }
  }

  lemma ProgressesThrough(f: Option<Finalization>, g: Option<Finalization>, h: Option<Finalization>)
    requires Progresses(f, g) && Progresses(g, h)
    ensures Progresses(f, h)
  {
  }

  /**
   Over any sequence of calls the stored record only moves from none through CONFIRMATION_REQUIRED and PENDING to
   VERIFIED, or from none to a terminal local record, and the transaction it is once bound to never changes.
   */
  lemma {:induction false} FinalityIsMonotone(d: DecisionDraft, qs: seq<Request>, more: seq<Request>)
    requires forall q | q in qs + more :: Echoes(q)
    ensures Progresses(Replayed(d, qs), Replayed(d, qs + more))
    decreases |more|
  {
    if more == [] {
      assert qs + more == qs;
    } else {
      var rest, last := more[..|more| - 1], more[|more| - 1];
      assert (qs + more)[..|qs + more| - 1] == qs + rest && (qs + more)[|qs + more| - 1] == last;
      assert forall q | q in qs + rest :: q in qs + more;
      assert last in qs + more;
      FinalityIsMonotone(d, qs, rest);
      ReplayReachable(d, qs + rest);
      FinalizeProgresses(d, Replayed(d, qs + rest), last);
      ProgressesThrough(Replayed(d, qs), Replayed(d, qs + rest), Replayed(d, qs + more));
    }
  }
}
