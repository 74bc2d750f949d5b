/** What an observation may contribute, and what the remembered observations decide about an intent. */
module GuardPolicy {
  import opened Common
  import opened GuardModels

  // ----- Classification -----

  const TRUSTED: set<Mode> := {DemoFixture, IdentityVerified, BaseTestnet, BaseMainnet}

  function AllowedFields(kind: Kind): set<Name> {
    match kind
    case BaselineApproved => {Target, ChainId, Method, MaxAmount, ExpiresAt}
    case DisputeOpened => {Target, DisputeId, DisputeStatus}
    case TargetRevoked => {Target, ReasonCode}
    case VendorNote => {}
  }

  datatype Reading = Valid(fact: Fact) | Invalid(note: Note)

  function Read<T>(value: Option<T>, wrap: T -> Fact, note: Note): Reading {
    if value.Some? then Valid(wrap(value.value)) else Invalid(note)
  }

  function ValidateFact(kind: Kind, name: Name, raw: Raw): Reading {
    match name
    case Target => Read(raw.address, (a: Id) => Address(a), InvalidTarget)
    case ChainId => if raw.chain in {Some(8453), Some(84532)} then Valid(Chain(raw.chain.value)) else Invalid(InvalidChain)
    case Method => Read(raw.operation, (m: Id) => MethodName(m), InvalidMethod)
    case MaxAmount =>
      if raw.amount.Some? && 0.0 < raw.amount.value <= 1_000_000.0 then Valid(Amount(raw.amount.value)) else Invalid(InvalidAmount)
    case ExpiresAt => Read(raw.instant, (t: Time) => Instant(t), InvalidExpiry)
    case DisputeStatus => if kind == DisputeOpened && raw.isOpen then Valid(OpenStatus) else Invalid(InvalidStatus)
    case DisputeId => Read(raw.identifier, (i: Id) => Identifier(i), InvalidDisputeId)
    case ReasonCode => Read(raw.revocation, (c: Id) => Revocation(c), InvalidReason)
    case _ => Invalid(UnknownField)
  }

  function ReadField(o: Observation, name: Name): Reading
    requires name in o.facts
  {
    if name in AllowedFields(o.kind) then ValidateFact(o.kind, name, o.facts[name]) else Invalid(UnknownField)
  }

  datatype Classification = Classification(status: ObservationStatus, accepted: map<Name, Fact>, quarantined: set<Name>, notes: set<Note>)

  // A field counts only if it is allowed for its kind, well formed, from a trusted source and no vendor's note.
  function Counts(o: Observation, name: Name): bool
    requires name in o.facts
  {
    ReadField(o, name).Valid? && o.mode in TRUSTED && o.kind != VendorNote
  }

  function AcceptedOf(o: Observation): map<Name, Fact> {
    map n | n in o.facts && Counts(o, n) :: ReadField(o, n).fact
  }

  function QuarantinedOf(o: Observation): set<Name> {
    (set n | n in o.facts && !Counts(o, n)) + if o.text.Some? || o.kind == VendorNote then {RawText} else {}
  }

  function TextNotes(text: Option<Text>): set<Note> {
    if text.None? then {}
    else if text.value.patterns == {} then {UntrustedText}
    else set p | p in text.value.patterns :: Instruction(p)
  }

  function FieldNotes(o: Observation): set<Note> {
    set n | n in o.facts && ReadField(o, n).Invalid? :: ReadField(o, n).note
  }

  function Readable(o: Observation): map<Name, Fact> {
    map n | n in o.facts && ReadField(o, n).Valid? :: ReadField(o, n).fact
  }

  function Unreadable(o: Observation): set<Name> {
    set n | n in o.facts && ReadField(o, n).Invalid?
  }

  function SourceNotes(o: Observation): set<Note> {
    (if o.mode !in TRUSTED && Readable(o) != map[] then {SourceNotVerified} else {})
    + if o.kind == VendorNote then {VendorNeverAuthoritative} else {}
  }

  function NotesOf(o: Observation): set<Note> {
    var notes := FieldNotes(o) + TextNotes(o.text) + SourceNotes(o);
    if notes == {} then {StructuredFactAccepted} else notes
  }

  function StatusOf(o: Observation): ObservationStatus {
    if AcceptedOf(o) != map[] then if QuarantinedOf(o) != {} then PartiallyAccepted else Accepted
    else if o.mode == CallerSupplied && o.facts != map[] then ReviewRequired
    else Quarantined
  }

  function ClassificationOf(o: Observation): Classification {
    Classification(StatusOf(o), AcceptedOf(o), QuarantinedOf(o), NotesOf(o))
  }

  lemma NotesNeverPlain(o: Observation)
    ensures StructuredFactAccepted !in FieldNotes(o) + TextNotes(o.text) + SourceNotes(o)
  {
  }

  // Something is quarantined exactly when there is a reason code for it.
  lemma QuarantineIsExplained(o: Observation)
    ensures QuarantinedOf(o) == {} <==> FieldNotes(o) + TextNotes(o.text) + SourceNotes(o) == {}
  {
    forall n | n in o.facts && !Counts(o, n)
      ensures FieldNotes(o) + SourceNotes(o) != {}
    {
      if ReadField(o, n).Invalid? {
        assert ReadField(o, n).note in FieldNotes(o);
      } else {
        assert n in Readable(o);
        assert o.mode !in TRUSTED ==> SourceNotVerified in SourceNotes(o);
        assert o.kind == VendorNote ==> VendorNeverAuthoritative in SourceNotes(o);
      }
    }
    if o.text.Some? && o.text.value.patterns != {} {
      var p :| p in o.text.value.patterns;
      assert Instruction(p) in TextNotes(o.text);
    }
    if FieldNotes(o) != {} {
      var note :| note in FieldNotes(o);
      var n :| n in o.facts && ReadField(o, n).Invalid? && ReadField(o, n).note == note;
      assert n in QuarantinedOf(o);
    }
    if o.mode !in TRUSTED && Readable(o) != map[] {
      var n :| n in Readable(o);
      assert n in QuarantinedOf(o);
    }
    assert o.text.Some? || o.kind == VendorNote ==> RawText in QuarantinedOf(o);
  }

  /**
   No field is lost and none counts twice: each supplied field is either accepted, with the value it reads as, or
   quarantined; nothing else is accepted, and nothing else but the free text is quarantined; a source that is not
   trusted contributes nothing; and a plain acceptance is reported exactly when nothing is quarantined.
   */
  lemma ClassificationPartitions(o: Observation, n: Name)
    ensures var c := ClassificationOf(o);
      && (n in o.facts ==> (n in c.accepted || n in c.quarantined))
      && (n in c.accepted ==> n in o.facts && n in AllowedFields(o.kind) && ReadField(o, n) == Valid(c.accepted[n]))
      && !(n in c.accepted && n in c.quarantined)
      && (n in c.quarantined <==>
            (n in o.facts && n !in c.accepted) || (n == RawText && (o.text.Some? || o.kind == VendorNote)))
      && (c.notes == {StructuredFactAccepted} <==> c.quarantined == {})
      && (o.mode !in TRUSTED || o.kind == VendorNote ==> c.accepted == map[])
      && (c.status in {Accepted, PartiallyAccepted} <==> c.accepted != map[])
  {
    QuarantineIsExplained(o);
    NotesNeverPlain(o);
    if RawText in o.facts {
      assert !Counts(o, RawText);
    }
    if o.mode !in TRUSTED || o.kind == VendorNote {
      assert forall k | k in o.facts :: !Counts(o, k);
    }
  }

  method ReadFields(o: Observation) returns (accepted: map<Name, Fact>, quarantined: set<Name>, notes: set<Note>)
    ensures accepted == Readable(o) && quarantined == Unreadable(o) && notes == FieldNotes(o)
  {
    accepted, quarantined, notes := map[], {}, {};
    var rest := o.facts.Keys;
    while rest != {}
      invariant rest <= o.facts.Keys
      invariant accepted == map n | n in o.facts && n !in rest && ReadField(o, n).Valid? :: ReadField(o, n).fact
      invariant quarantined == set n | n in o.facts && n !in rest && ReadField(o, n).Invalid?
      invariant notes == set n | n in o.facts && n !in rest && ReadField(o, n).Invalid? :: ReadField(o, n).note
      decreases rest
    {
      var n :| n in rest;
      match ReadField(o, n) {
        case Valid(fact) => accepted := accepted[n := fact];
        case Invalid(note) =>
          quarantined := quarantined + {n};
          notes := notes + {note};
      }
      rest := rest - {n};
    }
  }

  method ReadText(text: Option<Text>) returns (quarantined: set<Name>, notes: set<Note>)
    ensures quarantined == (if text.Some? then {RawText} else {}) && notes == TextNotes(text)
  {
    quarantined, notes := {}, {};
    if text.Some? {
      quarantined := {RawText};
      notes := set p | p in text.value.patterns :: Instruction(p);
      if text.value.patterns == {} {
        notes := {UntrustedText};
      }
    }
  }

  // Which readable facts count, and which do not because of where they come from.
  lemma CountedFacts(o: Observation)
    ensures AcceptedOf(o) == if o.mode in TRUSTED && o.kind != VendorNote then Readable(o) else map[]
    ensures QuarantinedOf(o) == Unreadable(o)
      + (if o.mode in TRUSTED && o.kind != VendorNote then {} else Readable(o).Keys)
      + if o.text.Some? || o.kind == VendorNote then {RawText} else {}
  {
  }

  lemma VendorReadsNothing(o: Observation)
    requires o.kind == VendorNote
    ensures Readable(o) == map[]
  {
    forall n | n in o.facts
      ensures ReadField(o, n).Invalid?
    {
    }
  }

  /** Splits an observation into facts that count and fields that are quarantined. */
  method Classify(o: Observation) returns (c: Classification)
    ensures c == ClassificationOf(o)
  {
    var accepted, quarantined, notes := ReadFields(o);
    var inText, textNotes := ReadText(o.text);
    quarantined, notes := quarantined + inText, notes + textNotes;
    if o.mode !in TRUSTED && accepted != map[] {
      quarantined := quarantined + accepted.Keys;
      accepted := map[];
      notes := notes + {SourceNotVerified};
    }
    if o.kind == VendorNote {
      VendorReadsNothing(o);
      accepted := map[];
      quarantined := quarantined + {RawText};
      notes := notes + {VendorNeverAuthoritative};
    }
    CountedFacts(o);
    assert quarantined == QuarantinedOf(o);
    assert notes == FieldNotes(o) + TextNotes(o.text) + SourceNotes(o);
    var status :=
      if accepted != map[] && quarantined != {} then PartiallyAccepted
      else if accepted != map[] then Accepted
      else if o.mode == CallerSupplied && o.facts != map[] then ReviewRequired
      else Quarantined;
    c := Classification(status, accepted, quarantined, if notes == {} then {StructuredFactAccepted} else notes);
  }

  // ----- Policy -----

  predicate ActiveFor(item: StoredObservation, mode: Mode) {
    && item.payload.status in {Accepted, PartiallyAccepted}
    && if mode == DemoFixture then item.payload.mode in TRUSTED
       else item.payload.mode in {IdentityVerified, BaseTestnet, BaseMainnet}
  }

  predicate About(item: StoredObservation, target: Id) {
    Target in item.payload.facts && item.payload.facts[Target] == Address(target)
  }

  predicate Revokes(item: StoredObservation, intent: Intent) {
    ActiveFor(item, intent.mode) && item.payload.kind == TargetRevoked && About(item, intent.target)
  }

  // A dispute counts as open unless it is marked otherwise, and no accepted fact marks it otherwise.
  predicate Disputes(item: StoredObservation, intent: Intent) {
    && ActiveFor(item, intent.mode) && item.payload.kind == DisputeOpened && About(item, intent.target)
  }

  predicate Covers(item: StoredObservation, intent: Intent, now: Time) {
    var facts := item.payload.facts;
    && ActiveFor(item, intent.mode) && item.payload.kind == BaselineApproved && About(item, intent.target)
    && ChainId in facts && facts[ChainId] == Chain(intent.chain)
    && Method in facts && facts[Method] == MethodName(intent.operation)
    && (ExpiresAt in facts && facts[ExpiresAt].Instant? ==> facts[ExpiresAt].at > now)
    && intent.amount <= (if MaxAmount in facts && facts[MaxAmount].Amount? then facts[MaxAmount].amount else 0.0)
  }

  function Ids(items: seq<StoredObservation>): seq<Id> {
    seq(|items|, i requires 0 <= i < |items| => items[i].payload.observationId)
  }

  function Filter(items: seq<StoredObservation>, keep: StoredObservation -> bool): (r: seq<StoredObservation>)
    ensures forall x :: x in r <==> x in items && keep(x)
  {
    if items == [] then []
    else (if keep(items[0]) then [items[0]] else []) + Filter(items[1..], keep)
  }

  lemma {:induction false} FilterAppend(a: seq<StoredObservation>, x: StoredObservation,
                                        keep: StoredObservation -> bool)
    ensures Filter(a + [x], keep) == Filter(a, keep) + if keep(x) then [x] else []
  {
    if a == [] {
      assert a + [x] == [x];
      assert [x][1..] == [];
    } else {
      assert (a + [x])[1..] == a[1..] + [x];
      FilterAppend(a[1..], x, keep);
    }
  }

  datatype Decision = Decision(verdict: Verdict, reasons: seq<Reason>, causal: seq<Id>)

  /** The verdict the remembered observations give an intent now. */
  function Decide(intent: Intent, items: seq<StoredObservation>, now: Time): Decision {
    var revocations := Filter(items, x => Revokes(x, intent));
    var disputes := Filter(items, x => Disputes(x, intent));
    var covers := Filter(items, x => Covers(x, intent, now));
    if revocations != [] then Decision(Deny, [TargetRevokedInMemory], Ids(revocations))
    else if disputes != [] then Decision(Deny, [OpenDisputeRecalled], Ids(disputes))
    else if covers != [] then
      Decision(Ready, [TrustedBaselineRecalled, HumanConfirmationStillRequired], Ids(covers[|covers| - 1..]))
    else Decision(NeedsHuman, [NoAuthoritativeMemory], [])
  }

  // The last item that is kept.
  ghost predicate LastKept(items: seq<StoredObservation>, keep: StoredObservation -> bool, i: int) {
    0 <= i < |items| && keep(items[i]) && forall j | i < j < |items| :: !keep(items[j])
  }

  lemma LastKeptLater(a: seq<StoredObservation>, x: StoredObservation, keep: StoredObservation -> bool, i: int)
    requires LastKept(a, keep, i) && !keep(x)
    ensures LastKept(a + [x], keep, i)
  {
  }

  lemma {:induction false} FilterLast(items: seq<StoredObservation>, keep: StoredObservation -> bool) returns (i: int)
    requires Filter(items, keep) != []
    ensures LastKept(items, keep, i) && Filter(items, keep)[|Filter(items, keep)| - 1] == items[i]
  {
    var n := |items| - 1;
    var before, last := items[..n], items[n];
    assert items == before + [last];
    FilterAppend(before, last, keep);
    if keep(last) {
      i := n;
    } else {
      i := FilterLast(before, keep);
      LastKeptLater(before, last, keep, i);
    }
  }

  lemma KeptIds(items: seq<StoredObservation>, keep: StoredObservation -> bool, id: Id)
    ensures id in Ids(Filter(items, keep)) <==> exists x :: x in items && keep(x) && x.payload.observationId == id
  {
    var chosen := Filter(items, keep);
    if x :| x in items && keep(x) && x.payload.observationId == id {
      assert x in chosen;
      var i :| 0 <= i < |chosen| && chosen[i] == x;
      assert Ids(chosen)[i] == id;
    }
    if id in Ids(chosen) {
      var i :| 0 <= i < |chosen| && Ids(chosen)[i] == id;
      assert chosen[i] in chosen;
    }
  }

  // ----- What the policy means, on the fields of what is remembered -----

  // An accepted fact of a source the mode admits; only a demonstration admits demonstration fixtures.
  ghost predicate Admissible(p: Payload, mode: Mode) {
    && (p.status == Accepted || p.status == PartiallyAccepted)
    && (|| p.mode == IdentityVerified || p.mode == BaseTestnet || p.mode == BaseMainnet
        || (p.mode == DemoFixture && mode == DemoFixture))
  }

  // An admissible observation of a kind that names the target of the intent.
  ghost predicate Names(p: Payload, kind: Kind, intent: Intent) {
    Admissible(p, intent.mode) && p.kind == kind && Target in p.facts && p.facts[Target] == Address(intent.target)
  }

  // An approval of the intent's target, chain and method that has not expired and whose stated maximum, zero if none is
  // stated, allows the amount.
  ghost predicate Approves(p: Payload, intent: Intent, now: Time) {
    && Names(p, BaselineApproved, intent)
    && ChainId in p.facts && p.facts[ChainId] == Chain(intent.chain)
    && Method in p.facts && p.facts[Method] == MethodName(intent.operation)
    && (forall t :: ExpiresAt in p.facts && p.facts[ExpiresAt] == Instant(t) ==> now < t)
    && (forall m :: MaxAmount in p.facts && p.facts[MaxAmount] == Amount(m) ==> intent.amount <= m)
    && ((forall m :: !(MaxAmount in p.facts && p.facts[MaxAmount] == Amount(m))) ==> intent.amount <= 0.0)
  }

  lemma FieldsMean(x: StoredObservation, intent: Intent, now: Time)
    ensures Revokes(x, intent) <==> Names(x.payload, TargetRevoked, intent)
    ensures Disputes(x, intent) <==> Names(x.payload, DisputeOpened, intent)
    ensures Covers(x, intent, now) <==> Approves(x.payload, intent, now)
  {
    var facts := x.payload.facts;
    if MaxAmount in facts && facts[MaxAmount].Amount? {
      assert facts[MaxAmount] == Amount(facts[MaxAmount].amount);
    }
    if ExpiresAt in facts && facts[ExpiresAt].Instant? {
      assert facts[ExpiresAt] == Instant(facts[ExpiresAt].at);
    }
  }

  ghost predicate Revoked(intent: Intent, items: seq<StoredObservation>) {
    exists x :: x in items && Names(x.payload, TargetRevoked, intent)
  }

  ghost predicate Disputed(intent: Intent, items: seq<StoredObservation>) {
    exists x :: x in items && Names(x.payload, DisputeOpened, intent)
  }

  lemma NonEmpty(items: seq<StoredObservation>, keep: StoredObservation -> bool)
    ensures Filter(items, keep) != [] <==> exists x :: x in items && keep(x)
  {
    if Filter(items, keep) != [] {
      assert Filter(items, keep)[0] in Filter(items, keep);
    }
  }

  lemma SelectedMean(intent: Intent, items: seq<StoredObservation>, now: Time)
    ensures Filter(items, x => Revokes(x, intent)) != [] <==> Revoked(intent, items)
    ensures Filter(items, x => Disputes(x, intent)) != [] <==> Disputed(intent, items)
    ensures Filter(items, x => Covers(x, intent, now)) != [] <==> exists x :: x in items && Approves(x.payload, intent, now)
  {
    NonEmpty(items, x => Revokes(x, intent));
    NonEmpty(items, x => Disputes(x, intent));
    NonEmpty(items, x => Covers(x, intent, now));
    forall x
      ensures Revokes(x, intent) <==> Names(x.payload, TargetRevoked, intent)
      ensures Disputes(x, intent) <==> Names(x.payload, DisputeOpened, intent)
      ensures Covers(x, intent, now) <==> Approves(x.payload, intent, now)
    {
      FieldsMean(x, intent, now);
    }
  }

  /**
   DENY exactly when an admissible revocation or dispute names the target; READY exactly when none does and an
   admissible, unexpired approval names target, chain and method and allows the amount.
   */
  lemma DecideMeaning(intent: Intent, items: seq<StoredObservation>, now: Time)
    ensures Decide(intent, items, now).verdict == Deny <==> Revoked(intent, items) || Disputed(intent, items)
    ensures Decide(intent, items, now).verdict == Ready <==>
      !Revoked(intent, items) && !Disputed(intent, items) && exists x :: x in items && Approves(x.payload, intent, now)
  {
    SelectedMean(intent, items, now);
  }

  // What a denial is for: a revocation before a dispute.
  ghost function Ground(intent: Intent, items: seq<StoredObservation>): Kind {
    if Revoked(intent, items) then TargetRevoked else DisputeOpened
  }

  // The last remembered approval of the intent.
  ghost predicate LastApproval(intent: Intent, items: seq<StoredObservation>, now: Time, i: int) {
    0 <= i < |items| && Approves(items[i].payload, intent, now) && forall j | i < j < |items| :: !Approves(items[j].payload, intent, now)
  }

  /**
   Why: a denial names its ground, a revocation before a dispute; READY rests on the last approval alone; anything else
   on nothing.
   */
  lemma DecideReasons(intent: Intent, items: seq<StoredObservation>, now: Time)
    ensures var d := Decide(intent, items, now);
      && (d.reasons == [TargetRevokedInMemory] <==> Revoked(intent, items))
      && (d.reasons == [OpenDisputeRecalled] <==> !Revoked(intent, items) && Disputed(intent, items))
      && (d.reasons == [NoAuthoritativeMemory] && d.causal == [] <==> d.verdict == NeedsHuman)
      && (d.verdict == Ready ==> d.reasons == [TrustedBaselineRecalled, HumanConfirmationStillRequired])
      && (d.verdict == Ready ==> exists i :: LastApproval(intent, items, now, i) && d.causal == [items[i].payload.observationId])
  {
    SelectedMean(intent, items, now);
    if Decide(intent, items, now).verdict == Ready {
      LastIsCausal(intent, items, now);
    }
  }

  /** A denial lists exactly the observations that name the target on its ground. */
  lemma DenialLists(intent: Intent, items: seq<StoredObservation>, now: Time, id: Id)
    requires Decide(intent, items, now).verdict == Deny
    ensures id in Decide(intent, items, now).causal <==>
      exists x :: x in items && Names(x.payload, Ground(intent, items), intent) && x.payload.observationId == id
  {
    SelectedMean(intent, items, now);
    DenialCauses(intent, items, id);
  }

  lemma LastIsCausal(intent: Intent, items: seq<StoredObservation>, now: Time)
    requires Filter(items, x => Covers(x, intent, now)) != []
    ensures var covers := Filter(items, x => Covers(x, intent, now));
      exists i :: LastApproval(intent, items, now, i) && Ids(covers[|covers| - 1..]) == [items[i].payload.observationId]
  {
    var i := FilterLast(items, x => Covers(x, intent, now));
    forall j | 0 <= j < |items|
      ensures Covers(items[j], intent, now) <==> Approves(items[j].payload, intent, now)
    {
      FieldsMean(items[j], intent, now);
    }
    assert LastApproval(intent, items, now, i);
  }

  lemma DenialCauses(intent: Intent, items: seq<StoredObservation>, id: Id)
    ensures id in Ids(Filter(items, x => Revokes(x, intent))) <==>
      exists x :: x in items && Names(x.payload, TargetRevoked, intent) && x.payload.observationId == id
    ensures id in Ids(Filter(items, x => Disputes(x, intent))) <==>
      exists x :: x in items && Names(x.payload, DisputeOpened, intent) && x.payload.observationId == id
  {
    KeptIds(items, x => Revokes(x, intent), id);
    KeptIds(items, x => Disputes(x, intent), id);
    forall x
      ensures Revokes(x, intent) <==> Names(x.payload, TargetRevoked, intent)
      ensures Disputes(x, intent) <==> Names(x.payload, DisputeOpened, intent)
    {
      FieldsMean(x, intent, 0);
    }
  }

  // Two intents that ask for the same target in the same mode.
  predicate SameQuestion(a: Intent, b: Intent) {
    a.target == b.target && a.mode == b.mode
  }

  /** A denial persists: for that target and mode it stands after whatever is remembered later, at any later time. */
  lemma DenialPersists(a: Intent, b: Intent, items: seq<StoredObservation>, more: seq<StoredObservation>, now: Time,
                       later: Time)
    requires SameQuestion(a, b) && Decide(a, items, now).verdict == Deny
    ensures Decide(b, items + more, later).verdict == Deny
  {
    DecideMeaning(a, items, now);
    DecideMeaning(b, items + more, later);
    var x :| x in items && Names(x.payload, Ground(a, items), a);
    assert x in items + more && Names(x.payload, Ground(a, items), b);
  }

  lemma UntrustedIsInactive(x: StoredObservation, o: Observation, mode: Mode)
    requires x.payload.status == StatusOf(o) && x.payload.mode == o.mode
    requires o.mode == CallerSupplied || o.kind == VendorNote
    ensures !ActiveFor(x, mode)
  {
    ClassificationPartitions(o, Target);
  }

  /** An observation from an unverified source, or a vendor's note, changes no decision. */
  lemma UntrustedIsInert(intent: Intent, items: seq<StoredObservation>, x: StoredObservation, o: Observation, now: Time)
    requires x.payload.status == StatusOf(o) && x.payload.mode == o.mode
    requires o.mode == CallerSupplied || o.kind == VendorNote
    ensures Decide(intent, items + [x], now) == Decide(intent, items, now)
  {
    UntrustedIsInactive(x, o, intent.mode);
    FilterAppend(items, x, y => Revokes(y, intent));
    FilterAppend(items, x, y => Disputes(y, intent));
    FilterAppend(items, x, y => Covers(y, intent, now));
  }

  // ----- The same decision, as the list comprehensions and the accumulating loop -----

  method Select(items: seq<StoredObservation>, keep: StoredObservation -> bool) returns (r: seq<StoredObservation>)
    ensures r == Filter(items, keep)
  {
    r := [];
    for i := 0 to |items|
      invariant r == Filter(items[..i], keep)
    {
      assert items[..i + 1] == items[..i] + [items[i]];
      FilterAppend(items[..i], items[i], keep);
      if keep(items[i]) {
        r := r + [items[i]];
      }
    }
    assert items[..|items|] == items;
  }

  method DecidePolicy(intent: Intent, items: seq<StoredObservation>, now: Time) returns (d: Decision)
    ensures d == Decide(intent, items, now)
  {
    var revocations := Select(items, x => Revokes(x, intent));
    if revocations != [] {
      return Decision(Deny, [TargetRevokedInMemory], Ids(revocations));
    }
    var disputes := Select(items, x => Disputes(x, intent));
    if disputes != [] {
      return Decision(Deny, [OpenDisputeRecalled], Ids(disputes));
    }
    var covers := Select(items, x => Covers(x, intent, now));
    if covers != [] {
      return Decision(Ready, [TrustedBaselineRecalled, HumanConfirmationStillRequired], Ids(covers[|covers| - 1..]));
    }
    return Decision(NeedsHuman, [NoAuthoritativeMemory], []);
  }
}
