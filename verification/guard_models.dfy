/** The records of the hash-chained payment memory and of the decisions bound to it. */
module GuardModels {
  import opened Common

  datatype GuardError =
    | Malformed
    | Conflict
    | Integrity
    | NotFound
    | DraftExpired
    | PolicyChangedSince
    | SubjectGone
    | MemoryChanged
    | OtherTransaction

  datatype Answer<+T> = Done(value: T) | Refused(error: GuardError) {
    predicate IsFailure() { Refused? }

    function PropagateFailure<U>(): Answer<U>
      requires Refused?
    {
      Refused(error)
    }

    function Extract(): T
      requires Done?
    {
      value
    }
  }

  // ----- Observations -----

  datatype Mode = DemoFixture | CallerSupplied | IdentityVerified | BaseTestnet | BaseMainnet

  datatype Kind = BaselineApproved | DisputeOpened | TargetRevoked | VendorNote

  datatype ObservationStatus = Accepted | PartiallyAccepted | Quarantined | ReviewRequired

  datatype Name = Target | ChainId | Method | MaxAmount | ExpiresAt | DisputeId | DisputeStatus | ReasonCode | RawText | Other(name: Id)

  // How a supplied value reads under each format: none where it does not fit.
  datatype Raw = Raw(
    address: Option<Id>, chain: Option<nat>, operation: Option<Id>, amount: Option<real>,
    instant: Option<Time>, identifier: Option<Id>, isOpen: bool, revocation: Option<Id>)

  datatype Fact =
    | Address(folded: Id)
    | Chain(chain: nat)
    | MethodName(operation: Id)
    | Amount(amount: real)
    | Instant(at: Time)
    | Identifier(id: Id)
    | OpenStatus
    | Revocation(code: Id)

  datatype Note =
    | InvalidTarget | InvalidChain | InvalidMethod | InvalidAmount | InvalidExpiry | InvalidStatus | InvalidDisputeId
    | InvalidReason | UnknownField
    | Instruction(pattern: Id) | UntrustedText | SourceNotVerified | VendorNeverAuthoritative | StructuredFactAccepted

  // Free text: its digest, and the instruction patterns it matches.
  datatype Text = Text(digest: Id, patterns: set<Id>)

  datatype Observation = Observation(
    subjectId: Id, sessionId: Id, kind: Kind, sourceId: Id, facts: map<Name, Raw>,
    text: Option<Text>, mode: Mode, key: Id, observedAt: Time, wellFormed: bool)

  // A hash is the payload it is taken of; a payload holds its predecessor's hash.
  datatype Hash = Zero | Of(payload: Payload)

  datatype Payload = Payload(
    observationId: Id, subjectRef: Id, sessionId: Id, kind: Kind, sourceId: Id, mode: Mode,
    status: ObservationStatus, facts: map<Name, Fact>, quarantined: set<Name>, notes: set<Note>,
    text: Option<Id>, key: Id, observedAt: Time, previous: Hash)

  datatype StoredObservation = StoredObservation(payload: Payload, hash: Hash)

  datatype SubjectMemory = SubjectMemory(subjectRef: Id, version: nat, root: Hash, observations: seq<StoredObservation>)

  function EmptySubject(ref: Id): SubjectMemory {
    SubjectMemory(ref, 0, Zero, [])
  }

  datatype Receipt = Receipt(observationId: Id, status: ObservationStatus, accepted: set<Name>, quarantined: set<Name>, version: nat, root: Hash)

  // ----- Decisions -----

  datatype Verdict = Ready | Deny | NeedsHuman

  datatype Reason =
    | TargetRevokedInMemory
    | OpenDisputeRecalled
    | TrustedBaselineRecalled
    | HumanConfirmationStillRequired
    | NoAuthoritativeMemory

  datatype Intent = Intent(
    subjectId: Id, sessionId: Id, chain: nat, target: Id, operation: Id, amount: real, key: Id, mode: Mode, wellFormed: bool)

  // What identifies the action of an intent.
  datatype IntentHash = IntentHash(subject: Id, chain: nat, target: Id, operation: Id, amount: real, mode: Mode)

  datatype ProofRoot = ProofRoot(
    decisionId: Id, subjectRef: Id, sessionId: Id, verdict: Verdict, reasons: seq<Reason>, causal: seq<Id>,
    crossSession: bool, version: nat, root: Hash, policy: Id, intent: IntentHash, nonce: Id, createdAt: Time, expiresAt: Time)

  datatype DecisionDraft = DecisionDraft(
    decisionId: Id, subjectRef: Id, sessionId: Id, verdict: Verdict, reasons: seq<Reason>, causal: seq<Id>,
    crossSession: bool, version: nat, root: Hash, policy: Id, intent: Intent, intentHash: IntentHash,
    proofRoot: Option<ProofRoot>, nonce: Id, createdAt: Time, expiresAt: Time)

  // ----- Finalization -----

  datatype AnchorState = NotConfigured | LocalFinalized | ConfirmationRequired | Pending | Verified | Failed

  datatype AnchorVerification = AnchorVerification(state: AnchorState, tx: Option<Id>, notes: set<Id>)

  datatype FinalNote =
    | WalletConfirmationRequired
    | AnchorRequired
    | FinalizedLocally
    | ExecutionNotImplemented
    | AnchorNote(code: Id)

  datatype Finalization = Finalization(
    decisionId: Id, verdict: Verdict, state: AnchorState, proofRoot: Option<ProofRoot>, executable: bool,
    verification: Option<AnchorVerification>, plan: Option<Id>, notes: set<FinalNote>)
}
