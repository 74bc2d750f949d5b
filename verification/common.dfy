/** Result types, error codes and identifiers shared by every part of the model. */
module Common {

  // Identifiers are opaque strings in the service. Only their equality and a
  // total order (for sorting) matter, so a natural number stands for each one.
  type Id = nat

  // Instants and durations in microseconds, the resolution of a stored timestamp.
  type Time = int

  const SECOND: Time := 1_000_000
  const TEN_MINUTES: Time := 600 * SECOND

  datatype Option<+T> = None | Some(value: T)

  /** The codes with which a command is refused. */
  datatype Error =
    | ForbiddenError
    | DependencyCycle
    | DependencyMissing
    | ReadyBasisExpired
    | WorkspaceMissing
    | WorkspaceAlreadyExists
    | WorkspaceCapacityReached
    | TenantBindingFailed
    | MemoryIntegrityFailed
    | AuditIntegrityFailed
    | MemoryRevisionInvalid
    | CaseHistoryIntegrityFailed
    | BaselineHistoryIntegrityFailed
    | DecisionIntegrityFailed
    | ReportIntegrityFailed
    | IdempotencyConflict
    | RevisionConflict
    | TaskNotFound
    | TaskCapacityReached
    | DuplicateDependency
    | CrossSubjectDependency
    | BaselineMustExpireInFuture
    | CaseNotFound
    | CaseCapacityReached
    | CaseAlreadyOpen
    | CaseNotOpen
    | ReportNotFound
    | StaleInvestigation
    | HandoffNotFound
    | StaleHandoff
    | IndependentReviewerRequired
    | ReportOwnerMismatch
    | AcknowledgedReviewRequired
    | DecisionSuperseded
    | StaleOrBlockedReview
    | SourceNotAllowed
    | SourceConflict
    | SourceCaseChanged
    | SourceReadBudgetExhausted
    | SourceRequestNotPending
    | SourcePolicyRemoved
    | SourcePolicyWeakened
    | SourceReportStale
    | SourceCoverageRequired
    | SourceGuardUnavailable
    | CurrentEvidenceBundleRequired
    | Contention

  datatype Result<+T> = Ok(value: T) | Err(error: Error) {
    predicate IsFailure() { Err? }

    function PropagateFailure<U>(): Result<U>
      requires Err?
    {
      Err(error)
    }

    function Extract(): T
      requires Ok?
    {
      value
    }
  }

  predicate NoDuplicates<T(==)>(s: seq<T>) {
    forall i, j | 0 <= i < j < |s| :: s[i] != s[j]
  }

  predicate IsLeast(s: set<nat>, m: nat) {
    m in s && forall x | x in s :: m <= x
  }

  lemma {:induction false} FindLeast(s: set<nat>) returns (m: nat)
    requires s != {}
    ensures IsLeast(s, m)
  {
    var y :| y in s;
    var rest := s - {y};
    assert s == rest + {y};
    m := y;
    if rest != {} {
      var other := FindLeast(rest);
      if other < y {
        m := other;
      }
    }
  }

  lemma HasLeast(s: set<nat>)
    requires s != {}
    ensures exists m :: IsLeast(s, m)
  {
    var m := FindLeast(s);
  }

  function Least(s: set<nat>): (m: nat)
    requires s != {}
    ensures m in s && forall x | x in s :: m <= x
  {
    HasLeast(s);
    var m :| IsLeast(s, m);
    m
  }
}
