/** The durable dispatch journal of one attempt: its records and its validity. Records a
    transition only compares are opaque values carrying their own well-formedness. */
module Journal {
  import opened Optional
  import opened AttemptState

  /** Unix nanoseconds. */
  type Time = int

  const SECOND: int := 1_000_000_000
  const ZERO_TIME: Time := -62_135_596_800 * SECOND
  const YEAR_9999: Time := 253_370_764_800 * SECOND

  const MAX_JOURNAL_BYTES: nat := 2 * 1024 * 1024
  const MAX_VERSION: nat := 0x7FFF_FFFF_FFFF_FFFF
  const MAX_FAILURES: nat := 5
  const LOCAL_FAILURE_BUDGET: int := 600 * SECOND
  const PREPARATION_OBSERVATION_GRACE: int := 600 * SECOND
  const SUBMISSION_ABSENCE_GRACE: int := 120 * SECOND

  predicate ValidTime(t: Time) { 0 <= t < YEAR_9999 }

  predicate Lower(c: char) { 'a' <= c <= 'z' }
  predicate Upper(c: char) { 'A' <= c <= 'Z' }
  predicate Digit(c: char) { '0' <= c <= '9' }

  /** A short lower-case identifier. */
  predicate ValidReason(s: string) {
    && 0 < |s| <= 64
    && Lower(s[0])
    && forall i :: 0 <= i < |s| ==> Lower(s[i]) || Digit(s[i]) || s[i] == '_'
  }

  predicate ValidResourceName(s: string) {
    && 0 < |s| <= 256
    && forall i :: 0 <= i < |s| ==> Lower(s[i]) || Upper(s[i]) || Digit(s[i]) || s[i] in {'-', '_', '.', '/'}
  }

  datatype ErrorCode =
    | RemoteTimeout
    | InputFetchFailed | InputNotFound | InputDigestMismatch | InputTooLarge
    | UnsupportedCapability | ResourceRequirementUnsatisfied | InvalidInputPath
    | ConfigurationInvalid | StateStoreUnavailable
    | ProviderAuthFailed | ProviderAccessDenied
    | PrivateStagingUnavailable | StagingFailed | StagingNotReady
    | ProviderRejected | ProviderRateLimited | QuotaExhausted
    | ProviderSubmissionUnknown | RemoteExecutionUnresolved
    | ProviderStateUnknown | ProviderUnreachable | RemoteIdentityMismatch
    | UnregisteredCode

  datatype Stage =
    | Validation | Authentication | InputPreparation | ProviderPreparation | SubmissionStage
    | ExecutionStage | ObservationStage | OperationStage | LocalRuntime

  datatype Advice = NoAdvice | FixRequest | Configure | Wait | Reconcile | RetryComputeExplicitly | InspectProvider

  /** The stage a code's category fixes. */
  function StageOf(code: ErrorCode): Stage
  {
    match code
    case RemoteTimeout => ExecutionStage
    case InputFetchFailed | InputNotFound | InputDigestMismatch | InputTooLarge => InputPreparation
    case UnsupportedCapability | ResourceRequirementUnsatisfied | InvalidInputPath => Validation
    case ConfigurationInvalid | StateStoreUnavailable => LocalRuntime
    case ProviderAuthFailed | ProviderAccessDenied => Authentication
    case PrivateStagingUnavailable | StagingFailed | StagingNotReady => ProviderPreparation
    case ProviderRejected | ProviderRateLimited | QuotaExhausted | ProviderSubmissionUnknown => SubmissionStage
    case RemoteExecutionUnresolved => OperationStage
    case _ => ObservationStage
  }

  /** A timestamp kept as text among the details: absent, unreadable, or read back. */
  datatype Stamp = NoStamp | BadStamp | At(time: Time)
  {
    predicate Readable() { At? && ValidTime(time) }
  }

  /** The detail keys a transition reads; "" is an absent key. */
  datatype Details = Details(
    reason: string, cause: string, firstCause: string, resourceName: string,
    localFailure: Stamp, remoteAbsence: Stamp)
  {
    function Public(): Details {
      Details(
        if ValidReason(reason) then reason else "",
        if ValidReason(cause) then cause else "",
        if ValidReason(firstCause) then firstCause else "",
        if ValidResourceName(resourceName) then resourceName else "",
        NoStamp, NoStamp)
    }
  }

  const NO_DETAILS := Details("", "", "", "", NoStamp, NoStamp)

  datatype Problem = Problem(
    code: ErrorCode, stage: Stage, safeRetry: bool, mayHaveStarted: bool, advice: Advice, details: Details)
  {
    predicate Valid() {
      && !code.UnregisteredCode?
      && stage == StageOf(code)
      && !(mayHaveStarted && safeRetry && advice.RetryComputeExplicitly?)
    }
  }

  /** An opaque identifier; `ok` is the outcome of its own syntax check. */
  datatype Id = NoId | Id(key: nat, ok: bool)
  {
    predicate Valid() { Id? && ok }
  }

  datatype Identity = Identity(key: nat, ok: bool)

  datatype Plan = Plan(identity: Identity, digest: nat, jobOk: bool, hasInputs: bool, inputsOk: bool)
  {
    predicate JobValid() { jobOk && identity.ok }
  }

  datatype Prepared = Prepared(
    identity: Identity, preparationId: Id, planDigest: nat,
    resource: string, resourceOk: bool, ready: bool, isPrivate: bool, readiness: nat)
  {
    predicate Valid(plan: Plan, id: Id) {
      plan.JobValid() && id.Valid() && identity == plan.identity && preparationId == id &&
      planDigest == plan.digest && resourceOk
    }
  }

  datatype StartAuthorization = StartAuthorization(id: Id, readiness: nat, ok: bool)
  {
    predicate Valid(p: Prepared) { id.Valid() && ok && p.ready && p.isPrivate && readiness == p.readiness }
  }

  datatype Remote = Remote(identity: Identity, resource: string, version: string, textOk: bool)
  {
    predicate Valid() { identity.ok && textOk }
  }

  datatype Observation = Observation(
    remote: Remote, execution: Execution, activity: Activity, release: Release, observedAt: Time, textOk: bool)
  {
    predicate Valid(expected: Remote) {
      && expected.Valid()
      && remote == expected
      && observedAt != ZERO_TIME
      && textOk
      && (execution.Terminal() ==> activity.Inactive?)
      && !activity.NotStarted?
      && !execution.NotSubmitted?
      && (!execution.Terminal() ==> !activity.Inactive?)
      && !release.NotApplicable?
      && (release.ReleaseConfirmed? || release.ProviderReported? ==> execution.Terminal())
    }
  }

  datatype Absence = Absence(remote: Remote, observedAt: Time)

  datatype SubmissionStatus = SubmissionAccepted | SubmissionRejected | SubmissionUnknown

  datatype Submission = Submission(status: SubmissionStatus, remote: Option<Remote>, problem: Option<Problem>)
  {
    predicate Valid(expected: Identity) {
      && expected.ok
      && (remote.Some? ==> remote.value.identity == expected && remote.value.Valid())
      && (problem.Some? ==> problem.value.Valid())
      && match status
         case SubmissionAccepted => remote.Some? && problem.None?
         case SubmissionRejected => remote.None? && problem.Some? && !problem.value.mayHaveStarted
         case SubmissionUnknown =>
           problem.Some? && problem.value.mayHaveStarted && !problem.value.safeRetry && problem.value.advice.Reconcile?
    }
  }

  datatype Phase =
    | Local | Staging | Ready | Submitting | Submitted | Rejected | Collectible | Attention | Failed | Prevented

  datatype Journal = Journal(
    version: nat,
    phase: Phase,
    plan: Option<Plan>,
    preparationId: Id,
    preparationObserved: Option<Time>,
    prepared: Option<Prepared>,
    submitStarted: bool,
    submissionProblem: Option<Problem>,
    absenceObserved: Option<Time>,
    resourceName: string,
    ownerPresent: bool,
    authorization: Option<StartAuthorization>,
    remote: Option<Remote>,
    observation: Option<Observation>,
    problem: Option<Problem>,
    failures: nat)
  {
    /** Proof that the accepted remote is gone, bound to the recorded reference. */
    function RemoteAbsence(): Option<Absence> {
      if phase.Attention? && remote.Some? && problem.Some?
         && problem.value.code.RemoteExecutionUnresolved?
         && problem.value.details.reason == "remote_not_found"
         && problem.value.details.remoteAbsence.Readable()
      then Some(Absence(remote.value, problem.value.details.remoteAbsence.time))
      else None
    }

    predicate ValidEvidence() {
      && (submissionProblem.Some? ==> submitStarted && submissionProblem.value.Valid())
      && (resourceName != "" ==> submitStarted && ValidResourceName(resourceName))
      && (absenceObserved.Some? ==> submitStarted && ValidTime(absenceObserved.value) && resourceName != "")
      && (problem.Some? && !problem.value.details.localFailure.NoStamp? ==> problem.value.details.localFailure.Readable())
      && (problem.Some? && !problem.value.details.remoteAbsence.NoStamp? ==> RemoteAbsence().Some?)
      && (preparationObserved.Some? ==> ValidTime(preparationObserved.value) && plan.Some?)
      && (authorization.Some? ==> submitStarted && prepared.Some? && authorization.value.Valid(prepared.value))
      && failures <= MAX_FAILURES
      && (phase.Prevented? ==> !submitStarted)
    }

    predicate ValidUnplanned() {
      && (phase.Local? || phase.Failed? || phase.Prevented?)
      && preparationId.NoId?
      && !submitStarted && prepared.None? && remote.None? && observation.None?
    }

    predicate ValidPlanned()
      requires plan.Some?
    {
      && plan.value.JobValid() && plan.value.hasInputs && plan.value.inputsOk && preparationId.Valid()
      && (prepared.Some? ==> prepared.value.Valid(plan.value, preparationId))
      && (phase.Ready? || submitStarted ==> prepared.Some? && prepared.value.ready && prepared.value.isPrivate)
      && !phase.Local? && !phase.Failed? && version != 0
      && (phase.Staging? || phase.Ready? ==> !submitStarted)
      && (phase.Submitting? || phase.Rejected? ==> remote.None? && observation.None?)
      && (prepared.Some? && !prepared.value.isPrivate ==> phase.Attention? || phase.Prevented?)
      && (phase.Collectible? ==> observation.Some? && observation.value.execution.Terminal())
      && (phase.Submitted? && observation.Some? ==> !observation.value.execution.Terminal())
      && (phase.Submitting? || phase.Submitted? || phase.Rejected? || phase.Collectible? ==> submitStarted)
      && (remote.Some? ==> submitStarted && remote.value.Valid() && remote.value.identity == plan.value.identity)
      && (phase.Submitted? || phase.Collectible? ==> remote.Some?)
      && (observation.Some? ==> remote.Some? && observation.value.Valid(remote.value))
    }

    predicate Valid() {
      && ValidEvidence()
      && (if plan.None? then ValidUnplanned() else ValidPlanned())
      && (problem.Some? ==> problem.value.Valid())
    }

    /** A preparation whose resource has not been seen yet. */
    predicate UnconfirmedPreparation() {
      phase.Staging? && plan.Some? && prepared.None? && !submitStarted
    }
  }

  /** A newly admitted attempt has no journal row. */
  const NO_JOURNAL := Journal(
    0, Local, None, NoId, None, None, false, None, None, "", false, None, None, None, None, 0)
}
