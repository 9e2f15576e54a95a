/** `Apply`: what one action makes of a journal and an attempt state, or why it is refused.
    Every durable change to a journal goes through it. */
module Dispatch {
  import opened AttemptState
  import opened Journal
  import opened Optional

  datatype Action =
    | RefuseNewWork(refusal: string, cause: string)
    | PreventDispatch
    | ExpireDispatch(preparationExpired: bool)
    | RequestReconciliation(ownerClaimsPresent: bool, name: string)
    | BeginPreparation(plan: Option<Plan>, id: Id)
    | PreparationSeen(prepared: Option<Prepared>)
    | EndUnconfirmedPreparation(endCause: string)
    | BeginSubmission(authorization: Option<StartAuthorization>)
    | SubmissionSeen(submission: Option<Submission>)
    | SubmissionAbsenceSeen(name: string)
    | OwnerSubmissionAbsent(name: string)
    | RemoteAbsenceSeen(absence: Option<Absence>)
    | ObservationSeen(observation: Option<Observation>)
    | Fault(code: ErrorCode, reason: string, faultCause: string, details: Option<Details>)
    | UnknownKind

  datatype Error = ErrInvalid | ErrConflict | ErrStaleObservation

  datatype Event =
    | ReconciliationDeferred | CancellationRequested | ReconciliationRequested | PreparationIntended
    | ProviderStagingReady | PreparationObserved | SubmissionIntentRecorded | SubmissionAcceptedEvent
    | SubmissionRejectedEvent | SubmissionUnknownEvent | ExecutionObserved

  datatype Outcome = Refused(error: Error) | Committed(journal: Journal, state: State, event: Event)

  /** `provider.Problem`: a problem with no retry claim and no advice. */
  function PlainProblem(code: ErrorCode, details: Details): Problem {
    Problem(code, StageOf(code), false, false, NoAdvice, details)
  }

  /** The controlled problem of a code, if the journal may hold one. */
  function ProblemFor(code: ErrorCode, may: bool): Option<Problem> {
    match code
    case RemoteTimeout => Some(PlainProblem(RemoteTimeout, NO_DETAILS.(reason := "absolute_deadline_expired")))
    case UnregisteredCode => None
    case _ =>
      var advice :=
        match code
        case InputFetchFailed | InputNotFound | InputDigestMismatch | InputTooLarge
           | UnsupportedCapability | ResourceRequirementUnsatisfied | InvalidInputPath => FixRequest
        case ConfigurationInvalid | StateStoreUnavailable | ProviderAuthFailed | ProviderAccessDenied => Configure
        case ProviderRejected | ProviderRateLimited | QuotaExhausted => InspectProvider
        case _ => Reconcile;
      Some(Problem(code, StageOf(code), false, may, advice, NO_DETAILS))
  }

  predicate KnownRefusal(reason: string) {
    reason in ["", "host_unhealthy", "remote_staging_dataset_limit", "remote_kernel_limit",
               "remote_attempt_container_limit", "remote_resource_scope_unknown", "remote_shared_dataset_limit",
               "host_image_count_limit", "host_storage_limit", "host_storage_unknown"]
  }

  function StepRefuseNewWork(prior: Journal, s: State, refusal: string, cause: string): Outcome {
    if prior.submitStarted || (!prior.phase.Local? && !prior.phase.Ready?) || !s.cancellation.NotRequested?
       || !s.execution.NotSubmitted? || !s.activity.NotStarted? then Refused(ErrConflict)
    else if !KnownRefusal(refusal) || (cause != "" && !ValidReason(cause)) then Refused(ErrInvalid)
    else
      var reason := if refusal == "" then "host_unhealthy" else refusal;
      var p := PlainProblem(ResourceRequirementUnsatisfied, NO_DETAILS.(reason := reason, cause := cause)).(advice := Wait);
      Committed(
        prior.(problem := Some(p)),
        if prior.plan.None? then s.(orchestration := Queued) else s,
        ReconciliationDeferred)
  }

  predicate MayPrevent(prior: Journal, s: State) {
    !prior.submitStarted && !s.orchestration.Terminal() && s.execution.NotSubmitted? &&
    (s.activity.NotStarted? || s.activity.Inactive?)
  }

  function StepPrevent(prior: Journal, s: State): Outcome {
    if !MayPrevent(prior, s) then Refused(ErrConflict)
    else Committed(
      prior.(phase := Phase.Prevented),
      s.(orchestration := Cancelled, cancellation := Cancellation.Prevented, release := NotApplicable),
      CancellationRequested)
  }

  function StepExpire(prior: Journal, s: State, preparationExpired: bool): Outcome {
    if !MayPrevent(prior, s) || !s.cancellation.NotRequested? then Refused(ErrConflict)
    else
      var reason := if preparationExpired then "preparation_expired" else "absolute_deadline_expired";
      Committed(
        prior.(phase := Phase.Prevented, problem := Some(PlainProblem(RemoteTimeout, NO_DETAILS.(reason := reason)))),
        s.(orchestration := TimedOut, release := NotApplicable, deadlineExceeded := true),
        ReconciliationDeferred)
  }

  predicate OwnerClaimFits(prior: Journal, s: State, name: string) {
    prior.phase.Attention? && prior.submitStarted && prior.remote.None? && s.execution.ExecUnknown? &&
    name != "" && name == prior.resourceName
  }

  predicate PermanentCode(code: ErrorCode) { code.RemoteIdentityMismatch? || code.PrivateStagingUnavailable? }

  predicate ReconciliationOpen(prior: Journal, s: State) {
    && prior.RemoteAbsence().None?
    && !s.execution.Terminal()
    && !s.orchestration.Terminal()
    && !(prior.problem.Some? && PermanentCode(prior.problem.value.code))
    && if !prior.submitStarted then
         && (prior.phase.Attention? || prior.phase.Staging? || prior.phase.Ready?)
         && s.execution.NotSubmitted? && s.activity.NotStarted? && s.cancellation.NotRequested? && !s.deadlineExceeded
         && (s.orchestration.NeedsAttention? || s.orchestration.Preparing? || s.orchestration.Reconciling?)
       else
         prior.phase.Attention? || prior.phase.Submitting? || prior.phase.Submitted?
  }

  function StepRequestReconciliation(prior: Journal, s: State, claim: bool, name: string): Outcome {
    if (claim && !OwnerClaimFits(prior, s, name)) || !ReconciliationOpen(prior, s) then Refused(ErrConflict)
    else
      var j := if claim then prior.(ownerPresent := true, absenceObserved := None) else prior;
      var phase := if !prior.submitStarted then Staging else if prior.remote.Some? then Phase.Submitted else Submitting;
      Committed(
        j.(phase := phase, failures := 0, problem := None),
        s.(orchestration := if s.cancellation.Pending() then Cancelling else Reconciling),
        ReconciliationRequested)
  }

  function StepBeginPreparation(prior: Journal, s: State, plan: Option<Plan>, id: Id): Outcome {
    if !prior.phase.Local? || prior.plan.Some? || !LocalOnly(s) || plan.None? || !plan.value.hasInputs
       || !plan.value.JobValid() || !id.Valid() then Refused(ErrConflict)
    else Committed(
      prior.(plan := plan, preparationId := id, phase := Staging, problem := None, failures := 0),
      s.(orchestration := Preparing),
      PreparationIntended)
  }

  function StepPreparationSeen(prior: Journal, s: State, prepared: Option<Prepared>): Outcome
    requires prior.Valid()
  {
    if !prior.phase.Staging? || prior.submitStarted || prepared.None?
       || !prepared.value.Valid(prior.plan.value, prior.preparationId)
       || (prior.prepared.Some? && prior.prepared.value.resource != prepared.value.resource) then Refused(ErrConflict)
    else
      var p := prepared.value;
      var j := prior.(prepared := prepared, problem := None, failures := 0);
      if !p.isPrivate then
        // A public resource is kept in the journal, which leaves the staging path for good.
        Committed(j.(phase := Attention, problem := ProblemFor(PrivateStagingUnavailable, false)),
                  s.(orchestration := NeedsAttention), PreparationObserved)
      else if p.ready then
        Committed(j.(phase := Ready), s.(orchestration := Preparing), ProviderStagingReady)
      else
        Committed(j, s.(orchestration := Preparing), PreparationObserved)
  }

  function StepEndUnconfirmed(prior: Journal, s: State, cause: string): Outcome {
    if !prior.UnconfirmedPreparation() || s.orchestration.Terminal() || !s.execution.NotSubmitted?
       || !s.activity.NotStarted? || !s.cancellation.NotRequested? then Refused(ErrConflict)
    else
      var shown := if prior.problem.Some? then prior.problem.value.details.Public() else NO_DETAILS;
      var why := if cause != "" then cause else shown.cause;
      if why != "" && !ValidReason(why) then Refused(ErrInvalid)
      else
        var d := NO_DETAILS.(reason := "staging_unconfirmed", firstCause := shown.reason, cause := why);
        Committed(
          prior.(phase := Phase.Prevented, problem := Some(PlainProblem(StagingNotReady, d).(advice := FixRequest))),
          s.(orchestration := Orchestration.Failed, release := NotApplicable),
          ReconciliationDeferred)
  }

  function StepBeginSubmission(prior: Journal, s: State, auth: Option<StartAuthorization>): Outcome {
    if !prior.phase.Ready? || prior.submitStarted || prior.prepared.None? || !prior.prepared.value.ready
       || !prior.prepared.value.isPrivate || !LocalOnly(s) || !s.cancellation.NotRequested? then Refused(ErrConflict)
    else Committed(
      prior.(submitStarted := true,
           authorization := if auth.Some? then auth else prior.authorization,
           phase := Submitting, problem := None, failures := 0),
      s.(orchestration := Dispatching, execution := ExecUnknown, activity := Possible),
      SubmissionIntentRecorded)
  }

  predicate AbsenceFits(prior: Journal, s: State, owner: bool, name: string) {
    && (prior.phase.Submitting? || prior.phase.Attention?)
    && prior.submitStarted && prior.remote.None?
    && (owner || !prior.ownerPresent)
    && s.execution.ExecUnknown? && !s.orchestration.Terminal()
    && ValidResourceName(name)
    && (prior.resourceName == "" || prior.resourceName == name)
  }

  /** The inventory has not yet been absent for the whole grace. */
  predicate AbsenceUnconfirmed(prior: Journal, now: Time) {
    prior.absenceObserved.None? || now < prior.absenceObserved.value + SUBMISSION_ABSENCE_GRACE
  }

  function StepAbsence(prior: Journal, s: State, owner: bool, name: string, now: Time): Outcome
    requires prior.Valid()
  {
    if !AbsenceFits(prior, s, owner, name) then Refused(ErrConflict)
    else
      var j := prior.(resourceName := name);
      if !owner && AbsenceUnconfirmed(prior, now) then
        var p := ProblemFor(ProviderSubmissionUnknown, true).value;
        var d := NO_DETAILS.(reason := "submission_absence_confirming", resourceName := name);
        Committed(
          j.(absenceObserved := if prior.absenceObserved.None? then Some(now) else prior.absenceObserved,
             phase := Submitting,
             failures := if prior.failures < 1 then 1 else prior.failures,
             problem := Some(p.(details := d))),
          s.(orchestration := Reconciling),
          ReconciliationDeferred)
      else
        var reason := if owner then "submission_absent_owner_confirmed" else "submission_absent_owned_list";
        var p := PlainProblem(ProviderRejected, NO_DETAILS.(reason := reason, resourceName := name));
        Resolve(prior, j, s, owner, Some(Submission(SubmissionRejected, None, Some(p))))
  }

  /** Record a submission outcome; `j` is `prior` with the evidence gathered so far. */
  function Resolve(prior: Journal, j: Journal, s: State, owner: bool, submission: Option<Submission>): Outcome
    requires prior.Valid()
  {
    if (!prior.phase.Submitting? && !owner) || !prior.submitStarted || prior.remote.Some? || submission.None?
       || !submission.value.Valid(prior.plan.value.identity) then Refused(ErrConflict)
    else
      match submission.value.status
      case SubmissionAccepted => RecordAcceptance(j, s, submission.value.remote.value)
      case SubmissionRejected =>
        var given := submission.value.problem.value;
        RecordRejection(j, s, RejectionCode(given.code), given.details.Public())
      case SubmissionUnknown => RecordUnknown(j, s, submission.value.problem.value.details.Public())
  }

  function RecordAcceptance(j: Journal, s: State, remote: Remote): Outcome {
    Committed(
      j.(remote := Some(remote), phase := Phase.Submitted, problem := None, failures := 0),
      s.(orchestration := if s.cancellation.Pending() then Cancelling else Orchestration.Submitted),
      SubmissionAcceptedEvent)
  }

  function RejectionCode(given: ErrorCode): (code: ErrorCode)
    ensures !code.UnregisteredCode?
  {
    match given
    case ProviderRateLimited | QuotaExhausted | ProviderAuthFailed | ProviderAccessDenied | RemoteTimeout => given
    case _ => ProviderRejected
  }

  function RecordRejection(j: Journal, s: State, code: ErrorCode, details: Details): Outcome
    requires !code.UnregisteredCode?
  {
    Committed(
      j.(phase := Phase.Rejected, problem := Some(ProblemFor(code, false).value.(details := details))),
      RejectedState(s, code),
      SubmissionRejectedEvent)
  }

  function RejectedState(s: State, code: ErrorCode): State {
    var next := s.(execution := NotSubmitted, activity := Inactive, release := NotApplicable,
                   deadlineExceeded := s.deadlineExceeded || code.RemoteTimeout?);
    if !s.cancellation.NotRequested? then
      // A requested stop ends as prevented: what was to be stopped never existed.
      next.(orchestration := Cancelled, cancellation := Cancellation.Prevented)
    else next.(orchestration := if code.RemoteTimeout? then TimedOut else Orchestration.Failed)
  }

  function RecordUnknown(j: Journal, s: State, details: Details): Outcome {
    var p := ProblemFor(ProviderSubmissionUnknown, true).value.(details := details);
    Committed(
      j.(problem := Some(p),
         submissionProblem := if j.submissionProblem.None? then Some(p) else j.submissionProblem,
         resourceName := details.resourceName),
      s.(orchestration := Reconciling),
      SubmissionUnknownEvent)
  }

  function StepRemoteAbsence(prior: Journal, s: State, absence: Option<Absence>, now: Time): Outcome {
    if !prior.phase.Submitted? || prior.remote.None? || absence.None? || absence.value.remote != prior.remote.value
       || !ValidTime(absence.value.observedAt) || absence.value.observedAt > now
       || (prior.observation.Some? && absence.value.observedAt <= prior.observation.value.observedAt) then Refused(ErrConflict)
    else
      var d := NO_DETAILS.(reason := "remote_not_found", remoteAbsence := At(absence.value.observedAt));
      var p := PlainProblem(RemoteExecutionUnresolved, d).(mayHaveStarted := true, advice := InspectProvider);
      Committed(
        prior.(phase := Attention, problem := Some(p)),
        s.(orchestration := NeedsAttention, execution := ExecUnknown, activity := Inactive, release := ProviderReported,
           cancellation := if s.cancellation.Pending() then Manual else s.cancellation),
        ReconciliationDeferred)
  }

  /** The attempt state one accepted observation asks for. */
  function Observed(s: State, obs: Observation): State {
    var terminal := obs.execution.Terminal();
    if obs.execution.ExecUnknown? then
      // Only the orchestration moves; execution, activity and release stay as last established.
      s.(orchestration := Pursued(s, Reconciling))
    else
      s.(execution := obs.execution, activity := obs.activity, release := obs.release,
         deadlineExceeded := s.deadlineExceeded || obs.execution.ExecTimedOut?,
         cancellation :=
           if terminal && !s.cancellation.NotRequested? then
             if obs.execution.ExecCancelled? then Confirmed else TooLate
           else s.cancellation,
         orchestration :=
           if terminal then Collecting
           else if obs.execution.ExecRunning? || obs.execution.ExecStarting? then Pursued(s, Running)
           else Pursued(s, Orchestration.Submitted))
  }

  /** A cancellation in progress, or one left to the operator, outranks a live observation. */
  function Pursued(s: State, ordinary: Orchestration): Orchestration {
    if s.cancellation.Manual? then NeedsAttention
    else if s.cancellation.Pending() then Cancelling
    else ordinary
  }

  function StepObservation(prior: Journal, s: State, observation: Option<Observation>, now: Time): Outcome {
    if !prior.phase.Submitted? || prior.remote.None? || observation.None? || !observation.value.Valid(prior.remote.value) then
      Refused(ErrConflict)
    else
      var obs := observation.value;
      var next := Observed(s, obs);
      if obs.observedAt > now || (prior.observation.Some? && obs.observedAt <= prior.observation.value.observedAt)
         || !ValidTransition(s, next) then Refused(ErrStaleObservation)
      else
        RecordObservation(prior, s, obs, next)
  }

  /** Store an accepted observation whose attempt state is `next`. */
  function RecordObservation(prior: Journal, s: State, obs: Observation, next: State): Outcome {
    var j := prior.(observation := Some(obs), problem := None, failures := 0);
    if obs.execution.Terminal() then
      Committed(j.(phase := Collectible), next, ExecutionObserved)
    else if !obs.execution.ExecUnknown? then
      Committed(j, next, ExecutionObserved)
    else RecordUncertainty(prior, s, j, next)
  }

  /** Enough uncertain polls in a row become visible attention. */
  function RecordUncertainty(prior: Journal, s: State, j: Journal, next: State): Outcome {
    var failures := if prior.failures + 1 < MAX_FAILURES then prior.failures + 1 else MAX_FAILURES;
    var j' := j.(failures := failures, problem := ProblemFor(ProviderStateUnknown, true));
    if failures == MAX_FAILURES then
      Committed(
        j'.(phase := Attention),
        next.(orchestration := NeedsAttention,
              cancellation := if s.cancellation.Pending() then Manual else next.cancellation),
        ExecutionObserved)
    else Committed(j', next, ExecutionObserved)
  }

  predicate Settled(phase: Phase) {
    phase.Rejected? || phase.Failed? || phase.Collectible? || phase.Attention? || phase.Prevented?
  }

  /** The problem a fault leaves behind, once its reasons pass the closed-reason test. */
  function FaultProblem(prior: Journal, code: ErrorCode, reason: string, cause: string, details: Option<Details>): Option<Problem>
  {
    var base := ProblemFor(code, prior.submitStarted);
    if base.None? then None
    else
      var p := if details.Some? then base.value.(details := details.value.Public()) else base.value;
      var carried :=
        if reason == "" && prior.problem.Some? && prior.problem.value.stage == p.stage
        then prior.problem.value.details.Public().reason else reason;
      if (carried != "" && !ValidReason(carried)) || (cause != "" && !ValidReason(cause)) then None
      else
        var withReason := if carried != "" then p.(details := p.details.(reason := carried)) else p;
        Some(if cause != "" then withReason.(details := withReason.details.(cause := cause)) else withReason)
  }

  function NamedResource(details: Option<Details>): string {
    if details.Some? then details.value.Public().resourceName else ""
  }

  predicate LocallyPermanent(code: ErrorCode) {
    PermanentCode(code) || code.InputNotFound? || code.InputDigestMismatch? || code.InputTooLarge? ||
    code.InvalidInputPath? || code.UnsupportedCapability? || code.ResourceRequirementUnsatisfied?
  }

  /** `problem` is what the fault would leave behind, `named` the resource its read identified. */
  function StepFault(prior: Journal, s: State, code: ErrorCode, problem: Option<Problem>, named: string, now: Time): Outcome
  {
    if Settled(prior.phase) then Refused(ErrConflict)
    else if problem.None? then Refused(ErrInvalid)
    else RecordFault(prior, s, code, problem.value, named, now)
  }

  /** What every fault leaves in the journal besides its problem. */
  function Faulted(prior: Journal, named: string, now: Time): Journal {
    prior.(
      preparationObserved :=
        if prior.UnconfirmedPreparation() && prior.preparationObserved.None? then Some(now) else prior.preparationObserved,
      failures := if prior.failures < MAX_FAILURES then prior.failures + 1 else MAX_FAILURES,
      resourceName := if prior.submitStarted && prior.remote.None? && named != "" then named else prior.resourceName)
  }

  function RecordFault(prior: Journal, s: State, code: ErrorCode, p: Problem, named: string, now: Time): Outcome {
    var j := Faulted(prior, named, now);
    if prior.plan.None? then RecordLocalFault(prior, j, s, code, p, now) else RecordPlannedFault(prior, j, s, code, p)
  }

  /** Nothing was asked of the provider yet: wait, or give up within the budget. */
  function RecordLocalFault(prior: Journal, j: Journal, s: State, code: ErrorCode, p: Problem, now: Time): Outcome {
    var kept := if prior.problem.Some? then prior.problem.value.details.localFailure else NoStamp;
    var started := if kept.Readable() then kept.time else now;
    var stamped := p.(details := p.details.(localFailure := At(started)));
    if LocallyPermanent(code) || now >= started + LOCAL_FAILURE_BUDGET then
      Committed(
        j.(phase := Phase.Failed,
           problem := Some(if stamped.advice.Reconcile? then stamped.(advice := FixRequest) else stamped)),
        s.(orchestration := Orchestration.Failed, release := NotApplicable),
        ReconciliationDeferred)
    else
      Committed(
        j.(problem := Some(stamped.(advice := Wait, safeRetry := true, mayHaveStarted := false))),
        s.(orchestration := Queued),
        ReconciliationDeferred)
  }

  /** A prolonged or permanent failure becomes visible attention; recovery still only observes. */
  function RecordPlannedFault(prior: Journal, j: Journal, s: State, code: ErrorCode, p: Problem): Outcome {
    if PermanentCode(code) || (j.failures == MAX_FAILURES && !prior.UnconfirmedPreparation()) then
      Committed(
        j.(phase := Attention, problem := Some(p)),
        s.(orchestration := NeedsAttention,
           cancellation := if s.cancellation.Pending() then Manual else s.cancellation),
        ReconciliationDeferred)
    else
      Committed(
        j.(problem := Some(p)),
        s.(orchestration := if prior.submitStarted then Reconciling else Preparing),
        ReconciliationDeferred)
  }

  function Step(prior: Journal, s: State, a: Action, now: Time): Outcome
    requires prior.Valid()
  {
    match a
    case RefuseNewWork(refusal, cause) => StepRefuseNewWork(prior, s, refusal, cause)
    case PreventDispatch => StepPrevent(prior, s)
    case ExpireDispatch(expired) => StepExpire(prior, s, expired)
    case RequestReconciliation(claim, name) => StepRequestReconciliation(prior, s, claim, name)
    case BeginPreparation(plan, id) => StepBeginPreparation(prior, s, plan, id)
    case PreparationSeen(prepared) => StepPreparationSeen(prior, s, prepared)
    case EndUnconfirmedPreparation(cause) => StepEndUnconfirmed(prior, s, cause)
    case BeginSubmission(auth) => StepBeginSubmission(prior, s, auth)
    case SubmissionSeen(submission) => Resolve(prior, prior, s, false, submission)
    case SubmissionAbsenceSeen(name) => StepAbsence(prior, s, false, name, now)
    case OwnerSubmissionAbsent(name) => StepAbsence(prior, s, true, name, now)
    case RemoteAbsenceSeen(absence) => StepRemoteAbsence(prior, s, absence, now)
    case ObservationSeen(observation) => StepObservation(prior, s, observation, now)
    case Fault(code, reason, cause, details) =>
      StepFault(prior, s, code, FaultProblem(prior, code, reason, cause, details), NamedResource(details), now)
    case UnknownKind => Refused(ErrInvalid)
  }

  /** Carry the submission's own diagnostics into whatever problem the journal now shows. */
  function Annotate(j: Journal): Journal {
    if j.problem.None? then j
    else
      var p := j.problem.value;
      var d :=
        if j.submissionProblem.None? then p.details
        else
          var origin := j.submissionProblem.value.details.Public();
          p.details.(cause := if p.details.cause == "" then origin.cause else p.details.cause,
                     firstCause := if p.details.firstCause == "" then origin.firstCause else p.details.firstCause,
                     resourceName := if p.details.resourceName == "" then origin.resourceName else p.details.resourceName);
      var named := if j.resourceName != "" then d.(resourceName := j.resourceName) else d;
      j.(problem := Some(p.(details := named)))
  }

  /** `encodedBytes` is the size of the prior journal's JSON form. */
  function Apply(prior: Journal, s: State, a: Action, now: Time, encodedBytes: nat): Outcome
  {
    if !prior.Valid() || !s.Valid() || !ValidTime(now) || prior.version == MAX_VERSION || encodedBytes > MAX_JOURNAL_BYTES then
      Refused(ErrInvalid)
    else
      match Step(prior, s, a, now)
      case Refused(e) => Refused(e)
      case Committed(j, next, event) =>
        var j' := Annotate(j).(version := prior.version + 1);
        if !j'.Valid() || !ValidTransition(s, next) then Refused(ErrInvalid) else Committed(j', next, event)
  }
}
