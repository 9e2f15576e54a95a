/** What an accepted action means, field by field: where each piece of evidence comes from, how the
    phase and the failure count move, and what becomes of each dimension of the attempt state. The
    transition function is organised by action; this account is organised by what is changed. */
module DispatchMeaning {
  import opened AttemptState
  import opened Journal
  import opened Optional
  import opened Dispatch
  import opened DispatchSafety

  // ---------------------------------------------------------------- kinds of news

  predicate Told(a: Action, status: SubmissionStatus) {
    a.SubmissionSeen? && a.submission.Some? && a.submission.value.status == status
  }

  predicate Watched(a: Action) { a.ObservationSeen? && a.observation.Some? }

  /** An observation that establishes something. */
  predicate Definite(a: Action) { Watched(a) && a.observation.value.execution != ExecUnknown }

  predicate Vague(a: Action) { Watched(a) && a.observation.value.execution == ExecUnknown }

  /** Compute was seen to have ended. */
  predicate Ended(a: Action) {
    Watched(a) && a.observation.value.execution in {ExecSucceeded, ExecFailed, ExecCancelled, ExecTimedOut}
  }

  predicate GraceOver(j: Journal, now: Time) {
    j.absenceObserved.Some? && j.absenceObserved.value + SUBMISSION_ABSENCE_GRACE <= now
  }

  /** It is now settled that nothing was submitted. */
  predicate NeverSubmitted(j: Journal, a: Action, now: Time) {
    Told(a, SubmissionRejected) || a.OwnerSubmissionAbsent? || (a.SubmissionAbsenceSeen? && GraceOver(j, now))
  }

  /** Something was learnt or begun: earlier trouble is over. */
  predicate Progress(a: Action) {
    || a.RequestReconciliation? || a.BeginPreparation? || a.BeginSubmission? || Told(a, SubmissionAccepted) || Definite(a)
    || (a.PreparationSeen? && a.prepared.Some?)
  }

  predicate Trouble(a: Action) { a.Fault? || Vague(a) }

  // ---------------------------------------------------------------- evidence

  /** Each piece of evidence is what its own action carried, and no other action touches it. */
  predicate EvidenceIsCarried(j: Journal, a: Action, j': Journal) {
    && j'.plan == (if a.BeginPreparation? then a.plan else j.plan)
    && j'.preparationId == (if a.BeginPreparation? then a.id else j.preparationId)
    && j'.prepared == (if a.PreparationSeen? then a.prepared else j.prepared)
    && j'.submitStarted == (j.submitStarted || a.BeginSubmission?)
    && j'.authorization == (if a.BeginSubmission? && a.authorization.Some? then a.authorization else j.authorization)
    && j'.remote == (if Told(a, SubmissionAccepted) then a.submission.value.remote else j.remote)
    && j'.observation == (if a.ObservationSeen? then a.observation else j.observation)
    && j'.ownerPresent == (j.ownerPresent || (a.RequestReconciliation? && a.ownerClaimsPresent))
  }

  /** The clocks: the first staging trouble, and the first inventory absence that no owner denied since. */
  predicate ClocksStartOnce(j: Journal, a: Action, now: Time, j': Journal) {
    && j'.preparationObserved ==
       (if a.Fault? && j.phase.Staging? && j.prepared.None? && j.preparationObserved.None? then Some(now) else j.preparationObserved)
    && j'.absenceObserved ==
       (if a.RequestReconciliation? && a.ownerClaimsPresent then None
        else if a.SubmissionAbsenceSeen? && j.absenceObserved.None? then Some(now)
        else j.absenceObserved)
  }

  /** The name under which an uncertain submission would be found. */
  predicate NameIsTheLatest(j: Journal, a: Action, j': Journal) {
    j'.resourceName ==
      if a.SubmissionAbsenceSeen? || a.OwnerSubmissionAbsent? then a.name
      else if Told(a, SubmissionUnknown) && a.submission.value.problem.Some? then
        a.submission.value.problem.value.details.Public().resourceName
      else if a.Fault? && j.submitStarted && j.remote.None? && a.details.Some? && ValidResourceName(a.details.value.resourceName) then
        a.details.value.resourceName
      else j.resourceName
  }

  /** What the provider said when a start was first left uncertain, kept for good. */
  predicate FirstDoubtIsKept(j: Journal, a: Action, j': Journal) {
    if j.submissionProblem.None? && Told(a, SubmissionUnknown) && a.submission.value.problem.Some? then
      && j'.submissionProblem.Some?
      && j'.submissionProblem.value.code == ProviderSubmissionUnknown && j'.submissionProblem.value.mayHaveStarted
      && !j'.submissionProblem.value.safeRetry && j'.submissionProblem.value.advice == Reconcile
      && j'.submissionProblem.value.details == a.submission.value.problem.value.details.Public()
    else j'.submissionProblem == j.submissionProblem
  }

  predicate FailuresCount(j: Journal, a: Action, now: Time, j': Journal) {
    j'.failures ==
      if Progress(a) then 0
      else if Trouble(a) then (if j.failures >= 5 then 5 else j.failures + 1)
      else if a.SubmissionAbsenceSeen? && !GraceOver(j, now) && j.failures == 0 then 1
      else j.failures
  }

  // ---------------------------------------------------------------- the phase

  /** When the first of the local failures in a row happened. */
  function TroubleSince(j: Journal, now: Time): Time {
    if j.problem.Some? && j.problem.value.details.localFailure.Readable() then j.problem.value.details.localFailure.time else now
  }

  /** A failure before the provider was asked for anything that ends the attempt. */
  predicate GivesUp(j: Journal, a: Action, now: Time) {
    && a.Fault? && j.phase.Local?
    && (|| a.code in {InputNotFound, InputDigestMismatch, InputTooLarge, InvalidInputPath, UnsupportedCapability,
                      ResourceRequirementUnsatisfied, RemoteIdentityMismatch, PrivateStagingUnavailable}
        || now >= TroubleSince(j, now) + LOCAL_FAILURE_BUDGET)
  }

  /** Trouble that only a person can resolve: it is permanent, or the fifth in a row; a preparation
      nobody has seen yet is left to its own grace. */
  predicate NeedsAPerson(j: Journal, a: Action) {
    || (&& a.Fault? && !j.phase.Local?
        && (|| a.code in {RemoteIdentityMismatch, PrivateStagingUnavailable}
            || (j.failures >= 4 && !(j.phase.Staging? && j.prepared.None?))))
    || (Vague(a) && j.failures >= 4)
    || a.RemoteAbsenceSeen?
    || (a.PreparationSeen? && a.prepared.Some? && !a.prepared.value.isPrivate)
  }

  function PhaseAfter(j: Journal, a: Action, now: Time): Phase {
    if a.PreventDispatch? || a.ExpireDispatch? || a.EndUnconfirmedPreparation? then Phase.Prevented
    else if NeverSubmitted(j, a, now) then Phase.Rejected
    else if Ended(a) then Collectible
    else if GivesUp(j, a, now) then Phase.Failed
    else if NeedsAPerson(j, a) then Attention
    else if a.BeginPreparation? then Staging
    else if a.PreparationSeen? then (if a.prepared.Some? && a.prepared.value.ready then Ready else Staging)
    else if a.BeginSubmission? || a.SubmissionAbsenceSeen? then Submitting
    else if Told(a, SubmissionAccepted) then Phase.Submitted
    else if a.RequestReconciliation? then
      (if j.remote.Some? then Phase.Submitted else if j.submitStarted then Submitting else Staging)
    else j.phase
  }

  // ---------------------------------------------------------------- the attempt state

  predicate StopPending(s: State) { s.cancellation in {Requested, Requesting, Accepted} }

  predicate StateIsEstablished(j: Journal, s: State, a: Action, now: Time, s': State) {
    && s'.result == s.result
    && s'.execution ==
       (if NeverSubmitted(j, a, now) then NotSubmitted
        else if a.BeginSubmission? || a.RemoteAbsenceSeen? then ExecUnknown
        else if Definite(a) then a.observation.value.execution
        else s.execution)
    && s'.activity ==
       (if NeverSubmitted(j, a, now) || a.RemoteAbsenceSeen? then Inactive
        else if a.BeginSubmission? then Possible
        else if Definite(a) then a.observation.value.activity
        else s.activity)
    && s'.release ==
       (if PhaseAfter(j, a, now) in {Phase.Prevented, Phase.Failed, Phase.Rejected} then NotApplicable
        else if a.RemoteAbsenceSeen? then ProviderReported
        else if Definite(a) then a.observation.value.release
        else s.release)
    && (s'.deadlineExceeded <==>
          || s.deadlineExceeded || a.ExpireDispatch?
          || (Definite(a) && a.observation.value.execution == ExecTimedOut)
          || (Told(a, SubmissionRejected) && a.submission.value.problem.Some? && a.submission.value.problem.value.code == RemoteTimeout))
  }

  /** A stop ends as prevented where nothing ever ran, as confirmed where compute was seen cancelled,
      as too late where it ended otherwise, and with the operator where nobody can tell. */
  function StopAfter(j: Journal, s: State, a: Action, now: Time): Cancellation {
    if a.PreventDispatch? then Cancellation.Prevented
    else if s.cancellation == NotRequested then NotRequested
    else if NeverSubmitted(j, a, now) then Cancellation.Prevented
    else if Ended(a) then (if a.observation.value.execution == ExecCancelled then Confirmed else TooLate)
    else if StopPending(s) && PhaseAfter(j, a, now) == Attention && !a.PreparationSeen? then Manual
    else s.cancellation
  }

  /** Where an unfinished attempt is shown: with the operator, stopping, or where the news puts it. */
  function Shown(s: State, otherwise: Orchestration): Orchestration {
    if StopPending(s) then Cancelling else otherwise
  }

  function OrchestrationAfter(j: Journal, s: State, a: Action, now: Time): Orchestration {
    match PhaseAfter(j, a, now)
    case Prevented =>
      if a.PreventDispatch? then Cancelled else if a.ExpireDispatch? then TimedOut
      else if a.EndUnconfirmedPreparation? then Orchestration.Failed else s.orchestration
    case Rejected =>
      if !NeverSubmitted(j, a, now) then s.orchestration
      else if s.cancellation != NotRequested then Cancelled
      else if Told(a, SubmissionRejected) && a.submission.value.problem.Some? && a.submission.value.problem.value.code == RemoteTimeout then TimedOut
      else Orchestration.Failed
    case Collectible => if Ended(a) then Collecting else s.orchestration
    case Failed => if GivesUp(j, a, now) then Orchestration.Failed else s.orchestration
    case Attention => if NeedsAPerson(j, a) then NeedsAttention else s.orchestration
    case _ =>
      if a.BeginPreparation? || a.PreparationSeen? then Preparing
      else if a.BeginSubmission? then Dispatching
      else if Told(a, SubmissionAccepted) then Shown(s, Orchestration.Submitted)
      else if Told(a, SubmissionUnknown) || a.SubmissionAbsenceSeen? then Reconciling
      else if a.RequestReconciliation? then Shown(s, Reconciling)
      else if Watched(a) then
        (if s.cancellation == Manual then NeedsAttention
         else if Vague(a) then Shown(s, Reconciling)
         else if a.observation.value.execution in {ExecRunning, ExecStarting} then Shown(s, Running)
         else Shown(s, Orchestration.Submitted))
      else if a.Fault? then (if j.phase.Local? then Queued else if j.submitStarted then Reconciling else Preparing)
      else if a.RefuseNewWork? && j.phase.Local? then Queued
      else s.orchestration
  }

  // ---------------------------------------------------------------- the problem shown

  function CodeAfter(j: Journal, a: Action, now: Time): ErrorCode {
    if NeverSubmitted(j, a, now) then
      (if && Told(a, SubmissionRejected) && a.submission.value.problem.Some?
          && a.submission.value.problem.value.code in
             {ProviderRateLimited, QuotaExhausted, ProviderAuthFailed, ProviderAccessDenied, RemoteTimeout}
       then a.submission.value.problem.value.code else ProviderRejected)
    else if a.RefuseNewWork? then ResourceRequirementUnsatisfied
    else if a.ExpireDispatch? then RemoteTimeout
    else if a.EndUnconfirmedPreparation? then StagingNotReady
    else if a.PreparationSeen? then PrivateStagingUnavailable
    else if a.RemoteAbsenceSeen? then RemoteExecutionUnresolved
    else if Vague(a) then ProviderStateUnknown
    else if a.Fault? then a.code
    else ProviderSubmissionUnknown
  }

  /** Compute may be running although nobody knows. */
  predicate MayRun(j: Journal, a: Action, now: Time) {
    || Told(a, SubmissionUnknown) || (a.SubmissionAbsenceSeen? && !GraceOver(j, now))
    || a.RemoteAbsenceSeen? || Vague(a) || (a.Fault? && j.submitStarted && a.code != RemoteTimeout)
  }

  /** The reason a fault shows: its own, or the one already shown for the same stage, or the provider's. */
  function FaultReason(j: Journal, code: ErrorCode, reason: string, details: Option<Details>): string {
    var shown := if j.problem.Some? && j.problem.value.stage == StageOf(code) then j.problem.value.details.Public().reason else "";
    if reason != "" then reason
    else if shown != "" then shown
    else if details.Some? then details.value.Public().reason
    else if code == RemoteTimeout then "absolute_deadline_expired"
    else ""
  }

  function ReasonAfter(j: Journal, a: Action, now: Time): string {
    if a.Fault? then FaultReason(j, a.code, a.reason, a.details)
    else if a.RefuseNewWork? then (if a.refusal == "" then "host_unhealthy" else a.refusal)
    else if a.ExpireDispatch? then (if a.preparationExpired then "preparation_expired" else "absolute_deadline_expired")
    else if a.EndUnconfirmedPreparation? then "staging_unconfirmed"
    else if a.OwnerSubmissionAbsent? then "submission_absent_owner_confirmed"
    else if a.SubmissionAbsenceSeen? then (if GraceOver(j, now) then "submission_absent_owned_list" else "submission_absence_confirming")
    else if a.RemoteAbsenceSeen? then "remote_not_found"
    else if a.SubmissionSeen? && a.submission.Some? && a.submission.value.problem.Some? then
      a.submission.value.problem.value.details.Public().reason
    else ""
  }

  /** What the reader of a code is told to do. */
  function AdviceFor(code: ErrorCode): Advice {
    if code == RemoteTimeout then NoAdvice
    else if code in {InputFetchFailed, InputNotFound, InputDigestMismatch, InputTooLarge,
                     UnsupportedCapability, ResourceRequirementUnsatisfied, InvalidInputPath} then FixRequest
    else if code in {ConfigurationInvalid, StateStoreUnavailable, ProviderAuthFailed, ProviderAccessDenied} then Configure
    else if code in {ProviderRejected, ProviderRateLimited, QuotaExhausted} then InspectProvider
    else Reconcile
  }

  function AdviceAfter(j: Journal, a: Action, now: Time): Advice {
    if a.RefuseNewWork? || (a.Fault? && j.phase.Local? && !GivesUp(j, a, now)) then Wait
    else if a.RemoteAbsenceSeen? then InspectProvider
    else if a.EndUnconfirmedPreparation? || (GivesUp(j, a, now) && AdviceFor(a.code) == Reconcile) then FixRequest
    else AdviceFor(CodeAfter(j, a, now))
  }

  /** The cause an action gives, where it gives one. */
  function CauseGiven(a: Action): string {
    if a.RefuseNewWork? then a.cause else if a.EndUnconfirmedPreparation? then a.endCause else if a.Fault? then a.faultCause else ""
  }

  function EventAfter(j: Journal, a: Action, now: Time): Event {
    if NeverSubmitted(j, a, now) then SubmissionRejectedEvent
    else if a.PreventDispatch? then CancellationRequested
    else if a.RequestReconciliation? then ReconciliationRequested
    else if a.BeginPreparation? then PreparationIntended
    else if a.PreparationSeen? then (if PhaseAfter(j, a, now) == Ready then ProviderStagingReady else PreparationObserved)
    else if a.BeginSubmission? then SubmissionIntentRecorded
    else if Told(a, SubmissionAccepted) then SubmissionAcceptedEvent
    else if Told(a, SubmissionUnknown) then SubmissionUnknownEvent
    else if a.ObservationSeen? then ExecutionObserved
    else ReconciliationDeferred
  }

  /** Progress clears the problem and a prevention keeps it; any other action shows its own, with the
      right claim about running compute, and dates where recovery reads them. */
  predicate ProblemTells(j: Journal, a: Action, now: Time, p: Option<Problem>) {
    if a.PreventDispatch? then p == j.problem
    else if Progress(a) && !NeedsAPerson(j, a) then p.None?
    else
      && p.Some? && p.value.code == CodeAfter(j, a, now) && p.value.advice == AdviceAfter(j, a, now)
      && (p.value.mayHaveStarted <==> MayRun(j, a, now))
      && (p.value.safeRetry <==> a.Fault? && j.phase.Local? && !GivesUp(j, a, now))
      && p.value.details.remoteAbsence == (if a.RemoteAbsenceSeen? && a.absence.Some? then At(a.absence.value.observedAt) else NoStamp)
      && p.value.details.localFailure == (if a.Fault? && j.phase.Local? then At(TroubleSince(j, now)) else NoStamp)
      && p.value.details.reason == ReasonAfter(j, a, now)
  }

  /** The cause an action's own news brings. */
  function OwnCause(j: Journal, a: Action): string {
    if CauseGiven(a) != "" then CauseGiven(a)
    else if a.EndUnconfirmedPreparation? && j.problem.Some? then j.problem.value.details.Public().cause
    else if a.Fault? && a.details.Some? then a.details.value.Public().cause
    else if a.SubmissionSeen? && a.submission.Some? && a.submission.value.problem.Some? then
      a.submission.value.problem.value.details.Public().cause
    else ""
  }

  /** What it says came first. */
  function OwnFirstCause(j: Journal, a: Action): string {
    if a.EndUnconfirmedPreparation? && j.problem.Some? then j.problem.value.details.Public().reason
    else if a.Fault? && a.details.Some? then a.details.value.Public().firstCause
    else if a.SubmissionSeen? && a.submission.Some? && a.submission.value.problem.Some? then
      a.submission.value.problem.value.details.Public().firstCause
    else ""
  }

  /** And the name it gives. */
  function OwnName(a: Action): string {
    if a.SubmissionAbsenceSeen? || a.OwnerSubmissionAbsent? then a.name
    else if a.Fault? && a.details.Some? then a.details.value.Public().resourceName
    else if a.SubmissionSeen? && a.submission.Some? && a.submission.value.problem.Some? then
      a.submission.value.problem.value.details.Public().resourceName
    else ""
  }

  function Or(own: string, otherwise: string): string { if own != "" then own else otherwise }

  /** A problem shows its own causes, and where it has none those of the first doubt; and the name the
      attempt would be found under, where the journal knows one. */
  predicate Credits(j: Journal, a: Action, p: Option<Problem>, doubt: Option<Problem>, name: string) {
    p.Some? && !a.PreventDispatch? ==> Credited(p.value.details, OwnCause(j, a), OwnFirstCause(j, a), OwnName(a), doubt, name)
  }

  predicate Credited(d: Details, cause: string, first: string, own: string, doubt: Option<Problem>, name: string) {
    var origin := if doubt.Some? then doubt.value.details.Public() else NO_DETAILS;
    d.cause == Or(cause, origin.cause) && d.firstCause == Or(first, origin.firstCause)
    && d.resourceName == Or(name, Or(own, origin.resourceName))
  }

  // ---------------------------------------------------------------- the proof, one action at a time

  predicate Carries(j: Journal, a: Action, now: Time, j': Journal) {
    && EvidenceIsCarried(j, a, j') && ClocksStartOnce(j, a, now, j') && FirstDoubtIsKept(j, a, j')
    && NameIsTheLatest(j, a, j') && FailuresCount(j, a, now, j')
  }

  predicate JournalMeans(j: Journal, a: Action, now: Time, j': Journal) {
    Carries(j, a, now, j') && j'.phase == PhaseAfter(j, a, now)
  }

  predicate StateMeans(j: Journal, s: State, a: Action, now: Time, s': State) {
    && StateIsEstablished(j, s, a, now, s') && s'.cancellation == StopAfter(j, s, a, now)
    && s'.orchestration == OrchestrationAfter(j, s, a, now)
  }

  /** All of it, of a drafted step. */
  predicate Drafts(j: Journal, s: State, a: Action, now: Time, r: Outcome) {
    r.Committed? ==>
      && JournalMeans(j, a, now, r.journal) && StateMeans(j, s, a, now, r.state)
      && ProblemTells(j, a, now, r.journal.problem) && Credits(j, a, r.journal.problem, None, "") && r.event == EventAfter(j, a, now)
  }

  /** The phase and the problem are judged apart from what is carried. */
  lemma {:induction false} CarriesOn(j: Journal, a: Action, now: Time, f: Journal, j': Journal)
    requires Carries(j, a, now, f) && j' == f.(phase := j'.phase, problem := j'.problem, version := j'.version)
    ensures Carries(j, a, now, j')
  {
  }

  lemma {:induction false} RefusalMeans(j: Journal, s: State, refusal: string, cause: string, now: Time)
    requires j.Valid()
    ensures Drafts(j, s, RefuseNewWork(refusal, cause), now, StepRefuseNewWork(j, s, refusal, cause))
  {
    if StepRefuseNewWork(j, s, refusal, cause).Committed? { RefusalShows(j, s, refusal, cause, now); }
  }

  lemma {:induction false} RefusalShows(j: Journal, s: State, refusal: string, cause: string, now: Time)
    requires (j.phase.Local? <==> j.plan.None?) && StepRefuseNewWork(j, s, refusal, cause).Committed?
    ensures StateMeans(j, s, RefuseNewWork(refusal, cause), now, StepRefuseNewWork(j, s, refusal, cause).state)
  {
  }

  lemma {:induction false} PreventionMeans(j: Journal, s: State, now: Time)
    requires j.Valid()
    ensures Drafts(j, s, PreventDispatch, now, StepPrevent(j, s))
  {
  }

  lemma {:induction false} ExpiryMeans(j: Journal, s: State, expired: bool, now: Time)
    requires j.Valid()
    ensures Drafts(j, s, ExpireDispatch(expired), now, StepExpire(j, s, expired))
  {
    if StepExpire(j, s, expired).Committed? { ExpiryShows(j, s, expired, now); }
  }

  lemma {:induction false} ExpiryShows(j: Journal, s: State, expired: bool, now: Time)
    requires !j.submitStarted && StepExpire(j, s, expired).Committed?
    ensures StateMeans(j, s, ExpireDispatch(expired), now, StepExpire(j, s, expired).state)
  {
  }

  lemma {:induction false} EndingMeans(j: Journal, s: State, cause: string, now: Time)
    requires j.Valid()
    ensures Drafts(j, s, EndUnconfirmedPreparation(cause), now, StepEndUnconfirmed(j, s, cause))
  {
    if StepEndUnconfirmed(j, s, cause).Committed? { EndingShows(j, s, cause, now); }
  }

  lemma {:induction false} EndingShows(j: Journal, s: State, cause: string, now: Time)
    requires !j.submitStarted && StepEndUnconfirmed(j, s, cause).Committed?
    ensures StateMeans(j, s, EndUnconfirmedPreparation(cause), now, StepEndUnconfirmed(j, s, cause).state)
  {
  }

  lemma {:induction false} ReconciliationMeans(j: Journal, s: State, claim: bool, name: string, now: Time)
    requires j.Valid()
    ensures Drafts(j, s, RequestReconciliation(claim, name), now, StepRequestReconciliation(j, s, claim, name))
  {
    if StepRequestReconciliation(j, s, claim, name).Committed? { ReconciliationShows(j, s, claim, name, now); }
  }

  lemma {:induction false} ReconciliationShows(j: Journal, s: State, claim: bool, name: string, now: Time)
    requires (j.remote.Some? ==> j.submitStarted) && StepRequestReconciliation(j, s, claim, name).Committed?
    ensures StateMeans(j, s, RequestReconciliation(claim, name), now, StepRequestReconciliation(j, s, claim, name).state)
  {
  }

  lemma {:induction false} PreparationMeans(j: Journal, s: State, plan: Option<Plan>, id: Id, now: Time)
    requires j.Valid()
    ensures Drafts(j, s, BeginPreparation(plan, id), now, StepBeginPreparation(j, s, plan, id))
  {
  }

  lemma {:induction false} PreparationSeenMeans(j: Journal, s: State, prepared: Option<Prepared>, now: Time)
    requires j.Valid()
    ensures Drafts(j, s, PreparationSeen(prepared), now, StepPreparationSeen(j, s, prepared))
  {
    var r := StepPreparationSeen(j, s, prepared);
    if r.Committed? {
      PreparationSeenShows(j, s, prepared, now);
      PreparationCarries(j, prepared, now, r.journal);
    }
  }

  lemma {:induction false} PreparationCarries(j: Journal, prepared: Option<Prepared>, now: Time, j': Journal)
    requires j.phase.Staging? && prepared.Some? && j' == j.(prepared := prepared, failures := 0, phase := j'.phase, problem := j'.problem)
    ensures Carries(j, PreparationSeen(prepared), now, j')
  {
  }

  lemma {:induction false} PreparationSeenShows(j: Journal, s: State, prepared: Option<Prepared>, now: Time)
    requires j.Valid() && j.phase.Staging? && StepPreparationSeen(j, s, prepared).Committed?
    ensures StateMeans(j, s, PreparationSeen(prepared), now, StepPreparationSeen(j, s, prepared).state)
  {
  }

  lemma {:induction false} SubmissionMeans(j: Journal, s: State, auth: Option<StartAuthorization>, now: Time)
    requires j.Valid()
    ensures Drafts(j, s, BeginSubmission(auth), now, StepBeginSubmission(j, s, auth))
  {
  }

  lemma {:induction false} AcceptedMeans(j: Journal, s: State, sub: Submission, now: Time)
    requires j.phase.Submitting? && sub.status.SubmissionAccepted? && sub.remote.Some?
    ensures Drafts(j, s, SubmissionSeen(Some(sub)), now, RecordAcceptance(j, s, sub.remote.value))
  {
  }

  lemma {:induction false} UncertainMeans(j: Journal, s: State, sub: Submission, now: Time)
    requires j.phase.Submitting? && sub.status.SubmissionUnknown? && sub.problem.Some?
    ensures Drafts(j, s, SubmissionSeen(Some(sub)), now, RecordUnknown(j, s, sub.problem.value.details.Public()))
  {
    ControlledProblem(ProviderSubmissionUnknown, true);
    var p := ProblemFor(ProviderSubmissionUnknown, true).value.(details := sub.problem.value.details.Public());
    UncertainShows(j, s, sub, now);
    UncertainTells(j, sub, now, p);
    UncertainCarries(j, sub, now, p, RecordUnknown(j, s, p.details).journal);
  }

  lemma {:induction false} UncertainTells(j: Journal, sub: Submission, now: Time, p: Problem)
    requires sub.status.SubmissionUnknown? && sub.problem.Some? && p.details == sub.problem.value.details.Public()
    requires p.code == ProviderSubmissionUnknown && p.advice == Reconcile && p.mayHaveStarted && !p.safeRetry
    ensures ProblemTells(j, SubmissionSeen(Some(sub)), now, Some(p)) && Credits(j, SubmissionSeen(Some(sub)), Some(p), None, "")
  {
  }

  lemma {:induction false} UncertainCarries(j: Journal, sub: Submission, now: Time, p: Problem, j': Journal)
    requires j.phase.Submitting? && sub.status.SubmissionUnknown? && sub.problem.Some? && p.details == sub.problem.value.details.Public()
    requires p.code == ProviderSubmissionUnknown && p.advice == Reconcile && p.mayHaveStarted && !p.safeRetry
    requires j' == j.(problem := Some(p), submissionProblem := if j.submissionProblem.None? then Some(p) else j.submissionProblem,
                      resourceName := p.details.resourceName)
    ensures JournalMeans(j, SubmissionSeen(Some(sub)), now, j')
  {
  }

  lemma {:induction false} UncertainShows(j: Journal, s: State, sub: Submission, now: Time)
    requires j.phase.Submitting? && sub.status.SubmissionUnknown?
    ensures StateMeans(j, s, SubmissionSeen(Some(sub)), now, s.(orchestration := Reconciling))
  {
  }

  /** A rejection, wherever it comes from, once its code, its reason and its name are the right ones. */
  lemma {:induction false} RejectedMeans(j: Journal, s: State, a: Action, now: Time, name: string, code: ErrorCode, details: Details)
    requires NeverSubmitted(j, a, now) && !code.UnregisteredCode? && code == CodeAfter(j, a, now)
    requires details.reason == ReasonAfter(j, a, now) && details.localFailure.NoStamp? && details.remoteAbsence.NoStamp?
    requires details.cause == OwnCause(j, a) && details.firstCause == OwnFirstCause(j, a) && details.resourceName == OwnName(a)
    requires NameIsTheLatest(j, a, j.(resourceName := name))
    ensures Drafts(j, s, a, now, RecordRejection(j.(resourceName := name), s, code, details))
  {
    var p := ProblemFor(code, false);
    ControlledProblem(code, false);
    RejectedStateMeans(j, s, a, now, code);
    RejectionTells(j, a, now, p.value.(details := details));
    RejectionCarries(j, a, now, name, Some(p.value.(details := details)));
  }

  lemma {:induction false} RejectionCarries(j: Journal, a: Action, now: Time, name: string, p: Option<Problem>)
    requires NeverSubmitted(j, a, now) && NameIsTheLatest(j, a, j.(resourceName := name))
    ensures JournalMeans(j, a, now, j.(resourceName := name, phase := Phase.Rejected, problem := p))
  {
  }

  lemma {:induction false} RejectionTells(j: Journal, a: Action, now: Time, p: Problem)
    requires NeverSubmitted(j, a, now) && p.code == CodeAfter(j, a, now) && p.advice == AdviceFor(p.code)
    requires p.details.reason == ReasonAfter(j, a, now) && p.details.localFailure.NoStamp? && p.details.remoteAbsence.NoStamp?
    requires !p.mayHaveStarted && !p.safeRetry
    requires p.details.cause == OwnCause(j, a) && p.details.firstCause == OwnFirstCause(j, a) && p.details.resourceName == OwnName(a)
    ensures ProblemTells(j, a, now, Some(p)) && Credits(j, a, Some(p), None, "")
  {
  }

  lemma {:induction false} RejectedStateMeans(j: Journal, s: State, a: Action, now: Time, code: ErrorCode)
    requires NeverSubmitted(j, a, now) && code == CodeAfter(j, a, now)
    ensures StateMeans(j, s, a, now, RejectedState(s, code))
  {
  }

  lemma {:induction false} OutcomeMeans(j: Journal, s: State, submission: Option<Submission>, now: Time)
    requires j.Valid()
    ensures Drafts(j, s, SubmissionSeen(submission), now, Resolve(j, j, s, false, submission))
  {
    if Resolve(j, j, s, false, submission).Committed? {
      var sub := submission.value;
      match sub.status
      case SubmissionAccepted => AcceptedMeans(j, s, sub, now);
      case SubmissionUnknown => UncertainMeans(j, s, sub, now);
      case SubmissionRejected =>
        var given := sub.problem.value;
        assert j.(resourceName := j.resourceName) == j;
        RejectedMeans(j, s, SubmissionSeen(submission), now, j.resourceName, RejectionCode(given.code), given.details.Public());
    }
  }

  lemma {:induction false} AbsenceMeans(j: Journal, s: State, name: string, now: Time)
    requires j.Valid()
    ensures Drafts(j, s, SubmissionAbsenceSeen(name), now, StepAbsence(j, s, false, name, now))
  {
    if AbsenceFits(j, s, false, name) && GraceOver(j, now) {
      ResolvedAbsenceMeans(j, s, false, name, now);
    } else {
      UnresolvedAbsenceMeans(j, s, name, now);
    }
  }

  lemma {:induction false} UnresolvedAbsenceMeans(j: Journal, s: State, name: string, now: Time)
    requires j.Valid() && (!AbsenceFits(j, s, false, name) || !GraceOver(j, now))
    ensures Drafts(j, s, SubmissionAbsenceSeen(name), now, StepAbsence(j, s, false, name, now))
  {
    var r := StepAbsence(j, s, false, name, now);
    if r.Committed? {
      UnresolvedAbsenceShows(j, s, name, now);
      UnresolvedAbsenceCarries(j, name, now, r.journal);
      UnresolvedAbsenceTells(j, s, name, now);
    }
  }

  lemma {:induction false} UnresolvedAbsenceTells(j: Journal, s: State, name: string, now: Time)
    requires j.Valid() && !GraceOver(j, now) && StepAbsence(j, s, false, name, now).Committed?
    ensures ProblemTells(j, SubmissionAbsenceSeen(name), now, StepAbsence(j, s, false, name, now).journal.problem)
  {
    ControlledProblem(ProviderSubmissionUnknown, true);
  }

  lemma {:induction false} UnresolvedAbsenceCarries(j: Journal, name: string, now: Time, j': Journal)
    requires !GraceOver(j, now) && j'.absenceObserved == (if j.absenceObserved.None? then Some(now) else j.absenceObserved)
    requires j' == j.(resourceName := name, absenceObserved := j'.absenceObserved, phase := Submitting,
                      failures := if j.failures == 0 then 1 else j.failures, problem := j'.problem)
    ensures JournalMeans(j, SubmissionAbsenceSeen(name), now, j')
  {
  }

  lemma {:induction false} UnresolvedAbsenceShows(j: Journal, s: State, name: string, now: Time)
    requires j.Valid() && (!AbsenceFits(j, s, false, name) || !GraceOver(j, now)) && StepAbsence(j, s, false, name, now).Committed?
    ensures StateMeans(j, s, SubmissionAbsenceSeen(name), now, StepAbsence(j, s, false, name, now).state)
  {
  }

  lemma {:induction false} ResolvedAbsenceMeans(j: Journal, s: State, owner: bool, name: string, now: Time)
    requires j.Valid() && (owner || GraceOver(j, now)) && AbsenceFits(j, s, owner, name)
    ensures Drafts(j, s, Absent(owner, name), now, StepAbsence(j, s, owner, name, now))
  {
    if StepAbsence(j, s, owner, name, now).Committed? {
      var details := AbsenceIsRejection(j, s, owner, name, now);
      RejectedMeans(j, s, Absent(owner, name), now, name, ProviderRejected, details);
    }
  }

  function Absent(owner: bool, name: string): Action {
    if owner then OwnerSubmissionAbsent(name) else SubmissionAbsenceSeen(name)
  }

  /** An absence that is believed is a rejection with its own reason. */
  lemma {:induction false} AbsenceIsRejection(j: Journal, s: State, owner: bool, name: string, now: Time) returns (details: Details)
    requires j.Valid() && (owner || GraceOver(j, now)) && AbsenceFits(j, s, owner, name)
    requires StepAbsence(j, s, owner, name, now).Committed?
    ensures StepAbsence(j, s, owner, name, now) == RecordRejection(j.(resourceName := name), s, ProviderRejected, details)
    ensures details.reason == ReasonAfter(j, Absent(owner, name), now) && details.localFailure.NoStamp? && details.remoteAbsence.NoStamp?
    ensures details.cause == "" && details.firstCause == "" && details.resourceName == name
  {
    var reason := if owner then "submission_absent_owner_confirmed" else "submission_absent_owned_list";
    details := NO_DETAILS.(reason := reason, resourceName := name).Public();
    ReasonIsPublic(owner, name);
  }

  lemma {:induction false} ReasonIsPublic(owner: bool, name: string)
    ensures var reason := if owner then "submission_absent_owner_confirmed" else "submission_absent_owned_list";
            NO_DETAILS.(reason := reason, resourceName := name).Public().reason == reason
  {
  }

  lemma {:induction false} OwnerAbsenceMeans(j: Journal, s: State, name: string, now: Time)
    requires j.Valid()
    ensures Drafts(j, s, OwnerSubmissionAbsent(name), now, StepAbsence(j, s, true, name, now))
  {
    if AbsenceFits(j, s, true, name) { ResolvedAbsenceMeans(j, s, true, name, now); }
  }

  lemma {:induction false} RemoteAbsenceMeans(j: Journal, s: State, absence: Option<Absence>, now: Time)
    requires j.Valid()
    ensures Drafts(j, s, RemoteAbsenceSeen(absence), now, StepRemoteAbsence(j, s, absence, now))
  {
    if StepRemoteAbsence(j, s, absence, now).Committed? { RemoteAbsenceShows(j, s, absence, now); }
  }

  lemma {:induction false} RemoteAbsenceShows(j: Journal, s: State, absence: Option<Absence>, now: Time)
    requires j.submitStarted && StepRemoteAbsence(j, s, absence, now).Committed?
    ensures StateMeans(j, s, RemoteAbsenceSeen(absence), now, StepRemoteAbsence(j, s, absence, now).state)
  {
  }

  lemma {:induction false} DefiniteMeans(j: Journal, s: State, obs: Observation, now: Time)
    requires j.phase.Submitted? && !obs.execution.ExecUnknown?
    ensures Drafts(j, s, ObservationSeen(Some(obs)), now, RecordObservation(j, s, obs, Observed(s, obs)))
  {
  }

  lemma {:induction false} VagueMeans(j: Journal, s: State, obs: Observation, now: Time)
    requires j.phase.Submitted? && obs.execution.ExecUnknown? && j.failures <= MAX_FAILURES
    ensures Drafts(j, s, ObservationSeen(Some(obs)), now, RecordObservation(j, s, obs, Observed(s, obs)))
  {
    VagueShows(j, s, obs, now);
    VagueCarries(j, s, obs, now);
    ControlledProblem(ProviderStateUnknown, true);
  }

  lemma {:induction false} VagueCarries(j: Journal, s: State, obs: Observation, now: Time)
    requires j.phase.Submitted? && obs.execution.ExecUnknown? && j.failures <= MAX_FAILURES
    ensures JournalMeans(j, ObservationSeen(Some(obs)), now, RecordObservation(j, s, obs, Observed(s, obs)).journal)
  {
  }

  lemma {:induction false} VagueShows(j: Journal, s: State, obs: Observation, now: Time)
    requires j.phase.Submitted? && obs.execution.ExecUnknown? && j.failures <= MAX_FAILURES
    ensures StateMeans(j, s, ObservationSeen(Some(obs)), now, RecordObservation(j, s, obs, Observed(s, obs)).state)
  {
  }

  lemma {:induction false} ObservationMeans(j: Journal, s: State, observation: Option<Observation>, now: Time)
    requires j.Valid()
    ensures Drafts(j, s, ObservationSeen(observation), now, StepObservation(j, s, observation, now))
  {
    if StepObservation(j, s, observation, now).Committed? {
      if observation.value.execution.ExecUnknown? {
        VagueMeans(j, s, observation.value, now);
      } else {
        DefiniteMeans(j, s, observation.value, now);
      }
    }
  }

  /** The problem a fault shows, before the phase adds its date. */
  predicate FaultTells(j: Journal, code: ErrorCode, reason: string, cause: string, details: Option<Details>, p: Problem) {
    && p.code == code && p.advice == AdviceFor(code) && !p.safeRetry && (p.mayHaveStarted <==> j.submitStarted && code != RemoteTimeout)
    && p.details.remoteAbsence.NoStamp? && p.details.localFailure.NoStamp?
    && p.details.reason == FaultReason(j, code, reason, details)
    && p.details.cause == (if cause != "" then cause else if details.Some? then details.value.Public().cause else "")
    && p.details.firstCause == (if details.Some? then details.value.Public().firstCause else "")
    && p.details.resourceName == (if details.Some? then details.value.Public().resourceName else "")
  }

  lemma {:induction false} FaultProblemTells(j: Journal, code: ErrorCode, reason: string, cause: string, details: Option<Details>)
    ensures var p := FaultProblem(j, code, reason, cause, details); p.Some? ==> FaultTells(j, code, reason, cause, details, p.value)
  {
    ControlledProblem(code, j.submitStarted);
  }

  lemma {:induction false} ControlledProblem(code: ErrorCode, may: bool)
    ensures ProblemFor(code, may).Some? <==> !code.UnregisteredCode?
    ensures var p := ProblemFor(code, may);
            p.Some? ==>
              && p.value.Valid() && p.value.code == code && (p.value.mayHaveStarted <==> may && code != RemoteTimeout) && !p.value.safeRetry
              && p.value.details.remoteAbsence.NoStamp? && p.value.details.localFailure.NoStamp? && p.value.advice == AdviceFor(code)
  {
  }

  lemma {:induction false} FaultedMeans(j: Journal, s: State, a: Action, now: Time)
    requires j.Valid() && a.Fault? && !Settled(j.phase)
    ensures Carries(j, a, now, Faulted(j, NamedResource(a.details), now))
  {
  }

  lemma {:induction false} LocalFaultMeans(j: Journal, s: State, a: Action, f: Journal, p: Problem, now: Time)
    requires a.Fault? && j.phase.Local? && !j.submitStarted && FaultTells(j, a.code, a.reason, a.faultCause, a.details, p)
    requires Carries(j, a, now, f) && f.phase == j.phase
    ensures Drafts(j, s, a, now, RecordLocalFault(j, f, s, a.code, p, now))
  {
    var r := RecordLocalFault(j, f, s, a.code, p, now);
    CarriesOn(j, a, now, f, r.journal);
    LocalFaultShows(j, s, a, f, p, now);
    LocalFaultTells(j, s, a, f, p, now);
  }

  lemma {:induction false} LocalFaultShows(j: Journal, s: State, a: Action, f: Journal, p: Problem, now: Time)
    requires a.Fault? && j.phase.Local? && f.phase == j.phase
    ensures var r := RecordLocalFault(j, f, s, a.code, p, now);
            r.journal.phase == PhaseAfter(j, a, now) && StateMeans(j, s, a, now, r.state)
  {
  }

  lemma {:induction false} LocalFaultTells(j: Journal, s: State, a: Action, f: Journal, p: Problem, now: Time)
    requires a.Fault? && j.phase.Local? && !j.submitStarted && FaultTells(j, a.code, a.reason, a.faultCause, a.details, p)
    ensures var q := RecordLocalFault(j, f, s, a.code, p, now).journal.problem; ProblemTells(j, a, now, q) && Credits(j, a, q, None, "")
  {
  }

  lemma {:induction false} PlannedFaultMeans(j: Journal, s: State, a: Action, f: Journal, p: Problem, now: Time)
    requires a.Fault? && j.plan.Some? && !j.phase.Local? && !Settled(j.phase) && FaultTells(j, a.code, a.reason, a.faultCause, a.details, p)
    requires j.failures <= MAX_FAILURES && (j.phase.Staging? ==> !j.submitStarted)
    requires Carries(j, a, now, f) && f.phase == j.phase
    ensures Drafts(j, s, a, now, RecordPlannedFault(j, f, s, a.code, p))
  {
    var r := RecordPlannedFault(j, f, s, a.code, p);
    assert r.journal == f.(phase := r.journal.phase, problem := Some(p)) && r.event == ReconciliationDeferred;
    CarriesOn(j, a, now, f, r.journal);
    PlannedFaultShows(j, s, a, f, p, now);
    PlannedFaultTells(j, a, p, now);
  }

  lemma {:induction false} PlannedFaultTells(j: Journal, a: Action, p: Problem, now: Time)
    requires a.Fault? && !j.phase.Local? && FaultTells(j, a.code, a.reason, a.faultCause, a.details, p)
    ensures ProblemTells(j, a, now, Some(p)) && Credits(j, a, Some(p), None, "")
  {
  }

  lemma {:induction false} PlannedFaultShows(j: Journal, s: State, a: Action, f: Journal, p: Problem, now: Time)
    requires a.Fault? && j.plan.Some? && !j.phase.Local? && !Settled(j.phase) && FailuresCount(j, a, now, f) && f.phase == j.phase
    requires j.failures <= MAX_FAILURES && (j.phase.Staging? ==> !j.submitStarted)
    ensures var r := RecordPlannedFault(j, f, s, a.code, p);
            r.journal.phase == PhaseAfter(j, a, now) && StateMeans(j, s, a, now, r.state)
  {
  }

  lemma {:induction false} FaultMeans(j: Journal, s: State, a: Action, now: Time, p: Option<Problem>)
    requires j.Valid() && a.Fault? && (p.Some? ==> FaultTells(j, a.code, a.reason, a.faultCause, a.details, p.value))
    ensures Drafts(j, s, a, now, StepFault(j, s, a.code, p, NamedResource(a.details), now))
  {
    if p.Some? && !Settled(j.phase) {
      var f := Faulted(j, NamedResource(a.details), now);
      FaultedMeans(j, s, a, now);
      if j.plan.None? {
        LocalFaultMeans(j, s, a, f, p.value, now);
      } else {
        PlannedFaultMeans(j, s, a, f, p.value, now);
      }
    }
  }

  lemma {:induction false} StepMeans(j: Journal, s: State, a: Action, now: Time)
    requires j.Valid()
    ensures Drafts(j, s, a, now, Step(j, s, a, now))
  {
    match a
    case RefuseNewWork(refusal, cause) => RefusalMeans(j, s, refusal, cause, now);
    case PreventDispatch => PreventionMeans(j, s, now);
    case ExpireDispatch(expired) => ExpiryMeans(j, s, expired, now);
    case RequestReconciliation(claim, name) => ReconciliationMeans(j, s, claim, name, now);
    case BeginPreparation(plan, id) => PreparationMeans(j, s, plan, id, now);
    case BeginSubmission(auth) => SubmissionMeans(j, s, auth, now);
    case _ => ReplyMeans(j, s, a, now);
  }

  /** The same of what the provider answers, and of trouble. */
  lemma {:induction false} ReplyMeans(j: Journal, s: State, a: Action, now: Time)
    requires j.Valid()
    requires !(|| a.RefuseNewWork? || a.PreventDispatch? || a.ExpireDispatch? || a.RequestReconciliation? || a.BeginPreparation?
               || a.BeginSubmission?)
    ensures Drafts(j, s, a, now, Step(j, s, a, now))
  {
    match a
    case PreparationSeen(prepared) => PreparationSeenMeans(j, s, prepared, now);
    case EndUnconfirmedPreparation(cause) => EndingMeans(j, s, cause, now);
    case SubmissionSeen(submission) => OutcomeMeans(j, s, submission, now);
    case SubmissionAbsenceSeen(name) => AbsenceMeans(j, s, name, now);
    case OwnerSubmissionAbsent(name) => OwnerAbsenceMeans(j, s, name, now);
    case RemoteAbsenceSeen(absence) => RemoteAbsenceMeans(j, s, absence, now);
    case ObservationSeen(observation) => ObservationMeans(j, s, observation, now);
    case Fault(code, reason, cause, details) =>
      FaultProblemTells(j, code, reason, cause, details);
      FaultMeans(j, s, a, now, FaultProblem(j, code, reason, cause, details));
    case UnknownKind =>
  }

  lemma {:induction false} AnnotationMeans(j: Journal, a: Action, now: Time, draft: Journal)
    requires JournalMeans(j, a, now, draft) && ProblemTells(j, a, now, draft.problem) && Credits(j, a, draft.problem, None, "")
    requires a.PreventDispatch? ==> draft.submissionProblem.None? && draft.resourceName == ""
    ensures var j' := Annotate(draft).(version := j.version + 1);
            && JournalMeans(j, a, now, j') && ProblemTells(j, a, now, j'.problem)
            && Credits(j, a, j'.problem, j'.submissionProblem, j'.resourceName)
  {
    AnnotationIsInert(draft, j.version + 1);
    CarriesOn(j, a, now, draft, Annotate(draft).(version := j.version + 1));
    AnnotationTells(j, a, now, draft);
    AnnotationCredits(j, a, draft);
  }

  lemma {:induction false} PreventedUnnamed(j: Journal, s: State)
    requires j.Valid() && StepPrevent(j, s).Committed?
    ensures StepPrevent(j, s).journal.submissionProblem.None? && StepPrevent(j, s).journal.resourceName == ""
  {
  }

  lemma {:induction false} AnnotationTells(j: Journal, a: Action, now: Time, draft: Journal)
    requires ProblemTells(j, a, now, draft.problem)
    requires a.PreventDispatch? ==> draft.submissionProblem.None? && draft.resourceName == ""
    ensures ProblemTells(j, a, now, Annotate(draft).problem)
  {
  }

  lemma {:induction false} AnnotationCredits(j: Journal, a: Action, draft: Journal)
    requires Credits(j, a, draft.problem, None, "")
    ensures Credits(j, a, Annotate(draft).problem, draft.submissionProblem, draft.resourceName)
  {
    if draft.problem.Some? && !a.PreventDispatch? { AnnotationFills(draft, OwnCause(j, a), OwnFirstCause(j, a), OwnName(a)); }
  }

  lemma {:induction false} AnnotationFills(draft: Journal, cause: string, first: string, own: string)
    requires draft.problem.Some? && Credited(draft.problem.value.details, cause, first, own, None, "")
    ensures Credited(Annotate(draft).problem.value.details, cause, first, own, draft.submissionProblem, draft.resourceName)
  {
  }

  lemma {:induction false} DraftMeans(j: Journal, s: State, a: Action, now: Time)
    requires j.Valid() && Step(j, s, a, now).Committed?
    ensures var r := Step(j, s, a, now);
            var j' := Annotate(r.journal).(version := j.version + 1);
            && JournalMeans(j, a, now, j') && StateMeans(j, s, a, now, r.state)
            && ProblemTells(j, a, now, j'.problem)
            && Credits(j, a, j'.problem, j'.submissionProblem, j'.resourceName) && r.event == EventAfter(j, a, now)
  {
    StepMeans(j, s, a, now);
    if a.PreventDispatch? { PreventedUnnamed(j, s); }
    AnnotationMeans(j, a, now, Step(j, s, a, now).journal);
  }

  /** Every accepted action, whatever its kind: what it leaves of the evidence, the clocks, the name,
      the failure count, the phase, the problem, and every dimension of the state. */
  lemma {:induction false} ApplyMeans(j: Journal, s: State, a: Action, now: Time, bytes: nat)
    requires Apply(j, s, a, now, bytes).Committed?
    ensures var r := Apply(j, s, a, now, bytes);
            && JournalMeans(j, a, now, r.journal) && StateMeans(j, s, a, now, r.state)
            && ProblemTells(j, a, now, r.journal.problem)
            && Credits(j, a, r.journal.problem, r.journal.submissionProblem, r.journal.resourceName) && r.event == EventAfter(j, a, now)
  {
    ApplyIsLegal(j, s, a, now, bytes);
    DraftMeans(j, s, a, now);
  }

  // ---------------------------------------------------------------- nothing else is left open

  lemma {:induction false} OneProblem(j: Journal, a: Action, now: Time, p: Option<Problem>, q: Option<Problem>, doubt: Option<Problem>, name: string)
    requires ProblemTells(j, a, now, p) && Credits(j, a, p, doubt, name) && (p.Some? ==> p.value.Valid())
    requires ProblemTells(j, a, now, q) && Credits(j, a, q, doubt, name) && (q.Some? ==> q.value.Valid())
    ensures p == q
  {
  }

  lemma {:induction false} OneDoubt(j: Journal, a: Action, j1: Journal, j2: Journal)
    requires FirstDoubtIsKept(j, a, j1) && (j1.submissionProblem.Some? ==> j1.submissionProblem.value.Valid())
    requires FirstDoubtIsKept(j, a, j2) && (j2.submissionProblem.Some? ==> j2.submissionProblem.value.Valid())
    ensures j1.submissionProblem == j2.submissionProblem
  {
  }

  /** These laws say all there is to say: they leave one journal and one state. */
  lemma {:induction false} LawsDetermine(j: Journal, s: State, a: Action, now: Time, j1: Journal, s1: State, j2: Journal, s2: State)
    requires j1.Valid() && JournalMeans(j, a, now, j1) && StateMeans(j, s, a, now, s1)
    requires ProblemTells(j, a, now, j1.problem) && Credits(j, a, j1.problem, j1.submissionProblem, j1.resourceName)
    requires j2.Valid() && JournalMeans(j, a, now, j2) && StateMeans(j, s, a, now, s2)
    requires ProblemTells(j, a, now, j2.problem) && Credits(j, a, j2.problem, j2.submissionProblem, j2.resourceName)
    requires j1.version == j2.version
    ensures j1 == j2 && s1 == s2
  {
    OneDoubt(j, a, j1, j2);
    OneProblem(j, a, now, j1.problem, j2.problem, j1.submissionProblem, j1.resourceName);
  }
}
