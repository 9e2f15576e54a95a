/** When an action is accepted. Under what holds in every run the guards of the transition function
    come down to a few conditions, and past them only a missing edge of the orchestration or the
    cancellation graph can still refuse. */
module DispatchAcceptance {
  import opened AttemptState
  import opened Journal
  import opened Optional
  import opened Dispatch
  import opened DispatchSafety
  import opened DispatchMeaning

  /** More that holds along every run, beyond the joint invariant. */
  predicate Sharp(j: Journal, s: State) { SharpState(j, s) && SharpJournal(j) }

  /** Compute that was asked for and has not ended may be running. */
  predicate SharpState(j: Journal, s: State) {
    && (j.submitStarted && !j.phase.Rejected? && !j.phase.Collectible? && j.RemoteAbsence().None? ==>
          && (s.activity.ActivityUnknown? || s.activity.Possible? || s.activity.Active?)
          && (s.release.ReleaseUnknown? || s.release.NotObservable?))
    && (j.submitStarted && !j.phase.Rejected? && j.remote.None? ==> s.activity.Possible?)
  }

  /** A public resource is never used, and what was seen to have ended is collected. */
  predicate SharpJournal(j: Journal) {
    && (j.prepared.Some? && !j.prepared.value.isPrivate ==>
          || j.phase.Prevented?
          || (j.phase.Attention? && j.problem.Some? && j.problem.value.code == PrivateStagingUnavailable))
    && (j.observation.Some? && j.observation.value.execution.Terminal() ==> j.phase.Collectible?)
  }

  predicate Unended(s: State) { !s.orchestration.Terminal() }

  predicate NoProblemBars(j: Journal) {
    j.problem.Some? ==> j.problem.value.code !in {RemoteIdentityMismatch, PrivateStagingUnavailable}
  }

  /** The owner speaks of an attempt put aside, and of the very resource recorded. */
  predicate OwnerKnows(j: Journal, name: string) {
    j.phase.Attention? && j.submitStarted && j.remote.None? && name != "" && name == j.resourceName
  }

  predicate Reopens(j: Journal, s: State) {
    && j.phase in {Staging, Ready, Submitting, Phase.Submitted, Attention}
    && j.RemoteAbsence().None? && NoProblemBars(j)
    && (!j.submitStarted ==>
          s.cancellation == NotRequested && !s.deadlineExceeded && s.orchestration in {NeedsAttention, Preparing, Reconciling})
  }

  predicate Named(j: Journal, name: string) { ValidResourceName(name) && (j.resourceName == "" || j.resourceName == name) }

  /** The news is newer than what is recorded, and not from the future. */
  predicate Newer(j: Journal, at: Time, now: Time) {
    at <= now && (j.observation.Some? ==> at > j.observation.value.observedAt)
  }

  predicate Speakable(text: string) { text == "" || ValidReason(text) }

  predicate Due(j: Journal, s: State, a: Action, now: Time)
    requires j.Valid()
  {
    match a
    case RefuseNewWork(refusal, cause) =>
      (j.phase.Local? || j.phase.Ready?) && s.cancellation == NotRequested && KnownRefusal(refusal) && Speakable(cause)
    case PreventDispatch => !j.submitStarted && Unended(s)
    case ExpireDispatch(_) => !j.submitStarted && Unended(s) && s.cancellation == NotRequested
    case RequestReconciliation(claim, name) => Reopens(j, s) && (claim ==> OwnerKnows(j, name))
    case BeginPreparation(plan, id) =>
      j.phase.Local? && LocalOnly(s) && plan.Some? && plan.value.hasInputs && plan.value.JobValid() && id.Valid()
    case PreparationSeen(prepared) =>
      && j.phase.Staging? && prepared.Some? && prepared.value.Valid(j.plan.value, j.preparationId)
      && (j.prepared.Some? ==> j.prepared.value.resource == prepared.value.resource)
    case EndUnconfirmedPreparation(cause) =>
      j.phase.Staging? && j.prepared.None? && s.cancellation == NotRequested && Speakable(cause)
    case BeginSubmission(_) => j.phase.Ready? && LocalOnly(s)
    case SubmissionSeen(submission) =>
      j.phase.Submitting? && submission.Some? && submission.value.Valid(j.plan.value.identity)
    case SubmissionAbsenceSeen(name) =>
      && Named(j, name) && !j.ownerPresent
      && (j.phase.Submitting? || (j.phase.Attention? && j.submitStarted && j.remote.None? && !GraceOver(j, now)))
    case OwnerSubmissionAbsent(name) =>
      Named(j, name) && (j.phase.Submitting? || (j.phase.Attention? && j.submitStarted && j.remote.None?))
    case RemoteAbsenceSeen(absence) =>
      && j.phase.Submitted? && absence.Some? && absence.value.remote == j.remote.value && ValidTime(absence.value.observedAt)
      && Newer(j, absence.value.observedAt, now)
    case ObservationSeen(observation) =>
      && j.phase.Submitted? && observation.Some? && observation.value.Valid(j.remote.value)
      && Newer(j, observation.value.observedAt, now) && Agrees(s, observation.value)
    case Fault(code, reason, cause, _) =>
      && j.phase in {Local, Staging, Ready, Submitting, Phase.Submitted}
      && !code.UnregisteredCode? && Speakable(reason) && Speakable(cause)
    case UnknownKind => false
  }

  /** An observation does not take back what is established. */
  predicate Agrees(s: State, obs: Observation) {
    && (!obs.execution.ExecUnknown? ==>
          && (s.execution == obs.execution || s.execution.Edge(obs.execution))
          && (s.activity == obs.activity || s.activity.Edge(obs.activity))
          && (s.release == obs.release || s.release.Edge(obs.release)))
    && Moves(s.orchestration, WatchedIn(s, obs))
    && (obs.execution.Terminal() && s.cancellation != NotRequested ==>
          var answer := if obs.execution.ExecCancelled? then Confirmed else TooLate;
          s.cancellation == answer || s.cancellation.Edge(answer))
  }

  predicate Moves(p: Orchestration, q: Orchestration) { p == q || p.Edge(q) }

  /** Where an observation by itself would show the attempt. */
  function WatchedIn(s: State, obs: Observation): Orchestration {
    if obs.execution.Terminal() then Collecting
    else if s.cancellation == Manual then NeedsAttention
    else if obs.execution.ExecUnknown? then Shown(s, Reconciling)
    else if obs.execution in {ExecRunning, ExecStarting} then Shown(s, Running)
    else Shown(s, Orchestration.Submitted)
  }

  // ---------------------------------------------------------------- guards

  lemma {:induction false} EarlyGuards(j: Journal, s: State, a: Action, now: Time)
    requires Joint(j, s) && (a.RefuseNewWork? || a.PreventDispatch? || a.ExpireDispatch? || a.BeginPreparation? || a.PreparationSeen? || a.BeginSubmission?)
    ensures Step(j, s, a, now).Committed? <==> Due(j, s, a, now)
  {
  }

  lemma {:induction false} EndingGuards(j: Journal, s: State, a: Action, now: Time)
    requires Joint(j, s) && a.EndUnconfirmedPreparation?
    ensures Step(j, s, a, now).Committed? <==> Due(j, s, a, now)
  {
  }

  lemma {:induction false} ReconciliationGuards(j: Journal, s: State, a: Action, now: Time)
    requires Joint(j, s) && a.RequestReconciliation?
    ensures Step(j, s, a, now).Committed? <==> Due(j, s, a, now)
  {
  }

  lemma {:induction false} OutcomeGuards(j: Journal, s: State, a: Action, now: Time)
    requires Joint(j, s) && a.SubmissionSeen?
    ensures Step(j, s, a, now).Committed? <==> Due(j, s, a, now)
  {
  }

  lemma {:induction false} AbsenceGuards(j: Journal, s: State, a: Action, now: Time)
    requires Joint(j, s) && (a.SubmissionAbsenceSeen? || a.OwnerSubmissionAbsent?)
    ensures Step(j, s, a, now).Committed? <==> Due(j, s, a, now)
  {
  }

  lemma {:induction false} RemoteAbsenceGuards(j: Journal, s: State, a: Action, now: Time)
    requires Joint(j, s) && a.RemoteAbsenceSeen?
    ensures Step(j, s, a, now).Committed? <==> Due(j, s, a, now)
  {
  }

  lemma {:induction false} ObservationGuards(j: Journal, s: State, a: Action, now: Time)
    requires Joint(j, s) && Sharp(j, s) && a.ObservationSeen?
    ensures Step(j, s, a, now).Committed? <==> Due(j, s, a, now)
  {
    if j.phase.Submitted? && a.observation.Some? && a.observation.value.Valid(j.remote.value) {
      AgreementIsLegal(j, s, a.observation.value);
    }
  }

  lemma {:induction false} AgreementIsLegal(j: Journal, s: State, obs: Observation)
    requires Joint(j, s) && Sharp(j, s) && j.phase.Submitted? && obs.Valid(j.remote.value)
    ensures ValidTransition(s, Observed(s, obs)) <==> Agrees(s, obs)
  {
    if obs.execution.ExecUnknown? {
      VagueIsLegal(s, obs);
    } else if obs.execution.Terminal() {
      EndIsLegal(s, obs);
    } else {
      LiveIsLegal(s, obs);
    }
  }

  /** A submitted attempt that has not ended, as far as the state goes. */
  predicate Underway(s: State) {
    && s.Valid() && !s.execution.Terminal() && !s.execution.NotSubmitted? && !s.orchestration.Terminal()
    && (s.activity.ActivityUnknown? || s.activity.Possible? || s.activity.Active?)
    && (s.release.ReleaseUnknown? || s.release.NotObservable?)
  }

  /** Between consistent states that differ in where the attempt is shown, an edge decides. */
  lemma {:induction false} ShownIsLegal(s: State, s': State)
    requires s.Valid() && s'.Valid() && s' == s.(orchestration := s'.orchestration)
    ensures ValidTransition(s, s') <==> Moves(s.orchestration, s'.orchestration)
  {
  }

  lemma {:induction false} VagueIsLegal(s: State, obs: Observation)
    requires Underway(s) && obs.execution.ExecUnknown?
    ensures ValidTransition(s, Observed(s, obs)) <==> Agrees(s, obs)
  {
    VagueStays(s, obs);
    ShownIsLegal(s, Observed(s, obs));
    VagueAgrees(s, obs);
  }

  lemma {:induction false} VagueStays(s: State, obs: Observation)
    requires Underway(s) && obs.execution.ExecUnknown?
    ensures Observed(s, obs).Valid() && Observed(s, obs) == s.(orchestration := WatchedIn(s, obs))
  {
  }

  lemma {:induction false} VagueAgrees(s: State, obs: Observation)
    requires obs.execution.ExecUnknown?
    ensures Agrees(s, obs) <==> Moves(s.orchestration, WatchedIn(s, obs))
  {
  }

  lemma {:induction false} EndIsLegal(s: State, obs: Observation)
    requires Underway(s) && obs.Valid(obs.remote) && obs.execution.Terminal()
    ensures ValidTransition(s, Observed(s, obs)) <==> Agrees(s, obs)
  {
  }

  lemma {:induction false} LiveIsLegal(s: State, obs: Observation)
    requires Underway(s) && obs.Valid(obs.remote) && !obs.execution.ExecUnknown? && !obs.execution.Terminal()
    ensures ValidTransition(s, Observed(s, obs)) <==> Agrees(s, obs)
  {
  }

  lemma {:induction false} FaultGuards(j: Journal, s: State, a: Action, now: Time)
    requires Joint(j, s) && a.Fault?
    ensures Step(j, s, a, now).Committed? <==> Due(j, s, a, now)
  {
  }

  // ---------------------------------------------------------------- edges

  /** An edge of the graphs, for the state. */
  predicate StatePasses(j: Journal, s: State, a: Action, now: Time) {
    && Moves(s.orchestration, OrchestrationAfter(j, s, a, now))
    && (s.cancellation == StopAfter(j, s, a, now) || s.cancellation.Edge(StopAfter(j, s, a, now)))
    && (GivesUp(j, a, now) ==> s.cancellation == NotRequested)
  }

  /** A sound plan, a sound authorization, and a name once an absence is being timed, for the journal. */
  predicate JournalPasses(j: Journal, a: Action) {
    && (a.BeginPreparation? && a.plan.Some? ==> a.plan.value.inputsOk)
    && (a.BeginSubmission? && a.authorization.Some? && j.prepared.Some? ==> a.authorization.value.Valid(j.prepared.value))
    && (Told(a, SubmissionUnknown) && a.submission.value.problem.Some? && j.absenceObserved.Some? ==>
          ValidResourceName(a.submission.value.problem.value.details.resourceName))
  }

  /** What no graph has to allow: nothing else changes, or changes along its own graph. */
  predicate Elsewhere(s: State, s': State) {
    && s.Valid() && s'.Valid() && s'.result == s.result && (s.deadlineExceeded ==> s'.deadlineExceeded)
    && (s.execution == s'.execution || s.execution.Edge(s'.execution))
    && (s.activity == s'.activity || s.activity.Edge(s'.activity))
    && (s.release == s'.release || s.release.Edge(s'.release))
  }

  lemma {:induction false} EdgesDecide(j: Journal, s: State, a: Action, now: Time, s': State)
    requires Elsewhere(s, s') && StateMeans(j, s, a, now, s') && !GivesUp(j, a, now)
    ensures ValidTransition(s, s') <==> StatePasses(j, s, a, now)
  {
  }

  lemma {:induction false} RefuseNewWorkState(j: Journal, s: State, a: Action, now: Time, s': State)
    requires Joint(j, s) && Sharp(j, s) && a.RefuseNewWork? && Due(j, s, a, now) && StateMeans(j, s, a, now, s')
    ensures ValidTransition(s, s') <==> StatePasses(j, s, a, now)
  {
  }

  lemma {:induction false} PreventDispatchState(j: Journal, s: State, a: Action, now: Time, s': State)
    requires Joint(j, s) && Sharp(j, s) && a.PreventDispatch? && Due(j, s, a, now) && StateMeans(j, s, a, now, s')
    ensures ValidTransition(s, s') <==> StatePasses(j, s, a, now)
  {
  }

  lemma {:induction false} ExpireDispatchState(j: Journal, s: State, a: Action, now: Time, s': State)
    requires Joint(j, s) && Sharp(j, s) && a.ExpireDispatch? && Due(j, s, a, now) && StateMeans(j, s, a, now, s')
    ensures ValidTransition(s, s') <==> StatePasses(j, s, a, now)
  {
  }

  lemma {:induction false} BeginPreparationState(j: Journal, s: State, a: Action, now: Time, s': State)
    requires Joint(j, s) && Sharp(j, s) && a.BeginPreparation? && Due(j, s, a, now) && StateMeans(j, s, a, now, s')
    ensures ValidTransition(s, s') <==> StatePasses(j, s, a, now)
  {
  }

  lemma {:induction false} PreparationSeenState(j: Journal, s: State, a: Action, now: Time, s': State)
    requires Joint(j, s) && Sharp(j, s) && a.PreparationSeen? && Due(j, s, a, now) && StateMeans(j, s, a, now, s')
    ensures ValidTransition(s, s') <==> StatePasses(j, s, a, now)
  {
  }

  lemma {:induction false} EndUnconfirmedPreparationState(j: Journal, s: State, a: Action, now: Time, s': State)
    requires Joint(j, s) && Sharp(j, s) && a.EndUnconfirmedPreparation? && Due(j, s, a, now) && StateMeans(j, s, a, now, s')
    ensures ValidTransition(s, s') <==> StatePasses(j, s, a, now)
  {
  }

  lemma {:induction false} BeginSubmissionState(j: Journal, s: State, a: Action, now: Time, s': State)
    requires Joint(j, s) && Sharp(j, s) && a.BeginSubmission? && Due(j, s, a, now) && StateMeans(j, s, a, now, s')
    ensures ValidTransition(s, s') <==> StatePasses(j, s, a, now)
  {
  }

  lemma {:induction false} RequestReconciliationState(j: Journal, s: State, a: Action, now: Time, s': State)
    requires Joint(j, s) && Sharp(j, s) && a.RequestReconciliation? && Due(j, s, a, now) && StateMeans(j, s, a, now, s')
    ensures ValidTransition(s, s') <==> StatePasses(j, s, a, now)
  {
    ReopenElsewhere(j, s, a, now, s');
    EdgesDecide(j, s, a, now, s');
  }

  lemma {:induction false} ReopenElsewhere(j: Journal, s: State, a: Action, now: Time, s': State)
    requires Joint(j, s) && a.RequestReconciliation? && Due(j, s, a, now) && StateMeans(j, s, a, now, s')
    ensures Elsewhere(s, s')
  {
  }

  lemma {:induction false} SubmissionSeenState(j: Journal, s: State, a: Action, now: Time, s': State)
    requires Joint(j, s) && Sharp(j, s) && a.SubmissionSeen? && Due(j, s, a, now) && StateMeans(j, s, a, now, s')
    ensures ValidTransition(s, s') <==> StatePasses(j, s, a, now)
  {
    OutcomeElsewhere(j, s, a, now, s');
    EdgesDecide(j, s, a, now, s');
  }

  lemma {:induction false} OutcomeElsewhere(j: Journal, s: State, a: Action, now: Time, s': State)
    requires Joint(j, s) && Sharp(j, s) && a.SubmissionSeen? && Due(j, s, a, now) && StateMeans(j, s, a, now, s')
    ensures Elsewhere(s, s')
  {
  }

  lemma {:induction false} SubmissionAbsenceSeenState(j: Journal, s: State, a: Action, now: Time, s': State)
    requires Joint(j, s) && Sharp(j, s) && a.SubmissionAbsenceSeen? && Due(j, s, a, now) && StateMeans(j, s, a, now, s')
    ensures ValidTransition(s, s') <==> StatePasses(j, s, a, now)
  {
    AbsenceElsewhere(j, s, a, now, s');
    EdgesDecide(j, s, a, now, s');
  }

  lemma {:induction false} AbsenceElsewhere(j: Journal, s: State, a: Action, now: Time, s': State)
    requires Joint(j, s) && Sharp(j, s) && Due(j, s, a, now) && StateMeans(j, s, a, now, s')
    requires a.SubmissionAbsenceSeen? || a.OwnerSubmissionAbsent?
    ensures Elsewhere(s, s')
  {
  }

  lemma {:induction false} OwnerSubmissionAbsentState(j: Journal, s: State, a: Action, now: Time, s': State)
    requires Joint(j, s) && Sharp(j, s) && a.OwnerSubmissionAbsent? && Due(j, s, a, now) && StateMeans(j, s, a, now, s')
    ensures ValidTransition(s, s') <==> StatePasses(j, s, a, now)
  {
    AbsenceElsewhere(j, s, a, now, s');
    EdgesDecide(j, s, a, now, s');
  }

  lemma {:induction false} RemoteAbsenceSeenState(j: Journal, s: State, a: Action, now: Time, s': State)
    requires Joint(j, s) && Sharp(j, s) && a.RemoteAbsenceSeen? && Due(j, s, a, now) && StateMeans(j, s, a, now, s')
    ensures ValidTransition(s, s') <==> StatePasses(j, s, a, now)
  {
  }

  lemma {:induction false} ObservationSeenState(j: Journal, s: State, a: Action, now: Time, s': State)
    requires Joint(j, s) && Sharp(j, s) && a.ObservationSeen? && Due(j, s, a, now) && StateMeans(j, s, a, now, s')
    ensures ValidTransition(s, s') <==> StatePasses(j, s, a, now)
  {
    var obs := a.observation.value;
    if obs.execution.ExecUnknown? {
      VagueElsewhere(j, s, a, now, s');
    } else {
      AgreementIsLegal(j, s, obs);
      SeenElsewhere(j, s, a, now, s');
    }
    EdgesDecide(j, s, a, now, s');
  }

  lemma {:induction false} VagueElsewhere(j: Journal, s: State, a: Action, now: Time, s': State)
    requires Underway(s) && Vague(a) && j.phase.Submitted? && StateMeans(j, s, a, now, s')
    ensures Elsewhere(s, s')
  {
    VagueOnlyShows(j, s, a, now, s');
    StaysUnderway(s, s'.orchestration, s'.cancellation);
  }

  lemma {:induction false} VagueOnlyShows(j: Journal, s: State, a: Action, now: Time, s': State)
    requires Vague(a) && j.phase.Submitted? && StateMeans(j, s, a, now, s')
    ensures s' == s.(orchestration := s'.orchestration, cancellation := s'.cancellation)
    ensures s'.orchestration.Reconciling? || s'.orchestration.Cancelling? || s'.orchestration.NeedsAttention?
    ensures s'.cancellation == s.cancellation || s'.cancellation.Manual?
  {
  }

  lemma {:induction false} StaysUnderway(s: State, o: Orchestration, c: Cancellation)
    requires Underway(s) && (o.Reconciling? || o.Cancelling? || o.NeedsAttention?) && (c == s.cancellation || c.Manual?)
    ensures s.(orchestration := o, cancellation := c).Valid()
  {
  }

  lemma {:induction false} SeenElsewhere(j: Journal, s: State, a: Action, now: Time, s': State)
    requires Definite(a) && j.phase.Submitted? && StateMeans(j, s, a, now, s')
    requires ValidTransition(s, Observed(s, a.observation.value)) && !s.execution.Terminal()
    ensures Elsewhere(s, s')
  {
    SeenAsObserved(j, s, a, now, s');
    LegalIsElsewhere(s, s');
  }

  lemma {:induction false} SeenAsObserved(j: Journal, s: State, a: Action, now: Time, s': State)
    requires Definite(a) && j.phase.Submitted? && StateMeans(j, s, a, now, s')
    ensures s' == Observed(s, a.observation.value)
  {
  }

  lemma {:induction false} LegalIsElsewhere(s: State, s': State)
    requires ValidTransition(s, s') && !s'.execution.ExecUnknown? && s'.result == s.result
    ensures Elsewhere(s, s')
  {
  }

  lemma {:induction false} FaultState(j: Journal, s: State, a: Action, now: Time, s': State)
    requires Joint(j, s) && Sharp(j, s) && a.Fault? && Due(j, s, a, now) && StateMeans(j, s, a, now, s')
    ensures ValidTransition(s, s') <==> StatePasses(j, s, a, now)
  {
    if GivesUp(j, a, now) {
      GivingUpState(j, s, a, now, s');
    } else {
      FaultElsewhere(j, s, a, now, s');
      EdgesDecide(j, s, a, now, s');
    }
  }

  lemma {:induction false} GivingUpState(j: Journal, s: State, a: Action, now: Time, s': State)
    requires Joint(j, s) && GivesUp(j, a, now) && StateMeans(j, s, a, now, s')
    ensures ValidTransition(s, s') <==> StatePasses(j, s, a, now)
  {
  }

  lemma {:induction false} FaultElsewhere(j: Journal, s: State, a: Action, now: Time, s': State)
    requires Joint(j, s) && a.Fault? && !GivesUp(j, a, now) && Due(j, s, a, now) && StateMeans(j, s, a, now, s')
    ensures Elsewhere(s, s')
  {
  }

  /** The problem is well formed and its dates can be read. */
  predicate ProblemSound(j': Journal) {
    j'.problem.Some? ==>
      && j'.problem.value.Valid()
      && (j'.problem.value.details.localFailure.NoStamp? || j'.problem.value.details.localFailure.Readable())
      && (j'.problem.value.details.remoteAbsence.NoStamp? || j'.RemoteAbsence().Some?)
  }

  predicate DoubtSound(a: Action, j: Journal, j': Journal) {
    if Told(a, SubmissionUnknown) then j'.submissionProblem.Some? && j'.submissionProblem.value.Valid()
    else j'.submissionProblem == j.submissionProblem
  }

  lemma {:induction false} EarlyJournal(j: Journal, s: State, a: Action, now: Time, j': Journal)
    requires Joint(j, s) && Sharp(j, s) && ValidTime(now) && Due(j, s, a, now) && JournalMeans(j, a, now, j')
    requires ProblemSound(j') && j'.version != 0 && DoubtSound(a, j, j') && BeforeSubmission(a)
    ensures j'.Valid() <==> JournalPasses(j, a)
  {
  }

  lemma {:induction false} SubmissionJournal(j: Journal, s: State, a: Action, now: Time, j': Journal)
    requires Joint(j, s) && Sharp(j, s) && ValidTime(now) && Due(j, s, a, now) && JournalMeans(j, a, now, j')
    requires ProblemSound(j') && j'.version != 0 && DoubtSound(a, j, j')
    requires a.SubmissionSeen? || a.SubmissionAbsenceSeen? || a.OwnerSubmissionAbsent? || a.RequestReconciliation?
    ensures j'.Valid() <==> JournalPasses(j, a)
  {
  }

  lemma {:induction false} WatchJournal(j: Journal, s: State, a: Action, now: Time, j': Journal)
    requires Joint(j, s) && Sharp(j, s) && ValidTime(now) && Due(j, s, a, now) && JournalMeans(j, a, now, j')
    requires ProblemSound(j') && j'.version != 0 && DoubtSound(a, j, j')
    requires a.RemoteAbsenceSeen? || a.ObservationSeen? || a.Fault?
    ensures j'.Valid() <==> JournalPasses(j, a)
  {
  }

  lemma {:induction false} StateLands(j: Journal, s: State, a: Action, now: Time, s': State)
    requires Joint(j, s) && Sharp(j, s) && Due(j, s, a, now) && StateMeans(j, s, a, now, s')
    ensures ValidTransition(s, s') <==> StatePasses(j, s, a, now)
  {
    if a.RefuseNewWork? {
      RefuseNewWorkState(j, s, a, now, s');
    } else if a.PreventDispatch? {
      PreventDispatchState(j, s, a, now, s');
    } else if a.ExpireDispatch? {
      ExpireDispatchState(j, s, a, now, s');
    } else if a.BeginPreparation? {
      BeginPreparationState(j, s, a, now, s');
    } else if a.PreparationSeen? {
      PreparationSeenState(j, s, a, now, s');
    } else if a.EndUnconfirmedPreparation? {
      EndUnconfirmedPreparationState(j, s, a, now, s');
    } else if a.BeginSubmission? {
      BeginSubmissionState(j, s, a, now, s');
    } else if a.RequestReconciliation? {
      RequestReconciliationState(j, s, a, now, s');
    } else if a.SubmissionSeen? {
      SubmissionSeenState(j, s, a, now, s');
    } else if a.SubmissionAbsenceSeen? {
      SubmissionAbsenceSeenState(j, s, a, now, s');
    } else if a.OwnerSubmissionAbsent? {
      OwnerSubmissionAbsentState(j, s, a, now, s');
    } else if a.RemoteAbsenceSeen? {
      RemoteAbsenceSeenState(j, s, a, now, s');
    } else if a.ObservationSeen? {
      ObservationSeenState(j, s, a, now, s');
    } else if a.Fault? {
      FaultState(j, s, a, now, s');
    }
  }

  lemma {:induction false} JournalLands(j: Journal, s: State, a: Action, now: Time, j': Journal)
    requires Joint(j, s) && Sharp(j, s) && ValidTime(now) && Due(j, s, a, now) && JournalMeans(j, a, now, j')
    requires ProblemSound(j') && j'.version != 0 && DoubtSound(a, j, j')
    ensures j'.Valid() <==> JournalPasses(j, a)
  {
    if BeforeSubmission(a) {
      EarlyJournal(j, s, a, now, j');
    } else if a.RemoteAbsenceSeen? || a.ObservationSeen? || a.Fault? {
      WatchJournal(j, s, a, now, j');
    } else {
      SubmissionJournal(j, s, a, now, j');
    }
  }

  // ---------------------------------------------------------------- the problem is always sound

  lemma {:induction false} EarlyProblems(j: Journal, s: State, a: Action, now: Time)
    requires Joint(j, s) && Step(j, s, a, now).Committed? && (BeforeSubmission(a) || a.RequestReconciliation? || a.RemoteAbsenceSeen?)
    ensures var p := Step(j, s, a, now).journal.problem; p.Some? ==> p.value.Valid()
  {
  }

  lemma {:induction false} SubmissionProblems(j: Journal, s: State, a: Action, now: Time)
    requires Joint(j, s) && Step(j, s, a, now).Committed? && (a.SubmissionSeen? || a.SubmissionAbsenceSeen? || a.OwnerSubmissionAbsent?)
    ensures var j' := Step(j, s, a, now).journal;
            (j'.problem.Some? ==> j'.problem.value.Valid()) && DoubtSound(a, j, j')
  {
    if a.SubmissionSeen? {
      OutcomeProblems(j, j, s, false, a.submission);
    } else {
      AbsenceProblems(j, s, a.OwnerSubmissionAbsent?, a.name, now);
    }
  }

  /** A resolution shows a controlled problem, or none. */
  lemma {:induction false} OutcomeProblems(j: Journal, k: Journal, s: State, owner: bool, submission: Option<Submission>)
    requires j.Valid() && Resolve(j, k, s, owner, submission).Committed? && (k.submissionProblem.Some? ==> k.submissionProblem.value.Valid())
    ensures var j' := Resolve(j, k, s, owner, submission).journal;
            && (j'.problem.Some? ==> j'.problem.value.Valid())
            && (if submission.value.status.SubmissionUnknown? then j'.submissionProblem.Some? && j'.submissionProblem.value.Valid()
                else j'.submissionProblem == k.submissionProblem)
  {
    ControlledProblem(ProviderSubmissionUnknown, true);
    if submission.value.status.SubmissionRejected? { ControlledProblem(RejectionCode(submission.value.problem.value.code), false); }
  }

  lemma {:induction false} AbsenceProblems(j: Journal, s: State, owner: bool, name: string, now: Time)
    requires j.Valid() && StepAbsence(j, s, owner, name, now).Committed?
    ensures var j' := StepAbsence(j, s, owner, name, now).journal;
            (j'.problem.Some? ==> j'.problem.value.Valid()) && j'.submissionProblem == j.submissionProblem
  {
    if owner || !AbsenceUnconfirmed(j, now) {
      var reason := if owner then "submission_absent_owner_confirmed" else "submission_absent_owned_list";
      var p := PlainProblem(ProviderRejected, NO_DETAILS.(reason := reason, resourceName := name));
      OutcomeProblems(j, j.(resourceName := name), s, owner, Some(Submission(SubmissionRejected, None, Some(p))));
    }
  }

  lemma {:induction false} WatchProblems(j: Journal, s: State, a: Action, now: Time)
    requires Joint(j, s) && Step(j, s, a, now).Committed? && a.ObservationSeen?
    ensures var p := Step(j, s, a, now).journal.problem; p.Some? ==> p.value.Valid()
  {
    WatchedProblems(j, s, a.observation.value, Observed(s, a.observation.value));
  }

  lemma {:induction false} WatchedProblems(j: Journal, s: State, obs: Observation, next: State)
    ensures var p := RecordObservation(j, s, obs, next).journal.problem; p.Some? ==> p.value.Valid()
  {
    ControlledProblem(ProviderStateUnknown, true);
  }

  lemma {:induction false} FaultProblems(j: Journal, s: State, a: Action, now: Time)
    requires Joint(j, s) && Step(j, s, a, now).Committed? && a.Fault?
    ensures var p := Step(j, s, a, now).journal.problem; p.Some? ==> p.value.Valid()
  {
    FaultProblemIsValid(j, a.code, a.reason, a.faultCause, a.details);
    RecordedFaultIsValid(j, s, a.code, FaultProblem(j, a.code, a.reason, a.faultCause, a.details).value, NamedResource(a.details), now);
  }

  /** A problem is well formed by its code and stage, whatever it says besides. */
  lemma {:induction false} SameKind(p: Problem, q: Problem)
    requires p.Valid() && q.code == p.code && q.stage == p.stage && q.advice != RetryComputeExplicitly
    ensures q.Valid()
  {
  }

  lemma {:induction false} FaultProblemIsValid(j: Journal, code: ErrorCode, reason: string, cause: string, details: Option<Details>)
    ensures var p := FaultProblem(j, code, reason, cause, details); p.Some? ==> p.value.Valid() && p.value.advice != RetryComputeExplicitly
  {
    var p := FaultProblem(j, code, reason, cause, details);
    if p.Some? {
      ControlledProblem(code, j.submitStarted);
      SameKind(ProblemFor(code, j.submitStarted).value, p.value);
    }
  }

  lemma {:induction false} RecordedFaultIsValid(j: Journal, s: State, code: ErrorCode, p: Problem, named: string, now: Time)
    requires p.Valid() && p.advice != RetryComputeExplicitly
    ensures var q := RecordFault(j, s, code, p, named, now).journal.problem; q.Some? && q.value.Valid()
  {
    RecordedFaultIsAlike(j, s, code, p, named, now);
    SameKind(p, RecordFault(j, s, code, p, named, now).journal.problem.value);
  }

  lemma {:induction false} RecordedFaultIsAlike(j: Journal, s: State, code: ErrorCode, p: Problem, named: string, now: Time)
    requires p.advice != RetryComputeExplicitly
    ensures var q := RecordFault(j, s, code, p, named, now).journal.problem;
            q.Some? && q.value.code == p.code && q.value.stage == p.stage && q.value.advice != RetryComputeExplicitly
  {
    var f := Faulted(j, named, now);
    if j.plan.None? { LocalFaultIsAlike(j, f, s, code, p, now); } else { PlannedFaultIsAlike(j, f, s, code, p); }
  }

  lemma {:induction false} LocalFaultIsAlike(j: Journal, f: Journal, s: State, code: ErrorCode, p: Problem, now: Time)
    requires p.advice != RetryComputeExplicitly
    ensures var q := RecordLocalFault(j, f, s, code, p, now).journal.problem;
            q.Some? && q.value.code == p.code && q.value.stage == p.stage && q.value.advice != RetryComputeExplicitly
  {
  }

  lemma {:induction false} PlannedFaultIsAlike(j: Journal, f: Journal, s: State, code: ErrorCode, p: Problem)
    ensures RecordPlannedFault(j, f, s, code, p).journal.problem == Some(p)
  {
  }

  lemma {:induction false} StepIsSound(j: Journal, s: State, a: Action, now: Time)
    requires Joint(j, s) && Step(j, s, a, now).Committed? && Drafts(j, s, a, now, Step(j, s, a, now))
    ensures var j' := Step(j, s, a, now).journal;
            (j'.problem.Some? ==> j'.problem.value.Valid()) && DoubtSound(a, j, j')
  {
    if a.SubmissionSeen? || a.SubmissionAbsenceSeen? || a.OwnerSubmissionAbsent? {
      SubmissionProblems(j, s, a, now);
    } else if a.Fault? {
      FaultProblems(j, s, a, now);
    } else if a.ObservationSeen? {
      WatchProblems(j, s, a, now);
    } else {
      EarlyProblems(j, s, a, now);
    }
  }

  /** What the laws say of the dates is enough to read them. */
  lemma {:induction false} DatesAreSound(j: Journal, s: State, a: Action, now: Time, j': Journal)
    requires Joint(j, s) && ValidTime(now) && Due(j, s, a, now) && JournalMeans(j, a, now, j') && ProblemTells(j, a, now, j'.problem)
    requires j'.problem.Some? ==> j'.problem.value.Valid()
    ensures ProblemSound(j')
  {
  }

  lemma {:induction false} AnnotationIsSound(j: Journal, a: Action, draft: Journal)
    requires (draft.problem.Some? ==> draft.problem.value.Valid()) && DoubtSound(a, j, draft)
    ensures var j' := Annotate(draft).(version := j.version + 1);
            (j'.problem.Some? ==> j'.problem.value.Valid()) && DoubtSound(a, j, j')
  {
  }

  // ---------------------------------------------------------------- the theorem

  lemma {:induction false} DueIsDrafted(j: Journal, s: State, a: Action, now: Time)
    requires Joint(j, s) && Sharp(j, s)
    ensures Step(j, s, a, now).Committed? <==> Due(j, s, a, now)
  {
    match a
    case EndUnconfirmedPreparation(_) => EndingGuards(j, s, a, now);
    case RequestReconciliation(_, _) => ReconciliationGuards(j, s, a, now);
    case SubmissionSeen(_) => OutcomeGuards(j, s, a, now);
    case SubmissionAbsenceSeen(_) => AbsenceGuards(j, s, a, now);
    case OwnerSubmissionAbsent(_) => AbsenceGuards(j, s, a, now);
    case RemoteAbsenceSeen(_) => RemoteAbsenceGuards(j, s, a, now);
    case ObservationSeen(_) => ObservationGuards(j, s, a, now);
    case Fault(_, _, _, _) => FaultGuards(j, s, a, now);
    case UnknownKind =>
    case _ => EarlyGuards(j, s, a, now);
  }

  lemma {:induction false} DraftLands(j: Journal, s: State, a: Action, now: Time)
    requires Joint(j, s) && Sharp(j, s) && ValidTime(now) && Due(j, s, a, now) && Step(j, s, a, now).Committed?
    ensures var r := Step(j, s, a, now);
            && (Annotate(r.journal).(version := j.version + 1).Valid() <==> JournalPasses(j, a))
            && (ValidTransition(s, r.state) <==> StatePasses(j, s, a, now))
  {
    var r := Step(j, s, a, now);
    var j' := Annotate(r.journal).(version := j.version + 1);
    StepMeans(j, s, a, now);
    StepIsSound(j, s, a, now);
    AnnotationMeans(j, a, now, r.journal);
    AnnotationIsSound(j, a, r.journal);
    DatesAreSound(j, s, a, now, j');
    JournalLands(j, s, a, now, j');
    StateLands(j, s, a, now, r.state);
  }

  /** An action is accepted exactly when it is due and its edges exist. */
  lemma {:induction false} AcceptedExactlyWhen(j: Journal, s: State, a: Action, now: Time, bytes: nat)
    requires Joint(j, s) && Sharp(j, s) && ValidTime(now) && j.version < MAX_VERSION && bytes <= MAX_JOURNAL_BYTES
    ensures Apply(j, s, a, now, bytes).Committed? <==> Due(j, s, a, now) && StatePasses(j, s, a, now) && JournalPasses(j, a)
  {
    DueIsDrafted(j, s, a, now);
    if Due(j, s, a, now) {
      DraftLands(j, s, a, now);
      ApplyExactly(j, s, a, now, bytes);
    }
  }

  // ---------------------------------------------------------------- it holds along every run

  lemma {:induction false} ApplySharpens(j: Journal, s: State, a: Action, now: Time, bytes: nat)
    requires Joint(j, s) && Sharp(j, s) && Apply(j, s, a, now, bytes).Committed?
    ensures Sharp(Apply(j, s, a, now, bytes).journal, Apply(j, s, a, now, bytes).state)
  {
    var r := Apply(j, s, a, now, bytes);
    ApplyMeans(j, s, a, now, bytes);
    ApplyIsLawful(j, s, a, now, bytes);
    ApplyIsLegal(j, s, a, now, bytes);
    DueIsDrafted(j, s, a, now);
    MeansSharpens(j, s, a, now, r.journal, r.state);
  }

  lemma {:induction false} MeansSharpens(j: Journal, s: State, a: Action, now: Time, j': Journal, s': State)
    requires Joint(j, s) && Sharp(j, s) && Due(j, s, a, now) && Joint(j', s')
    requires JournalMeans(j, a, now, j') && StateMeans(j, s, a, now, s') && ProblemTells(j, a, now, j'.problem)
    ensures Sharp(j', s')
  {
    StateSharpens(j, s, a, now, j', s');
    JournalSharpens(j, s, a, now, j');
  }

  lemma {:induction false} StateSharpens(j: Journal, s: State, a: Action, now: Time, j': Journal, s': State)
    requires Joint(j, s) && Sharp(j, s) && Due(j, s, a, now) && Joint(j', s')
    requires JournalMeans(j, a, now, j') && StateMeans(j, s, a, now, s') && ProblemTells(j, a, now, j'.problem)
    ensures SharpState(j', s')
  {
  }

  lemma {:induction false} JournalSharpens(j: Journal, s: State, a: Action, now: Time, j': Journal)
    requires j.Valid() && SharpJournal(j) && Due(j, s, a, now)
    requires JournalMeans(j, a, now, j') && ProblemTells(j, a, now, j'.problem)
    ensures SharpJournal(j')
  {
  }

  lemma {:induction false} ControlSharpens(j: Journal, s: State, n: State)
    requires Sharp(j, s) && Control(s, n)
    ensures Sharp(j, n)
  {
  }
}
