/** What every single step on a journal keeps: the joint invariant of journal and state,
    the evidence that is written once, and the journals nothing can move any more. */
module DispatchSafety {
  import opened AttemptState
  import opened Journal
  import opened Optional
  import opened Dispatch

  /** How the journal and the attempt state of a reachable attempt fit together. */
  predicate Joint(j: Journal, s: State) {
    j.Valid() && s.Valid() && Fit(j, s)
  }

  predicate Fit(j: Journal, s: State) {
    && (!j.submitStarted ==> s.execution.NotSubmitted? && s.activity.NotStarted?)
    && (j.submitStarted && !j.phase.Rejected? ==> !s.execution.NotSubmitted?)
    && (j.phase.Rejected? ==> s.execution.NotSubmitted? && s.activity.Inactive?)
    && (j.phase.Rejected? || j.phase.Failed? || j.phase.Prevented? ==> s.orchestration.Terminal())
    && (s.execution.Terminal() <==> j.phase.Collectible?)
    && (j.phase.Collectible? ==> j.observation.Some? && s.execution == j.observation.value.execution)
    && (j.RemoteAbsence().Some? ==> s.execution.ExecUnknown? && s.activity.Inactive?)
    && (j.submitStarted && !j.phase.Rejected? && j.remote.None? ==> s.execution.ExecUnknown?)
    && (j.remote.None? ==> s.release.ReleaseUnknown? || s.release.NotApplicable?)
    && (s.orchestration.Terminal() ==>
          j.phase.Rejected? || j.phase.Failed? || j.phase.Prevented? || j.phase.Collectible?)
  }

  /** Evidence that a later journal of the same attempt may add to but never rewrite. */
  predicate WriteOnce(a: Journal, b: Journal) {
    && (a.plan.Some? ==> b.plan == a.plan && b.preparationId == a.preparationId)
    && (a.preparationObserved.Some? ==> b.preparationObserved == a.preparationObserved)
    && (a.prepared.Some? ==> b.prepared.Some? && b.prepared.value.resource == a.prepared.value.resource)
    && (a.submitStarted ==> b.submitStarted && b.prepared == a.prepared && b.authorization == a.authorization)
    && (a.submissionProblem.Some? ==> b.submissionProblem == a.submissionProblem)
    && (a.remote.Some? ==> b.remote == a.remote)
    && (a.ownerPresent ==> b.ownerPresent)
    && (a.observation.Some? ==>
          && b.observation.Some?
          && (b.observation == a.observation || a.observation.value.observedAt < b.observation.value.observedAt))
  }

  /** The state changes made outside the journal: cancellation requests and their progress,
      scheduling, collection claims and failures, expiry of results. None of them touches what
      the provider established, ends the orchestration, or publishes results. */
  predicate Control(s: State, n: State) {
    && ValidTransition(s, n)
    && n.execution == s.execution && n.activity == s.activity && n.release == s.release
    && n.deadlineExceeded == s.deadlineExceeded
    && (n.orchestration.Terminal() ==> n.orchestration == s.orchestration)
    && (n.result.Available? ==> s.result.Available?)
  }

  lemma {:induction false} ApplyIsLegal(j: Journal, s: State, a: Action, now: Time, bytes: nat)
    requires Apply(j, s, a, now, bytes).Committed?
    ensures var r := Apply(j, s, a, now, bytes);
            && j.Valid() && ValidTime(now)
            && r.journal.Valid() && ValidTransition(s, r.state) && r.journal.version == j.version + 1
            && Step(j, s, a, now).Committed?
            && r.state == Step(j, s, a, now).state
            && r.journal == Annotate(Step(j, s, a, now).journal).(version := j.version + 1)
  {
  }

  /** Annotation only fills in details no guard reads. */
  lemma {:induction false} AnnotationIsInert(j: Journal, version: nat)
    ensures var r := Annotate(j).(version := version);
            && r == j.(version := version, problem := r.problem)
            && r.RemoteAbsence() == j.RemoteAbsence()
  {
  }

  /** What a committed step owes the journal and state it started from. */
  predicate Keeps(j: Journal, r: Outcome) {
    r.Committed? ==> WriteOnce(j, r.journal) && Fit(r.journal, r.state) && !r.state.orchestration.Succeeded?
  }

  /** Only the two begin actions turn an intent durable. */
  predicate SameIntents(j: Journal, r: Outcome) {
    r.Committed? ==> r.journal.plan == j.plan && r.journal.submitStarted == j.submitStarted
  }

  predicate SameEvidence(j: Journal, r: Outcome) {
    r.Committed? ==>
      && r.journal.absenceObserved == j.absenceObserved
      && r.journal.ownerPresent == j.ownerPresent
      && r.journal.observation == j.observation
  }

  /** Where absence times, owner claims and observations come from, and what resolves an absence. */
  predicate Sourced(j: Journal, a: Action, now: Time, j': Journal) {
    && (j'.absenceObserved.Some? ==>
          j'.absenceObserved == j.absenceObserved || (a.SubmissionAbsenceSeen? && j'.absenceObserved == Some(now)))
    && (j'.ownerPresent <==> j.ownerPresent || (a.RequestReconciliation? && a.ownerClaimsPresent))
    && (j'.observation == j.observation || a == ObservationSeen(j'.observation))
    && (a.SubmissionAbsenceSeen? && j'.phase.Rejected? ==>
          && !j.ownerPresent
          && j.absenceObserved.Some?
          && now >= j.absenceObserved.value + SUBMISSION_ABSENCE_GRACE)
  }

  lemma {:induction false} RefusalKeeps(j: Journal, s: State, refusal: string, cause: string)
    requires Joint(j, s)
    ensures Keeps(j, StepRefuseNewWork(j, s, refusal, cause))
    ensures SameIntents(j, StepRefuseNewWork(j, s, refusal, cause)) && SameEvidence(j, StepRefuseNewWork(j, s, refusal, cause))
  {
  }

  lemma {:induction false} EndingKeeps(j: Journal, s: State, expired: bool, cause: string, r: Outcome)
    requires Joint(j, s)
    requires r == StepPrevent(j, s) || r == StepExpire(j, s, expired) || r == StepEndUnconfirmed(j, s, cause)
    ensures Keeps(j, r) && SameIntents(j, r) && SameEvidence(j, r)
  {
  }

  lemma {:induction false} ReconciliationKeeps(j: Journal, s: State, claim: bool, name: string)
    requires Joint(j, s)
    ensures Keeps(j, StepRequestReconciliation(j, s, claim, name)) && SameIntents(j, StepRequestReconciliation(j, s, claim, name))
    ensures var r := StepRequestReconciliation(j, s, claim, name);
            r.Committed? ==> Sourced(j, RequestReconciliation(claim, name), 0, r.journal)
  {
  }

  lemma {:induction false} PreparationKeeps(j: Journal, s: State, plan: Option<Plan>, id: Id)
    requires Joint(j, s)
    ensures Keeps(j, StepBeginPreparation(j, s, plan, id))
    ensures SameEvidence(j, StepBeginPreparation(j, s, plan, id))
  {
  }

  lemma {:induction false} PreparationSeenKeeps(j: Journal, s: State, prepared: Option<Prepared>)
    requires Joint(j, s)
    ensures Keeps(j, StepPreparationSeen(j, s, prepared))
    ensures SameIntents(j, StepPreparationSeen(j, s, prepared)) && SameEvidence(j, StepPreparationSeen(j, s, prepared))
  {
  }

  lemma {:induction false} SubmissionKeeps(j: Journal, s: State, auth: Option<StartAuthorization>)
    requires Joint(j, s)
    ensures Keeps(j, StepBeginSubmission(j, s, auth))
    ensures SameEvidence(j, StepBeginSubmission(j, s, auth))
  {
  }

  lemma {:induction false} AcceptanceKeeps(j: Journal, s: State, name: string, remote: Remote)
    requires Fit(j, s) && j.submitStarted && j.remote.None? && j.phase.Submitting?
    ensures Keeps(j, RecordAcceptance(j.(resourceName := name), s, remote))
    ensures SameIntents(j, RecordAcceptance(j.(resourceName := name), s, remote)) && SameEvidence(j, RecordAcceptance(j.(resourceName := name), s, remote))
  {
  }

  lemma {:induction false} RejectionKeeps(j: Journal, s: State, name: string, code: ErrorCode, details: Details)
    requires Fit(j, s) && j.submitStarted && (j.phase.Submitting? || j.phase.Attention?) && !code.UnregisteredCode?
    ensures Keeps(j, RecordRejection(j.(resourceName := name), s, code, details))
    ensures SameIntents(j, RecordRejection(j.(resourceName := name), s, code, details)) && SameEvidence(j, RecordRejection(j.(resourceName := name), s, code, details))
  {
  }

  lemma {:induction false} UnknownKeeps(j: Journal, s: State, name: string, details: Details)
    requires Fit(j, s) && j.submitStarted && j.phase.Submitting?
    ensures Keeps(j, RecordUnknown(j.(resourceName := name), s, details))
    ensures SameIntents(j, RecordUnknown(j.(resourceName := name), s, details)) && SameEvidence(j, RecordUnknown(j.(resourceName := name), s, details))
  {
  }

  lemma {:induction false} ResolveKeeps(j: Journal, name: string, s: State, owner: bool, submission: Option<Submission>)
    requires Joint(j, s) && (owner ==> j.phase.Submitting? || j.phase.Attention?)
    requires owner ==> submission.Some? && submission.value.status.SubmissionRejected?
    ensures Keeps(j, Resolve(j, j.(resourceName := name), s, owner, submission))
    ensures SameIntents(j, Resolve(j, j.(resourceName := name), s, owner, submission)) && SameEvidence(j, Resolve(j, j.(resourceName := name), s, owner, submission))
  {
    if Resolve(j, j.(resourceName := name), s, owner, submission).Committed? {
      match submission.value.status
      case SubmissionAccepted => AcceptanceKeeps(j, s, name, submission.value.remote.value);
      case SubmissionRejected =>
        var given := submission.value.problem.value;
        RejectionKeeps(j, s, name, RejectionCode(given.code), given.details.Public());
      case SubmissionUnknown => UnknownKeeps(j, s, name, submission.value.problem.value.details.Public());
    }
  }

  lemma {:induction false} AbsenceKeeps(j: Journal, s: State, owner: bool, name: string, now: Time)
    requires Joint(j, s)
    ensures Keeps(j, StepAbsence(j, s, owner, name, now)) && SameIntents(j, StepAbsence(j, s, owner, name, now))
    ensures var r := StepAbsence(j, s, owner, name, now);
            r.Committed? ==> Sourced(j, if owner then OwnerSubmissionAbsent(name) else SubmissionAbsenceSeen(name), now, r.journal)
  {
    if AbsenceFits(j, s, owner, name) && (owner || !AbsenceUnconfirmed(j, now)) {
      var reason := if owner then "submission_absent_owner_confirmed" else "submission_absent_owned_list";
      var p := PlainProblem(ProviderRejected, NO_DETAILS.(reason := reason, resourceName := name));
      ResolveKeeps(j, name, s, owner, Some(Submission(SubmissionRejected, None, Some(p))));
    }
  }

  lemma {:induction false} RemoteAbsenceKeeps(j: Journal, s: State, absence: Option<Absence>, now: Time)
    requires Fit(j, s) && (j.phase.Submitted? ==> j.submitStarted)
    ensures Keeps(j, StepRemoteAbsence(j, s, absence, now))
    ensures SameIntents(j, StepRemoteAbsence(j, s, absence, now)) && SameEvidence(j, StepRemoteAbsence(j, s, absence, now))
  {
  }

  lemma {:induction false} UncertaintyKeeps(j: Journal, s: State, obs: Observation, next: State)
    requires Fit(j, s) && j.submitStarted && j.phase.Submitted? && j.remote.Some?
    requires next.execution == s.execution && !next.orchestration.Terminal()
    requires j.observation.Some? ==> j.observation.value.observedAt < obs.observedAt
    ensures var r := RecordUncertainty(j, s, j.(observation := Some(obs), problem := None, failures := 0), next);
            Keeps(j, r) && SameIntents(j, r) && Sourced(j, ObservationSeen(Some(obs)), 0, r.journal)
  {
  }

  lemma {:induction false} ObservationKeeps(j: Journal, s: State, obs: Observation, next: State)
    requires Fit(j, s) && j.submitStarted && j.phase.Submitted? && j.remote.Some? && !obs.execution.NotSubmitted?
    requires next.execution == if obs.execution.ExecUnknown? then s.execution else obs.execution
    requires !next.orchestration.Terminal()
    requires j.observation.Some? ==> j.observation.value.observedAt < obs.observedAt
    ensures var r := RecordObservation(j, s, obs, next);
            Keeps(j, r) && SameIntents(j, r) && Sourced(j, ObservationSeen(Some(obs)), 0, r.journal)
  {
    if obs.execution.ExecUnknown? {
      UncertaintyKeeps(j, s, obs, next);
    }
  }

  lemma {:induction false} StepObservationKeeps(j: Journal, s: State, observation: Option<Observation>, now: Time)
    requires Joint(j, s)
    ensures Keeps(j, StepObservation(j, s, observation, now)) && SameIntents(j, StepObservation(j, s, observation, now))
    ensures var r := StepObservation(j, s, observation, now);
            r.Committed? ==> Sourced(j, ObservationSeen(observation), now, r.journal)
  {
    if StepObservation(j, s, observation, now).Committed? {
      ObservationKeeps(j, s, observation.value, Observed(s, observation.value));
    }
  }

  lemma {:induction false} LocalFaultKeeps(j: Journal, s: State, code: ErrorCode, p: Problem, named: string, now: Time)
    requires Fit(j, s) && j.phase.Local? && j.plan.None? && !j.submitStarted && j.remote.None?
    ensures Keeps(j, RecordFault(j, s, code, p, named, now))
  {
  }

  lemma {:induction false} PlannedFaultKeeps(j: Journal, s: State, code: ErrorCode, p: Problem, named: string, now: Time)
    requires Fit(j, s) && !Settled(j.phase) && j.plan.Some? && p.details.remoteAbsence.NoStamp?
    ensures Keeps(j, RecordFault(j, s, code, p, named, now))
  {
    PlannedFaultFits(j, Faulted(j, named, now), s, code, p);
    PlannedFaultWritesOnce(j, Faulted(j, named, now), s, code, p);
  }

  lemma {:induction false} PlannedFaultFits(prior: Journal, j: Journal, s: State, code: ErrorCode, p: Problem)
    requires Fit(prior, s) && !Settled(prior.phase) && p.details.remoteAbsence.NoStamp?
    requires j == prior.(preparationObserved := j.preparationObserved, failures := j.failures, resourceName := j.resourceName)
    ensures var r := RecordPlannedFault(prior, j, s, code, p);
            r.Committed? ==> Fit(r.journal, r.state) && !r.state.orchestration.Succeeded?
  {
  }

  lemma {:induction false} PlannedFaultWritesOnce(prior: Journal, j: Journal, s: State, code: ErrorCode, p: Problem)
    requires WriteOnce(prior, j)
    ensures var r := RecordPlannedFault(prior, j, s, code, p); r.Committed? ==> WriteOnce(prior, r.journal)
  {
  }

  lemma {:induction false} LocalFaultLeavesEvidence(prior: Journal, j: Journal, s: State, code: ErrorCode, p: Problem, now: Time)
    ensures var r := RecordLocalFault(prior, j, s, code, p, now); SameIntents(j, r) && SameEvidence(j, r)
  {
  }

  lemma {:induction false} PlannedFaultLeavesEvidence(prior: Journal, j: Journal, s: State, code: ErrorCode, p: Problem)
    ensures var r := RecordPlannedFault(prior, j, s, code, p); SameIntents(j, r) && SameEvidence(j, r)
  {
  }

  lemma {:induction false} FaultLeavesEvidence(j: Journal, s: State, code: ErrorCode, p: Problem, named: string, now: Time)
    ensures var r := RecordFault(j, s, code, p, named, now); SameIntents(j, r) && SameEvidence(j, r)
  {
    LocalFaultLeavesEvidence(j, Faulted(j, named, now), s, code, p, now);
    PlannedFaultLeavesEvidence(j, Faulted(j, named, now), s, code, p);
  }

  lemma {:induction false} RecordFaultKeeps(j: Journal, s: State, code: ErrorCode, p: Problem, named: string, now: Time)
    requires Fit(j, s) && !Settled(j.phase) && p.details.remoteAbsence.NoStamp?
    requires j.plan.None? ==> j.phase.Local? && !j.submitStarted && j.remote.None?
    ensures var r := RecordFault(j, s, code, p, named, now); Keeps(j, r) && SameIntents(j, r) && SameEvidence(j, r)
  {
    if j.plan.None? {
      LocalFaultKeeps(j, s, code, p, named, now);
    } else {
      PlannedFaultKeeps(j, s, code, p, named, now);
    }
    FaultLeavesEvidence(j, s, code, p, named, now);
  }

  lemma {:induction false} StepFaultKeeps(j: Journal, s: State, code: ErrorCode, problem: Option<Problem>, named: string, now: Time)
    requires Joint(j, s) && (problem.Some? ==> problem.value.details.remoteAbsence.NoStamp?)
    ensures var r := StepFault(j, s, code, problem, named, now); Keeps(j, r) && SameIntents(j, r) && SameEvidence(j, r)
  {
    if !Settled(j.phase) && problem.Some? {
      RecordFaultKeeps(j, s, code, problem.value, named, now);
    }
  }

  lemma {:induction false} FaultProblemIsPlain(j: Journal, code: ErrorCode, reason: string, cause: string, details: Option<Details>)
    ensures var p := FaultProblem(j, code, reason, cause, details); p.Some? ==> p.value.details.remoteAbsence.NoStamp?
  {
  }

  lemma {:induction false} StepKeeps(j: Journal, s: State, a: Action, now: Time)
    requires Joint(j, s)
    ensures Keeps(j, Step(j, s, a, now))
    ensures !a.BeginPreparation? && !a.BeginSubmission? ==> SameIntents(j, Step(j, s, a, now))
    ensures Step(j, s, a, now).Committed? ==> Sourced(j, a, now, Step(j, s, a, now).journal)
  {
    match a
    case RefuseNewWork(refusal, cause) => RefusalKeeps(j, s, refusal, cause);
    case PreventDispatch => EndingKeeps(j, s, false, "", StepPrevent(j, s));
    case ExpireDispatch(expired) => EndingKeeps(j, s, expired, "", StepExpire(j, s, expired));
    case RequestReconciliation(claim, name) => ReconciliationKeeps(j, s, claim, name);
    case BeginPreparation(plan, id) => PreparationKeeps(j, s, plan, id);
    case PreparationSeen(prepared) => PreparationSeenKeeps(j, s, prepared);
    case EndUnconfirmedPreparation(cause) => EndingKeeps(j, s, false, cause, StepEndUnconfirmed(j, s, cause));
    case BeginSubmission(auth) => SubmissionKeeps(j, s, auth);
    case SubmissionSeen(submission) => ResolveKeeps(j, j.resourceName, s, false, submission);
    case SubmissionAbsenceSeen(name) => AbsenceKeeps(j, s, false, name, now);
    case OwnerSubmissionAbsent(name) => AbsenceKeeps(j, s, true, name, now);
    case RemoteAbsenceSeen(absence) => RemoteAbsenceKeeps(j, s, absence, now);
    case ObservationSeen(observation) => StepObservationKeeps(j, s, observation, now);
    case Fault(code, reason, cause, details) =>
      FaultProblemIsPlain(j, code, reason, cause, details);
      StepFaultKeeps(j, s, code, FaultProblem(j, code, reason, cause, details), NamedResource(details), now);
    case UnknownKind =>
  }

  lemma {:induction false} WriteOnceTransitive(a: Journal, b: Journal, c: Journal)
    requires WriteOnce(a, b) && WriteOnce(b, c)
    ensures WriteOnce(a, c)
  {
  }

  /** The whole effect of one commit that later arguments rely on. */
  predicate Lawful(j: Journal, s: State, a: Action, now: Time, j': Journal, s': State) {
    && Sourced(j, a, now, j')
    && Joint(j', s')
    && ValidTransition(s, s')
    && WriteOnce(j, j')
    && j'.version == j.version + 1
    && (a.BeginPreparation? <==> j.plan.None? && j'.plan.Some?)
    && (a.BeginSubmission? <==> !j.submitStarted && j'.submitStarted)
    && !s'.orchestration.Succeeded?
  }

  /** Every committed action is a legal state movement that keeps the joint invariant, rewrites no
      recovery evidence, and makes an intent durable exactly when it is the begin of that intent. */
  lemma {:induction false} ApplyIsLawful(j: Journal, s: State, a: Action, now: Time, bytes: nat)
    requires Joint(j, s)
    requires Apply(j, s, a, now, bytes).Committed?
    ensures Lawful(j, s, a, now, Apply(j, s, a, now, bytes).journal, Apply(j, s, a, now, bytes).state)
  {
    var draft := Step(j, s, a, now);
    ApplyIsLegal(j, s, a, now, bytes);
    StepKeeps(j, s, a, now);
    BeginsOnce(j, s, a, now);
    AnnotatedKeeps(j, a, now, draft.journal, draft.state);
  }

  lemma {:induction false} AnnotatedKeeps(j: Journal, a: Action, now: Time, draft: Journal, s': State)
    requires WriteOnce(j, draft) && Fit(draft, s') && Sourced(j, a, now, draft)
    ensures var j' := Annotate(draft).(version := j.version + 1);
            && WriteOnce(j, j') && Fit(j', s') && Sourced(j, a, now, j')
            && j'.plan == draft.plan && j'.submitStarted == draft.submitStarted
  {
    AnnotationIsInert(draft, j.version + 1);
  }

  lemma {:induction false} BeginsOnce(j: Journal, s: State, a: Action, now: Time)
    requires Joint(j, s) && Step(j, s, a, now).Committed?
    ensures a.BeginPreparation? <==> j.plan.None? && Step(j, s, a, now).journal.plan.Some?
    ensures a.BeginSubmission? <==> !j.submitStarted && Step(j, s, a, now).journal.submitStarted
  {
    StepKeeps(j, s, a, now);
  }

  lemma {:induction false} ControlKeepsJoint(j: Journal, s: State, n: State)
    requires Joint(j, s) && Control(s, n)
    ensures Joint(j, n)
  {
  }

  lemma {:induction false} PublicationKeepsJoint(j: Journal, s: State, completed: bool)
    requires Joint(j, s) && FinalState(s, completed).Final?
    requires ValidTransition(s, FinalState(s, completed).state)
    ensures Joint(j, FinalState(s, completed).state)
  {
  }

  /** A journal no action can move: settled, or holding proof that its remote is gone. */
  predicate Frozen(j: Journal) {
    j.phase.Rejected? || j.phase.Failed? || j.phase.Prevented? || j.phase.Collectible? || j.RemoteAbsence().Some?
  }

  /** Under the joint invariant a frozen journal refuses all fourteen kinds of action. */
  lemma {:induction false} FrozenRefusesEveryAction(j: Journal, s: State, a: Action, now: Time, bytes: nat)
    requires Joint(j, s) && Frozen(j)
    ensures Apply(j, s, a, now, bytes).Refused?
  {
    FrozenRefusesStep(j, s, a, now);
  }

  lemma {:induction false} FrozenRefusesStep(j: Journal, s: State, a: Action, now: Time)
    requires Joint(j, s) && Frozen(j)
    ensures Step(j, s, a, now).Refused?
  {
    match a
    case RequestReconciliation(claim, name) => assert !ReconciliationOpen(j, s);
    case SubmissionAbsenceSeen(name) => assert !AbsenceFits(j, s, false, name);
    case OwnerSubmissionAbsent(name) => assert !AbsenceFits(j, s, true, name);
    case PreventDispatch => assert !MayPrevent(j, s);
    case ExpireDispatch(_) => assert !MayPrevent(j, s);
    case _ =>
  }

  /** How each action may move the journal's phase. */
  predicate PhaseEdge(a: Action, p: Phase, q: Phase) {
    match a
    case RefuseNewWork(_, _) => (p.Local? || p.Ready?) && q == p
    case PreventDispatch => (!Settled(p) || p.Attention?) && q.Prevented?
    case ExpireDispatch(_) => (!Settled(p) || p.Attention?) && q.Prevented?
    case RequestReconciliation(_, _) =>
      (p.Staging? || p.Ready? || p.Submitting? || p.Submitted? || p.Attention?) && (q.Staging? || q.Submitting? || q.Submitted?)
    case BeginPreparation(_, _) => p.Local? && q.Staging?
    case PreparationSeen(_) => p.Staging? && (q.Staging? || q.Ready? || q.Attention?)
    case EndUnconfirmedPreparation(_) => p.Staging? && q.Prevented?
    case BeginSubmission(_) => p.Ready? && q.Submitting?
    case SubmissionSeen(_) => p.Submitting? && (q.Submitting? || q.Submitted? || q.Rejected?)
    case SubmissionAbsenceSeen(_) => (p.Submitting? || p.Attention?) && (q.Submitting? || q.Rejected?)
    case OwnerSubmissionAbsent(_) => (p.Submitting? || p.Attention?) && q.Rejected?
    case RemoteAbsenceSeen(_) => p.Submitted? && q.Attention?
    case ObservationSeen(_) => p.Submitted? && (q.Submitted? || q.Collectible? || q.Attention?)
    case Fault(_, _, _, _) => !Settled(p) && (q == p || q.Attention? || q.Failed?)
    case UnknownKind => false
  }

  predicate BeforeSubmission(a: Action) {
    a.RefuseNewWork? || a.PreventDispatch? || a.ExpireDispatch? || a.BeginPreparation? || a.PreparationSeen? ||
    a.EndUnconfirmedPreparation? || a.BeginSubmission?
  }

  lemma {:induction false} EarlyStepFollowsPhases(j: Journal, s: State, a: Action, now: Time)
    requires Joint(j, s) && Step(j, s, a, now).Committed? && BeforeSubmission(a)
    ensures PhaseEdge(a, j.phase, Step(j, s, a, now).journal.phase)
  {
  }

  lemma {:induction false} ResolveFollowsPhases(j: Journal, name: string, s: State, owner: bool, submission: Option<Submission>)
    requires j.Valid() && Resolve(j, j.(resourceName := name), s, owner, submission).Committed?
    ensures var q := Resolve(j, j.(resourceName := name), s, owner, submission).journal.phase;
            && (q.Submitted? || q.Rejected? || q == j.phase)
            && (!owner ==> j.phase.Submitting?)
  {
  }

  lemma {:induction false} SubmissionFollowsPhases(j: Journal, s: State, a: Action, now: Time)
    requires Joint(j, s) && Step(j, s, a, now).Committed?
    requires a.SubmissionSeen? || a.SubmissionAbsenceSeen? || a.OwnerSubmissionAbsent?
    ensures PhaseEdge(a, j.phase, Step(j, s, a, now).journal.phase)
  {
    if a.SubmissionSeen? {
      ResolveFollowsPhases(j, j.resourceName, s, false, a.submission);
    }
  }

  lemma {:induction false} ObservationFollowsPhases(j: Journal, s: State, a: Action, now: Time)
    requires Joint(j, s) && Step(j, s, a, now).Committed?
    requires a.RequestReconciliation? || a.RemoteAbsenceSeen? || a.ObservationSeen?
    ensures PhaseEdge(a, j.phase, Step(j, s, a, now).journal.phase)
  {
  }

  lemma {:induction false} FaultFollowsPhases(j: Journal, s: State, code: ErrorCode, problem: Option<Problem>, named: string, now: Time)
    requires StepFault(j, s, code, problem, named, now).Committed?
    ensures var q := StepFault(j, s, code, problem, named, now).journal.phase;
            !Settled(j.phase) && (q == j.phase || q.Attention? || q.Failed?)
  {
  }

  lemma {:induction false} StepFollowsPhases(j: Journal, s: State, a: Action, now: Time)
    requires Joint(j, s) && Step(j, s, a, now).Committed?
    ensures PhaseEdge(a, j.phase, Step(j, s, a, now).journal.phase)
  {
    if BeforeSubmission(a) {
      EarlyStepFollowsPhases(j, s, a, now);
    } else if a.SubmissionSeen? || a.SubmissionAbsenceSeen? || a.OwnerSubmissionAbsent? {
      SubmissionFollowsPhases(j, s, a, now);
    } else if a.Fault? {
      FaultFollowsPhases(j, s, a.code, FaultProblem(j, a.code, a.reason, a.faultCause, a.details), NamedResource(a.details), now);
    } else {
      ObservationFollowsPhases(j, s, a, now);
    }
  }

  /** Every committed action moves the phase along the graph above. */
  lemma {:induction false} ApplyFollowsPhases(j: Journal, s: State, a: Action, now: Time, bytes: nat)
    requires Joint(j, s) && Apply(j, s, a, now, bytes).Committed?
    ensures PhaseEdge(a, j.phase, Apply(j, s, a, now, bytes).journal.phase)
  {
    ApplyIsLegal(j, s, a, now, bytes);
    StepFollowsPhases(j, s, a, now);
    AnnotationIsInert(Step(j, s, a, now).journal, j.version + 1);
  }

  lemma {:induction false} RejectedStateLegal(s: State, code: ErrorCode)
    requires s.Valid() && s.execution.ExecUnknown? && s.release.ReleaseUnknown? && !s.orchestration.Terminal()
    ensures ValidTransition(s, RejectedState(s, code)) <==> s.cancellation.NotRequested? || s.cancellation.Requested?
  {
  }

  lemma {:induction false} RejectedJournalValid(j: Journal, s: State, name: string, code: ErrorCode, details: Details)
    requires j.Valid() && j.submitStarted && j.remote.None? && j.observation.None? && !code.UnregisteredCode?
    requires name == j.resourceName || ValidResourceName(name)
    requires details.localFailure.NoStamp? && details.remoteAbsence.NoStamp?
    ensures Annotate(RecordRejection(j.(resourceName := name), s, code, details).journal).(version := j.version + 1).Valid()
  {
  }

  lemma {:induction false} ResolvedRejection(j: Journal, name: string, s: State, owner: bool, submission: Option<Submission>)
    requires Joint(j, s) && (name == j.resourceName || ValidResourceName(name))
    requires Resolve(j, j.(resourceName := name), s, owner, submission).Committed?
    requires submission.value.status.SubmissionRejected? && (j.phase.Submitting? || j.phase.Attention?)
    ensures var r := Resolve(j, j.(resourceName := name), s, owner, submission);
            && Annotate(r.journal).(version := j.version + 1).Valid()
            && (ValidTransition(s, r.state) <==> s.cancellation.NotRequested? || s.cancellation.Requested?)
  {
    var given := submission.value.problem.value;
    RejectedStateLegal(s, RejectionCode(given.code));
    RejectedJournalValid(j, s, name, RejectionCode(given.code), given.details.Public());
  }

  /** A definite "this was never submitted", from the provider, the inventory or the owner, is
      recorded exactly when no stop was invoked or left to the operator: the cancellation graph
      has no edge from those to a prevented stop, and the resolution is then refused. */
  lemma {:induction false} RejectionRecordedExactlyWhen(j: Journal, s: State, a: Action, now: Time, bytes: nat)
    requires Joint(j, s) && ValidTime(now) && j.version < MAX_VERSION && bytes <= MAX_JOURNAL_BYTES
    requires a.SubmissionSeen? || a.SubmissionAbsenceSeen? || a.OwnerSubmissionAbsent?
    requires Step(j, s, a, now).Committed? && Step(j, s, a, now).journal.phase.Rejected?
    ensures Apply(j, s, a, now, bytes).Committed? <==> s.cancellation.NotRequested? || s.cancellation.Requested?
  {
    ApplyExactly(j, s, a, now, bytes);
    RejectionDraft(j, s, a, now);
  }

  lemma {:induction false} ApplyExactly(j: Journal, s: State, a: Action, now: Time, bytes: nat)
    requires Joint(j, s) && ValidTime(now) && j.version < MAX_VERSION && bytes <= MAX_JOURNAL_BYTES
    requires Step(j, s, a, now).Committed?
    ensures Apply(j, s, a, now, bytes).Committed? <==>
            && Annotate(Step(j, s, a, now).journal).(version := j.version + 1).Valid()
            && ValidTransition(s, Step(j, s, a, now).state)
  {
  }

  lemma {:induction false} RejectionDraft(j: Journal, s: State, a: Action, now: Time)
    requires Joint(j, s) && (a.SubmissionSeen? || a.SubmissionAbsenceSeen? || a.OwnerSubmissionAbsent?)
    requires Step(j, s, a, now).Committed? && Step(j, s, a, now).journal.phase.Rejected?
    ensures var r := Step(j, s, a, now);
            && Annotate(r.journal).(version := j.version + 1).Valid()
            && (ValidTransition(s, r.state) <==> s.cancellation.NotRequested? || s.cancellation.Requested?)
  {
    match a
    case SubmissionSeen(submission) => ResolvedRejection(j, j.resourceName, s, false, submission);
    case SubmissionAbsenceSeen(name) => ResolvedAbsence(j, s, false, name, now);
    case OwnerSubmissionAbsent(name) => ResolvedAbsence(j, s, true, name, now);
  }

  lemma {:induction false} ResolvedAbsence(j: Journal, s: State, owner: bool, name: string, now: Time)
    requires Joint(j, s) && StepAbsence(j, s, owner, name, now).Committed?
    requires StepAbsence(j, s, owner, name, now).journal.phase.Rejected?
    ensures var r := StepAbsence(j, s, owner, name, now);
            && Annotate(r.journal).(version := j.version + 1).Valid()
            && (ValidTransition(s, r.state) <==> s.cancellation.NotRequested? || s.cancellation.Requested?)
  {
    var reason := if owner then "submission_absent_owner_confirmed" else "submission_absent_owned_list";
    var p := PlainProblem(ProviderRejected, NO_DETAILS.(reason := reason, resourceName := name));
    ResolvedRejection(j, name, s, owner, Some(Submission(SubmissionRejected, None, Some(p))));
  }
}
