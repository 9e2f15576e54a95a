/** One pass of a dispatch worker over a claimed attempt. The repository and the provider are
    answers given in advance; what matters is the order in which the worker commits and calls. */
module Engine {
  import opened AttemptState
  import opened Journal
  import opened Optional
  import opened Dispatch

  /** Everything a worker does that another party can see. */
  datatype Deed =
    | Commit(action: Action, acked: bool)
    | StopIntent(acked: bool)
    | StopReport(news: StopNews)
    | Prepare
    | Start
    | Cancel

  /** How a stop is reported: the provider cannot, its answer was none, or what it answered. */
  datatype StopNews = StopUnsupported | StopUnresolved | StopAnswered

  datatype Permit = NoPermit | MayPrepare | MayStart | MayCancel

  /** The single call an acknowledged intent pays for. */
  function Earned(d: Deed): Permit {
    match d
    case Commit(a, acked) =>
      if acked && a.BeginPreparation? then MayPrepare
      else if acked && a.BeginSubmission? then MayStart
      else NoPermit
    case StopIntent(acked) => if acked then MayCancel else NoPermit
    case _ => NoPermit
  }

  function Needed(d: Deed): Permit {
    match d
    case Prepare => MayPrepare
    case Start => MayStart
    case Cancel => MayCancel
    case _ => NoPermit
  }

  function Held(log: seq<Deed>): Permit {
    if log == [] then NoPermit else Earned(log[|log| - 1])
  }

  /** Each provider mutation directly follows this worker's own acknowledged intent. */
  predicate Disciplined(log: seq<Deed>) {
    forall i :: 0 <= i < |log| ==> Needed(log[i]) == NoPermit || Needed(log[i]) == Held(log[..i])
  }

  lemma {:induction false} DisciplinedExtends(log: seq<Deed>, d: Deed)
    requires Disciplined(log)
    requires Needed(d) == NoPermit || Needed(d) == Held(log)
    ensures Disciplined(log + [d])
  {
    forall i | 0 <= i < |log + [d]|
      ensures Needed((log + [d])[i]) == NoPermit || Needed((log + [d])[i]) == Held((log + [d])[..i])
    {
      assert (log + [d])[..i] == log[..i];
      if i == |log| {
        assert log[..i] == log;
      }
    }
  }

  datatype Failure =
    | LocalState
    | PastDeadline
    | Refusal(refusal: string, refusalCause: string)
    | SecretsUnavailable
    | PolicyChanged
    | Stale
    | Fails(code: Option<ErrorCode>, why: string, details: Option<Details>, timedOut: bool)
    | AbsentRemote(absence: Absence)

  datatype Answer<+T> = Good(value: T) | Bad(failure: Failure)
  datatype Reply = Acked(journal: Journal) | Lost(failure: Failure)
  datatype StagingRead = Found(prepared: Prepared) | Missing(unknown: bool, cause: string) | Malformed
  datatype SubmissionRead = FoundRemote(remote: Remote) | Inventory(name: string) | NoAnswer | MalformedRead
  /** Secrets are looked for early, and claimed together with the start intent. */
  datatype Gate = Gate(started: bool, secrets: bool, secretsAvailable: bool, secretsClaimed: bool)

  /** What the rest of the system says to one pass; those answers that change with time are read
      once at most in a pass. */
  datatype Answers = Answers(
    now: Time,
    interrupted: bool,
    parentDone: bool,
    expired: bool,
    cancellationRequested: bool,
    gate: Option<Gate>,
    observationLimit: int,
    resolve: Answer<()>,
    verify: Answer<()>,
    instanceMatches: bool,
    stopPending: bool,
    stopSupported: bool,
    stopIntent: Answer<()>,
    stop: Answer<()>,
    guard: Answer<()>,
    freeze: Answer<()>,
    jobResolves: bool,
    plan: Answer<Plan>,
    planFits: bool,
    preparationId: Id,
    consume: Answer<()>,
    prepareReached: bool,
    prepare: Answer<Prepared>,
    staging: Answer<StagingRead>,
    revalidated: Answer<bool>,
    startReached: bool,
    start: Submission,
    reconcile: Answer<SubmissionRead>,
    observe: Answer<Observation>)

  function FailureCode(f: Failure, fallback: ErrorCode): (code: ErrorCode)
    ensures f.Fails? && f.code.Some? && f.code.value != UnregisteredCode ==> code == f.code.value
    ensures !f.Fails? || f.code.None? || f.code.value == UnregisteredCode ==> code == fallback
  {
    if f.Fails? && f.code.Some? && ProblemFor(f.code.value, false).Some? then f.code.value else fallback
  }

  function FailureReason(f: Failure): string { if f.Fails? then f.why else "" }

  /** The provider left this staging read unanswered: it ran out of time, or no refusal is known. */
  predicate Unanswered(f: Failure)
    ensures !Unanswered(f) <==>
              && f.Fails? && !f.timedOut && f.code.Some?
              && f.code.value !in {UnregisteredCode, ProviderStateUnknown, ProviderUnreachable, ProviderRateLimited}
  {
    (f.Fails? && f.timedOut) ||
    (var c := FailureCode(f, ProviderStateUnknown); c.ProviderStateUnknown? || c.ProviderUnreachable? || c.ProviderRateLimited?)
  }

  /** Nothing stands between a local attempt and its preparation intent. */
  predicate ClearedToPrepare(a: Answers) { ReadyToPrepare(a) && !a.parentDone }

  predicate ReadyToPrepare(a: Answers) {
    a.guard.Good? && a.freeze.Good? && a.jobResolves && a.plan.Good? && a.planFits && a.consume.Good?
  }

  /** Nothing stands between a ready attempt and its start intent; a gated attempt must have been
      released, hold its secrets, and still match what was staged. */
  predicate ClearedToStart(a: Answers) { ReadyToStart(a) && !a.parentDone }

  predicate ReadyToStart(a: Answers) {
    && (a.gate.Some? ==>
          && a.gate.value.started && a.revalidated == Good(true)
          && (a.gate.value.secrets ==> a.gate.value.secretsAvailable && a.gate.value.secretsClaimed))
    && a.guard.Good?
  }

  /** The journal already shows this refusal. */
  predicate Shows(j: Journal, f: Failure)
    requires f.Refusal?
  {
    var shown := if j.problem.Some? then j.problem.value.details else NO_DETAILS;
    shown.reason == f.refusal && shown.cause == f.refusalCause
  }

  /** A commit that failed for more than a policy changed meanwhile. */
  predicate Mattered(reply: Reply) { reply.Lost? && !reply.failure.PolicyChanged? }

  /** The deadline passed before the start intent, and nobody else is ending the attempt. A gated
      preparation that has shown nothing yet is still observed first. */
  predicate Overdue(a: Answers, j: Journal) {
    && !j.submitStarted && a.expired && !a.cancellationRequested
    && !(a.gate.Some? && j.phase.Staging? && j.prepared.None?)
  }

  /** The pass reaches the provider the attempt was frozen to. */
  predicate Bound(a: Answers, j: Journal) {
    !Overdue(a, j) && a.resolve.Good? && a.verify.Good? && a.instanceMatches
  }

  predicate StopDue(a: Answers, j: Journal) { a.stopPending && j.phase.Submitted? && j.remote.Some? }

  /** The one deed after `before` is a commit of this action. */
  predicate Reported(before: seq<Deed>, after: seq<Deed>, a: Action) {
    |after| == |before| + 1 && after[..|before|] == before && after[|before|].Commit? && after[|before|].action == a
  }

  /** A preparation nobody has seen may be given up: its grace is over, and when the provider gave no
      answer at all so is the longer limit. */
  predicate EndDue(a: Answers, j: Journal, unanswered: bool) {
    && j.preparationObserved.Some?
    && j.preparationObserved.value + PREPARATION_OBSERVATION_GRACE <= a.now
    && (unanswered ==> j.preparationObserved.value + a.observationLimit <= a.now)
  }

  predicate Fits(j: Journal, p: Prepared) { j.plan.Some? && p.Valid(j.plan.value, j.preparationId) }

  /** The log grows by the commit of this action, or not at all. */
  predicate Said(before: seq<Deed>, after: seq<Deed>, report: Option<Action>) {
    if report.None? then after == before else Reported(before, after, report.value)
  }

  /** A fault, unless the pass was interrupted. */
  function FaultReport(a: Answers, code: ErrorCode, reason: string): Option<Action> {
    if a.interrupted then None else Some(Fault(code, reason, "", None))
  }

  /** A failed call, under the code it carried or, carrying none, the given one; a failure of the local
      store is not reported at all. */
  function FailureReport(f: Failure, code: ErrorCode): Option<Action> {
    if f.LocalState? then None
    else
      var details := if f.Fails? && f.details.Some? then Some(f.details.value.Public()) else None;
      Some(Fault(FailureCode(f, code), FailureReason(f), "", details))
  }

  /** A preparation that nobody has seen: still waited for, or given up. */
  function WaitReport(a: Answers, j: Journal, unanswered: bool, cause: string): Option<Action> {
    if a.interrupted then None
    else if EndDue(a, j, unanswered) then Some(EndUnconfirmedPreparation(cause))
    else Some(Fault(StagingNotReady, "", cause, None))
  }

  function WaitOverReport(a: Answers, j: Journal, f: Failure, unanswered: bool): Option<Action> {
    if f.LocalState? then None else WaitReport(a, j, unanswered, FailureReason(f))
  }

  function PreparedReport(a: Answers, j: Journal, p: Prepared): Option<Action> {
    if Fits(j, p) then Some(PreparationSeen(Some(p))) else FaultReport(a, RemoteIdentityMismatch, "")
  }

  /** What is said about staging, answer by answer. */
  function StagingReport(a: Answers, j: Journal): Option<Action> {
    var unseen, late := j.UnconfirmedPreparation(), a.expired && a.gate.Some?;
    match a.staging
    case Good(Found(p)) => PreparedReport(a, j, p)
    case Good(Malformed) => if unseen then WaitReport(a, j, false, "") else FaultReport(a, RemoteIdentityMismatch, "")
    case Good(Missing(unknown, cause)) =>
      if unseen then WaitReport(a, j, unknown, cause)
      else if late then Some(ExpireDispatch(false)) else FaultReport(a, StagingNotReady, "")
    case Bad(f) =>
      if unseen then WaitOverReport(a, j, f, Unanswered(f))
      else if f.LocalState? then None
      else if late then Some(ExpireDispatch(false)) else FaultReport(a, StagingFailed, FailureReason(f))
  }

  /** What is said about an uncertain submission, answer by answer. */
  function SubmissionReport(a: Answers, j: Journal): Option<Action> {
    match a.reconcile
    case Good(FoundRemote(remote)) => Some(SubmissionSeen(Some(Submission(SubmissionAccepted, Some(remote), None))))
    case Good(Inventory(name)) =>
      if j.ownerPresent then FaultReport(a, ProviderSubmissionUnknown, "owner_present_lookup_unavailable")
      else Some(SubmissionAbsenceSeen(name))
    case Good(NoAnswer) => FaultReport(a, ProviderSubmissionUnknown, "")
    case Good(MalformedRead) => FaultReport(a, RemoteIdentityMismatch, "")
    case Bad(f) => FailureReport(f, ProviderSubmissionUnknown)
  }

  /** What is said about the recorded remote, answer by answer. */
  function RemoteReport(a: Answers, j: Journal): Option<Action>
    requires j.remote.Some?
  {
    match a.observe
    case Good(obs) =>
      if obs.Valid(j.remote.value) then Some(ObservationSeen(Some(obs))) else FaultReport(a, RemoteIdentityMismatch, "")
    case Bad(f) => if f.AbsentRemote? then Some(RemoteAbsenceSeen(Some(f.absence))) else FailureReport(f, ProviderUnreachable)
  }

  /** What is said where the provider the attempt was frozen to is not reached. */
  function UnboundReport(a: Answers, j: Journal): Option<Action> {
    var unseen := j.UnconfirmedPreparation();
    match (a.resolve, a.verify)
    case (Bad(f), _) => if unseen then WaitOverReport(a, j, f, false) else FailureReport(f, ConfigurationInvalid)
    case (_, Bad(f)) =>
      if unseen then WaitOverReport(a, j, f, Unanswered(f))
      else FailureReport(f, if f.Fails? && f.timedOut then ProviderUnreachable else ProviderStateUnknown)
    case _ => if unseen then WaitReport(a, j, false, "") else FaultReport(a, RemoteIdentityMismatch, "")
  }

  function RefusalReport(j: Journal, f: Failure): Option<Action>
    requires f.Refusal?
  {
    if Shows(j, f) then None else Some(RefuseNewWork(f.refusal, f.refusalCause))
  }

  /** What is said where new work may not begin. */
  function BarredReport(j: Journal, f: Failure): Option<Action> {
    if f.Refusal? then RefusalReport(j, f) else None
  }

  /** What is said where an intent was not acknowledged. */
  function BeginReport(j: Journal, f: Failure): Option<Action> {
    if f.PastDeadline? then Some(ExpireDispatch(false)) else BarredReport(j, f)
  }

  /** The first check of a local attempt that fails is the one reported. */
  function UnreadyReport(a: Answers, j: Journal): Option<Action> {
    if a.guard.Bad? then BarredReport(j, a.guard.failure)
    else if a.freeze.Bad? then FaultReport(a, FailureCode(a.freeze.failure, InputFetchFailed), "")
    else if !a.jobResolves then FaultReport(a, ResourceRequirementUnsatisfied, "")
    else if a.plan.Bad? then FailureReport(a.plan.failure, UnsupportedCapability)
    else if !a.planFits then FaultReport(a, UnsupportedCapability, "")
    else if a.consume.Bad? then BeginReport(j, a.consume.failure)
    else None
  }

  /** The same of a ready one. */
  function UnstartedReport(a: Answers, j: Journal): Option<Action> {
    if a.gate.Some? && (!a.gate.value.started || (a.gate.value.secrets && !a.gate.value.secretsAvailable)) then None
    else if a.gate.Some? && a.revalidated.Bad? then FailureReport(a.revalidated.failure, StagingNotReady)
    else if a.gate.Some? && !a.revalidated.value then FaultReport(a, RemoteIdentityMismatch, "")
    else if a.guard.Bad? then BarredReport(j, a.guard.failure)
    else None
  }

  /** What came of the preparation call. */
  function PreparationReport(a: Answers, j: Journal): Option<Action> {
    match a.prepare
    case Good(p) => PreparedReport(a, j, p)
    case Bad(f) =>
      if f.LocalState? then None
      else if f.PastDeadline? then Some(ExpireDispatch(false))
      else FaultReport(a, StagingFailed, FailureReason(f))
  }

  // ---------------------------------------------------------------- whole passes

  /** An intent of this worker, what the store replied, and the call and report that follow. */
  predicate Begun(a: Answers, j: Journal, reply: Reply, log: seq<Deed>, begin: Action, called: seq<Deed>, report: Journal -> Option<Action>) {
    if a.parentDone then log == []
    else if reply.Lost? then Said([Commit(begin, false)], log, if begin.BeginSubmission? && reply.failure.SecretsUnavailable? then None else BeginReport(j, reply.failure))
    else Said([Commit(begin, true)] + called, log, report(reply.journal))
  }

  /** A pass over a local attempt. */
  predicate LocalPass(a: Answers, j: Journal, reply: Reply, log: seq<Deed>) {
    if !ReadyToPrepare(a) then Said([], log, UnreadyReport(a, j))
    else Begun(a, j, reply, log, BeginPreparation(Some(a.plan.value), a.preparationId),
               if a.prepareReached then [Prepare] else [], (k: Journal) => PreparationReport(a, k))
  }

  /** A pass over a ready one. */
  predicate ReadyPass(a: Answers, j: Journal, reply: Reply, log: seq<Deed>) {
    if !ReadyToStart(a) then Said([], log, UnstartedReport(a, j))
    else Begun(a, j, reply, log, BeginSubmission(None),
               if a.startReached then [Start] else [], (k: Journal) => Some(SubmissionSeen(Some(OutcomeOf(a, k)))))
  }

  /** A pass that stops the remote, once. */
  predicate StopPass(a: Answers, log: seq<Deed>) {
    log ==
      if !a.stopSupported then [StopReport(StopUnsupported)]
      else if a.stopIntent.Bad? then [StopIntent(false)]
      else [StopIntent(true), Cancel] +
           match a.stop
           case Good(_) => [StopReport(StopAnswered)]
           case Bad(f) => if f.LocalState? then [] else [StopReport(StopUnresolved)]
  }

  /** All that one pass does, by what it found and what it was told. */
  predicate Passed(a: Answers, j: Journal, reply: Reply, log: seq<Deed>)
    requires j.Valid()
  {
    if Overdue(a, j) then Said([], log, Some(ExpireDispatch(false)))
    else if !Bound(a, j) then Said([], log, UnboundReport(a, j))
    else if StopDue(a, j) then StopPass(a, log)
    else match j.phase
      case Local => LocalPass(a, j, reply, log)
      case Staging => Said([], log, StagingReport(a, j))
      case Ready => ReadyPass(a, j, reply, log)
      case Submitting => Said([], log, SubmissionReport(a, j))
      case Submitted => Said([], log, RemoteReport(a, j))
      case _ => log == []
  }

  /** What a started submission is recorded as: the provider's own outcome when it is about the staged
      identity, unknown otherwise; never silence. */
  function OutcomeOf(a: Answers, j: Journal): Submission {
    if a.startReached && j.prepared.Some? && a.start.Valid(j.prepared.value.identity) then a.start
    else Submission(SubmissionUnknown, None, ProblemFor(ProviderSubmissionUnknown, true))
  }

  /** The worker is being shut down. */
  const SHUTDOWN := Fails(None, "", None, false)

  /** A worker's hold on one claimed attempt. */
  class Session {
    const answers: Answers
    const replies: nat -> Reply
    var current: Journal
    var draining: bool
    var log: seq<Deed>

    constructor (loaded: Journal, answers: Answers, replies: nat -> Reply)
      ensures current == loaded && log == [] && !draining
      ensures this.answers == answers && this.replies == replies
    {
      this.answers, this.replies := answers, replies;
      current, draining, log := loaded, false, [];
    }

    /** A shutting-down worker may still save an outcome but never begins anything. */
    method CommitAction(a: Action) returns (failed: Option<Failure>)
      requires Disciplined(log)
      modifies this
      ensures Disciplined(log)
      ensures log == if (a.BeginPreparation? || a.BeginSubmission?) && answers.parentDone then old(log)
                     else old(log) + [Commit(a, failed.None?)]
      ensures failed.None? ==> replies(|old(log)|) == Acked(current)
      ensures failed.None? <==> replies(|old(log)|).Acked? && !((a.BeginPreparation? || a.BeginSubmission?) && answers.parentDone)
      ensures failed.Some? ==> current == old(current)
      ensures failed.Some? ==> if log == old(log) then failed.value == SHUTDOWN else replies(|old(log)|) == Lost(failed.value)
      ensures draining == (old(draining) || (failed.None? && a.BeginPreparation?))
    {
      if (a.BeginPreparation? || a.BeginSubmission?) && answers.parentDone {
        return Some(SHUTDOWN);
      }
      var reply := replies(|log|);
      DisciplinedExtends(log, Commit(a, reply.Acked?));
      log := log + [Commit(a, reply.Acked?)];
      match reply
      case Lost(f) => failed := Some(f);
      case Acked(j) =>
        current, failed := j, None;
        if a.BeginPreparation? { draining := true; }
    }

    method Report(a: Action) returns (failed: Option<Failure>)
      requires Disciplined(log) && !a.BeginPreparation? && !a.BeginSubmission?
      modifies this
      ensures Disciplined(log) && Extends(old(log), log)
      ensures Reported(old(log), log, a) && (failed.None? <==> replies(|old(log)|).Acked?)
      ensures failed.Some? ==> replies(|old(log)|) == Lost(failed.value)
    {
      failed := CommitAction(a);
    }

    method Fail(code: ErrorCode, reason: string) returns (failed: Option<Failure>)
      requires Disciplined(log)
      modifies this
      ensures Disciplined(log) && Extends(old(log), log)
      ensures Said(old(log), log, FaultReport(answers, code, reason))
    {
      if answers.interrupted { return Some(Fails(None, "", None, true)); }
      failed := Report(Fault(code, reason, "", None));
    }

    method ProviderFailure(f: Failure, code: ErrorCode) returns (failed: Option<Failure>)
      requires Disciplined(log)
      modifies this
      ensures Disciplined(log) && Extends(old(log), log)
      ensures Said(old(log), log, FailureReport(f, code))
    {
      if f.LocalState? { return Some(f); }
      var details := if f.Fails? && f.details.Some? then Some(f.details.value.Public()) else None;
      failed := Report(Fault(FailureCode(f, code), FailureReason(f), "", details));
    }

    method Refuse(f: Failure) returns (failed: Option<Failure>)
      requires Disciplined(log) && f.Refusal?
      modifies this
      ensures Disciplined(log) && Extends(old(log), log)
      ensures Said(old(log), log, RefusalReport(old(current), f))
      ensures failed == Some(if Shows(old(current), f) || !Mattered(replies(|old(log)|)) then f else replies(|old(log)|).failure)
    {
      var shown := if current.problem.Some? then current.problem.value.details else NO_DETAILS;
      if shown.reason != f.refusal || shown.cause != f.refusalCause {
        failed := Report(RefuseNewWork(f.refusal, f.refusalCause));
        if failed.Some? && !failed.value.PolicyChanged? { return; }
      }
      failed := Some(f);
    }

    /** An intent was not acknowledged: say why, and never call. */
    method BeginFailed(f: Failure) returns (failed: Option<Failure>)
      requires Disciplined(log)
      modifies this
      ensures Disciplined(log) && Extends(old(log), log) && Said(old(log), log, BeginReport(old(current), f))
    {
      match f
      case Refusal(_, _) => failed := Refuse(f);
      case PastDeadline => failed := Report(ExpireDispatch(false));
      case _ => failed := Some(f);
    }

    method EndUnconfirmed(f: Option<Failure>, unanswered: bool, cause: string) returns (failed: Option<Failure>)
      requires Disciplined(log)
      modifies this
      ensures Disciplined(log) && Extends(old(log), log)
      ensures Said(old(log), log,
                   if f.Some? && f.value.LocalState? then None
                   else WaitReport(answers, old(current), unanswered, if cause == "" && f.Some? then FailureReason(f.value) else cause))
    {
      if f.Some? && f.value.LocalState? { return f; }
      if answers.interrupted { return Some(Fails(None, "", None, true)); }
      var why := if cause == "" && f.Some? then FailureReason(f.value) else cause;
      var began := current.preparationObserved;
      if began.None? || answers.now < began.value + PREPARATION_OBSERVATION_GRACE
         || (unanswered && answers.now < began.value + answers.observationLimit) {
        failed := Report(Fault(StagingNotReady, "", why, None));
      } else {
        failed := Report(EndUnconfirmedPreparation(why));
      }
    }

    method SavePrepared(p: Prepared) returns (failed: Option<Failure>)
      requires Disciplined(log)
      modifies this
      ensures Disciplined(log) && Extends(old(log), log)
      ensures Said(old(log), log, PreparedReport(answers, old(current), p))
    {
      if current.plan.None? || !p.Valid(current.plan.value, current.preparationId) {
        failed := Fail(RemoteIdentityMismatch, "");
      } else {
        failed := Report(PreparationSeen(Some(p)));
      }
    }

    /** Stop at most once: the provider hears of it only after this worker's acknowledged intent. */
    method CancelOnce() returns (handled: bool)
      requires Disciplined(log) && log == []
      modifies this
      ensures Disciplined(log) && (handled <==> StopDue(answers, old(current)))
      ensures if handled then StopPass(answers, log) else log == []
      ensures Prepare !in log && Start !in log
      ensures Cancel in log <==>
                StopDue(answers, old(current)) && answers.stopSupported && answers.stopIntent.Good?
      ensures current == old(current)
    {
      if !answers.stopPending || !current.phase.Submitted? || current.remote.None? { return false; }
      if !answers.stopSupported {
        DisciplinedExtends(log, StopReport(StopUnsupported));
        log := log + [StopReport(StopUnsupported)];
        return true;
      }
      var acked := answers.stopIntent.Good?;
      DisciplinedExtends(log, StopIntent(acked));
      log := log + [StopIntent(acked)];
      if !acked { return true; }
      DisciplinedExtends(log, Cancel);
      log := log + [Cancel];
      if answers.stop.Bad? && answers.stop.failure.LocalState? { return true; }
      var news := StopReport(if answers.stop.Good? then StopAnswered else StopUnresolved);
      DisciplinedExtends(log, news);
      log := log + [news];
      return true;
    }

    /** The checks before a preparation intent. A failed one is reported; nothing is called. */
    method CheckLocal() returns (plan: Option<Plan>, failed: Option<Failure>)
      requires log == []
      modifies this
      ensures Disciplined(log) && Extends([], log)
      ensures plan.Some? <==> ReadyToPrepare(answers)
      ensures Said([], log, if plan.Some? then None else UnreadyReport(answers, old(current)))
      ensures plan.Some? ==> current == old(current) && answers.plan == Good(plan.value)
    {
      plan := None;
      match answers.guard {
        case Bad(f) => if f.Refusal? { failed := Refuse(f); } else { failed := Some(f); } return;
        case Good(_) =>
      }
      match answers.freeze {
        case Bad(f) => failed := Fail(FailureCode(f, InputFetchFailed), ""); return;
        case Good(_) =>
      }
      if !answers.jobResolves { failed := Fail(ResourceRequirementUnsatisfied, ""); return; }
      match answers.plan {
        case Bad(f) => failed := ProviderFailure(f, FailureCode(f, UnsupportedCapability)); return;
        case Good(_) =>
      }
      if !answers.planFits { failed := Fail(UnsupportedCapability, ""); return; }
      match answers.consume {
        case Bad(f) => failed := BeginFailed(f); return;
        case Good(_) =>
      }
      return Some(answers.plan.value), None;
    }

    method PrepareLocal() returns (failed: Option<Failure>)
      requires log == [] && current.phase.Local?
      modifies this
      ensures Disciplined(log) && Start !in log && Cancel !in log
      ensures Prepare in log <==> ClearedToPrepare(answers) && replies(0).Acked? && answers.prepareReached
      ensures LocalPass(answers, old(current), replies(0), log)
    {
      var plan;
      plan, failed := CheckLocal();
      if plan.Some? {
        failed := CommitAction(BeginPreparation(plan, answers.preparationId));
        if failed.Some? {
          failed := BeginFailed(failed.value);
        } else {
          // Only the pass that was told of its intent comes this far.
          if answers.prepareReached { CallOnce(Prepare); }
          failed := ReportPreparation();
        }
      }
      LocalPassCalls(answers, old(current), replies(0), log);
    }

    /** The call an acknowledged intent pays for. */
    method CallOnce(call: Deed)
      requires Disciplined(log) && Needed(call) != NoPermit && Needed(call) == Held(log)
      modifies this`log
      ensures Disciplined(log) && log == old(log) + [call]
    {
      DisciplinedExtends(log, call);
      log := log + [call];
    }

    method ReportPreparation() returns (failed: Option<Failure>)
      requires Disciplined(log)
      modifies this
      ensures Disciplined(log) && Extends(old(log), log)
      ensures Said(old(log), log, PreparationReport(answers, old(current)))
    {
      match answers.prepare {
        case Good(p) => failed := SavePrepared(p);
        case Bad(f) =>
          if f.LocalState? { failed := Some(f); }
          else if f.PastDeadline? { failed := Report(ExpireDispatch(false)); }
          else { failed := Fail(StagingFailed, FailureReason(f)); }
      }
    }

    method ObserveStaging() returns (failed: Option<Failure>)
      requires log == []
      modifies this
      ensures Disciplined(log) && Extends([], log) && Said([], log, StagingReport(answers, old(current)))
    {
      var unconfirmed := current.UnconfirmedPreparation();
      match answers.staging
      case Bad(f) =>
        if unconfirmed { failed := EndUnconfirmed(Some(f), Unanswered(f), ""); }
        else if f.LocalState? { failed := Some(f); }
        else if answers.expired && answers.gate.Some? { failed := Report(ExpireDispatch(false)); }
        else { failed := Fail(StagingFailed, FailureReason(f)); }
      case Good(Malformed) =>
        if unconfirmed { failed := EndUnconfirmed(None, false, ""); } else { failed := Fail(RemoteIdentityMismatch, ""); }
      case Good(Missing(unknown, cause)) =>
        if unconfirmed { failed := EndUnconfirmed(None, unknown, cause); }
        else if answers.expired && answers.gate.Some? { failed := Report(ExpireDispatch(false)); }
        else { failed := Fail(StagingNotReady, ""); }
      case Good(Found(p)) => failed := SavePrepared(p);
    }

    /** The checks before a start intent. */
    method CheckReady() returns (ready: bool, failed: Option<Failure>)
      requires log == []
      modifies this
      ensures Disciplined(log) && Extends([], log)
      ensures ready <==> ReadyToStart(answers)
      ensures Said([], log, if ready then None else UnstartedReport(answers, old(current))) && (ready ==> current == old(current))
    {
      ready, failed := false, None;
      if answers.gate.Some? {
        if !answers.gate.value.started { return; }
        if answers.gate.value.secrets && !answers.gate.value.secretsAvailable { return; }
        match answers.revalidated {
          case Bad(f) => failed := ProviderFailure(f, FailureCode(f, StagingNotReady)); return;
          case Good(same) => if !same { failed := Fail(RemoteIdentityMismatch, ""); return; }
        }
      }
      match answers.guard {
        case Bad(f) => if f.Refusal? { failed := Refuse(f); } else { failed := Some(f); } return;
        case Good(_) =>
      }
      ready := !(answers.gate.Some? && answers.gate.value.secrets && !answers.gate.value.secretsClaimed);
    }

    method Submit() returns (failed: Option<Failure>)
      requires log == [] && current.phase.Ready?
      modifies this
      ensures Disciplined(log) && Prepare !in log && Cancel !in log
      ensures Start in log <==> ClearedToStart(answers) && replies(0).Acked? && answers.startReached
      ensures ReadyPass(answers, old(current), replies(0), log)
    {
      var ready;
      ready, failed := CheckReady();
      if ready {
        failed := CommitAction(BeginSubmission(None));
        if failed.Some? {
          if failed.value.SecretsUnavailable? { failed := None; } else { failed := BeginFailed(failed.value); }
        } else {
          if answers.startReached { CallOnce(Start); }
          failed := ReportStart();
        }
      }
      ReadyPassCalls(answers, old(current), replies(0), log);
    }

    method ReportStart() returns (failed: Option<Failure>)
      requires Disciplined(log)
      modifies this
      ensures Disciplined(log) && Extends(old(log), log)
      ensures Reported(old(log), log, SubmissionSeen(Some(OutcomeOf(answers, old(current)))))
    {
      var outcome := answers.start;
      if !answers.startReached || current.prepared.None? || !outcome.Valid(current.prepared.value.identity) {
        outcome := Submission(SubmissionUnknown, None, ProblemFor(ProviderSubmissionUnknown, true));
      }
      failed := Report(SubmissionSeen(Some(outcome)));
    }

    method ReconcileSubmission() returns (failed: Option<Failure>)
      requires log == []
      modifies this
      ensures Disciplined(log) && Extends([], log) && Said([], log, SubmissionReport(answers, old(current)))
    {
      match answers.reconcile
      case Bad(f) => failed := ProviderFailure(f, ProviderSubmissionUnknown);
      case Good(MalformedRead) => failed := Fail(RemoteIdentityMismatch, "");
      case Good(NoAnswer) => failed := Fail(ProviderSubmissionUnknown, "");
      case Good(Inventory(name)) =>
        if current.ownerPresent { failed := Fail(ProviderSubmissionUnknown, "owner_present_lookup_unavailable"); }
        else { failed := Report(SubmissionAbsenceSeen(name)); }
      case Good(FoundRemote(remote)) =>
        failed := Report(SubmissionSeen(Some(Submission(SubmissionAccepted, Some(remote), None))));
    }

    method ObserveRemote() returns (failed: Option<Failure>)
      requires log == [] && current.remote.Some?
      modifies this
      ensures Disciplined(log) && Extends([], log) && Said([], log, RemoteReport(answers, old(current)))
    {
      match answers.observe
      case Bad(AbsentRemote(absence)) => failed := Report(RemoteAbsenceSeen(Some(absence)));
      case Bad(f) => failed := ProviderFailure(f, FailureCode(f, ProviderUnreachable));
      case Good(obs) =>
        if !obs.Valid(current.remote.value) { failed := Fail(RemoteIdentityMismatch, ""); }
        else {
          failed := Report(ObservationSeen(Some(obs)));
          if failed.Some? && failed.value.Stale? { failed := None; }
        }
    }

    /** Is the provider the one the attempt was frozen to? */
    method CheckBinding() returns (bound: bool, failed: Option<Failure>)
      requires log == []
      modifies this
      ensures Disciplined(log) && Extends([], log) && (bound ==> current == old(current))
      ensures bound <==> answers.resolve.Good? && answers.verify.Good? && answers.instanceMatches
      ensures Said([], log, if bound then None else UnboundReport(answers, old(current)))
    {
      bound := false;
      var unconfirmed := current.UnconfirmedPreparation();
      if answers.resolve.Bad? {
        if unconfirmed { failed := EndUnconfirmed(Some(answers.resolve.failure), false, ""); }
        else { failed := ProviderFailure(answers.resolve.failure, ConfigurationInvalid); }
        return;
      }
      if answers.verify.Bad? {
        var f := answers.verify.failure;
        if unconfirmed { failed := EndUnconfirmed(Some(f), Unanswered(f), ""); }
        else {
          var code := if f.Fails? && f.timedOut then ProviderUnreachable else FailureCode(f, ProviderStateUnknown);
          failed := ProviderFailure(f, code);
        }
        return;
      }
      if !answers.instanceMatches {
        if unconfirmed { failed := EndUnconfirmed(None, false, ""); } else { failed := Fail(RemoteIdentityMismatch, ""); }
        return;
      }
      return true, None;
    }

    /** Before the phase is looked at: expiry, the frozen binding, and a pending stop. */
    method Admit() returns (done: bool, failed: Option<Failure>)
      requires log == []
      modifies this
      ensures Disciplined(log) && (!done ==> log == [] && current == old(current))
      ensures !done <==> Bound(answers, old(current)) && !StopDue(answers, old(current))
      ensures if Overdue(answers, old(current)) then Said([], log, Some(ExpireDispatch(false)))
              else if !Bound(answers, old(current)) then Said([], log, UnboundReport(answers, old(current)))
              else if done then StopPass(answers, log) else log == []
      ensures Prepare !in log && Start !in log
      ensures Cancel in log <==>
                && Bound(answers, old(current)) && StopDue(answers, old(current))
                && answers.stopSupported && answers.stopIntent.Good?
    {
      done := true;
      if !current.submitStarted && answers.expired && !answers.cancellationRequested
         && !(answers.gate.Some? && current.phase.Staging? && current.prepared.None?) {
        failed := Report(ExpireDispatch(false));
        return;
      }
      var bound;
      bound, failed := CheckBinding();
      if !bound { return; }
      done := CancelOnce();
      failed := None;
    }

    /** One pass. Restart paths find a phase past Local or Ready and can only observe. */
    method Process() returns (failed: Option<Failure>)
      requires log == [] && current.Valid()
      modifies this
      ensures Disciplined(log)
      ensures Prepare in log <==>
                && Bound(answers, old(current)) && old(current).phase.Local?
                && ClearedToPrepare(answers) && replies(0).Acked? && answers.prepareReached
      ensures Start in log <==>
                && Bound(answers, old(current)) && old(current).phase.Ready?
                && ClearedToStart(answers) && replies(0).Acked? && answers.startReached
      ensures Cancel in log <==>
                && Bound(answers, old(current)) && StopDue(answers, old(current))
                && answers.stopSupported && answers.stopIntent.Good?
      ensures Passed(answers, old(current), replies(0), log)
    {
      var done;
      done, failed := Admit();
      if done { return; }
      match current.phase
      case Local => failed := PrepareLocal();
      case Staging => failed := ObserveStaging();
      case Ready => failed := Submit();
      case Submitting => failed := ReconcileSubmission();
      case Submitted => failed := ObserveRemote();
      case _ => failed := Some(Fails(None, "", None, false));
    }
  }

  /** A report is never a call. */
  lemma {:induction false} SaidCallsNothing(before: seq<Deed>, after: seq<Deed>, report: Option<Action>)
    requires Said(before, after, report)
    ensures forall d :: Needed(d) != NoPermit ==> (d in after <==> d in before)
  {
    if report.Some? { assert after == before + [after[|before|]]; }
  }

  lemma {:induction false} BegunCalls(a: Answers, j: Journal, reply: Reply, log: seq<Deed>, begin: Action, called: seq<Deed>, report: Journal -> Option<Action>)
    requires Begun(a, j, reply, log, begin, called, report)
    ensures forall d :: Needed(d) != NoPermit ==> (d in log <==> !a.parentDone && reply.Acked? && d in called)
  {
    if !a.parentDone {
      if reply.Lost? {
        SaidCallsNothing([Commit(begin, false)], log,
                         if begin.BeginSubmission? && reply.failure.SecretsUnavailable? then None else BeginReport(j, reply.failure));
      } else {
        SaidCallsNothing([Commit(begin, true)] + called, log, report(reply.journal));
      }
    }
  }

  lemma {:induction false} LocalPassCalls(a: Answers, j: Journal, reply: Reply, log: seq<Deed>)
    requires LocalPass(a, j, reply, log)
    ensures Prepare in log <==> ClearedToPrepare(a) && reply.Acked? && a.prepareReached
    ensures Start !in log && Cancel !in log
  {
    if ReadyToPrepare(a) {
      BegunCalls(a, j, reply, log, BeginPreparation(Some(a.plan.value), a.preparationId),
                 if a.prepareReached then [Prepare] else [], (k: Journal) => PreparationReport(a, k));
    } else {
      SaidCallsNothing([], log, UnreadyReport(a, j));
    }
  }

  lemma {:induction false} ReadyPassCalls(a: Answers, j: Journal, reply: Reply, log: seq<Deed>)
    requires ReadyPass(a, j, reply, log)
    ensures Start in log <==> ClearedToStart(a) && reply.Acked? && a.startReached
    ensures Prepare !in log && Cancel !in log
  {
    if ReadyToStart(a) {
      BegunCalls(a, j, reply, log, BeginSubmission(None),
                 if a.startReached then [Start] else [], (k: Journal) => Some(SubmissionSeen(Some(OutcomeOf(a, k)))));
    } else {
      SaidCallsNothing([], log, UnstartedReport(a, j));
    }
  }

  // ---------------------------------------------------------------- what observation can do

  predicate Permanent(code: ErrorCode) { code in {RemoteIdentityMismatch, PrivateStagingUnavailable} }

  /** What the provider showed is not about this attempt. */
  predicate Misread(a: Answers, j: Journal) {
    match j.phase
    case Staging => a.staging == Good(Malformed) || (a.staging.Good? && a.staging.value.Found? && !Fits(j, a.staging.value.prepared))
    case Submitting => a.reconcile == Good(MalformedRead)
    case Submitted => a.observe.Good? && j.remote.Some? && !a.observe.value.Valid(j.remote.value)
    case _ => false
  }

  /** A failed observation that itself carried a permanent code. */
  predicate Condemned(a: Answers, j: Journal) {
    var f := match j.phase
      case Submitting => if a.reconcile.Bad? then Some(a.reconcile.failure) else None
      case Submitted => if a.observe.Bad? then Some(a.observe.failure) else None
      case _ => None;
    f.Some? && f.value.Fails? && f.value.code.Some? && Permanent(f.value.code.value)
  }

  /** A pass that only observes commits a permanent fault only where the provider showed something
      foreign, or said so itself: silence, lateness and an empty lookup never condemn an attempt. */
  lemma {:induction false} PermanentFaultsAreEarned(a: Answers, j: Journal, reply: Reply, log: seq<Deed>, i: nat)
    requires j.Valid() && Bound(a, j) && !StopDue(a, j) && (j.phase.Staging? || j.phase.Submitting? || j.phase.Submitted?)
    requires Passed(a, j, reply, log) && i < |log| && log[i].Commit? && log[i].action.Fault? && Permanent(log[i].action.code)
    ensures Misread(a, j) || Condemned(a, j)
  {
  }

  /** At most one more deed, and not a provider mutation. */
  predicate Extends(before: seq<Deed>, after: seq<Deed>) {
    after == before
    || (&& |after| == |before| + 1
        && after[..|before|] == before
        && Needed(after[|before|]) == NoPermit)
  }
}
