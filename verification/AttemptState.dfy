/** The six independent dimensions of an attempt's state, the relation between one
    state and the next, and the two gates other packages put on a state.
    A Go string type with a closed set of constants becomes an enumeration, so the
    `Valid` test of each dimension has no counterpart here. */
module AttemptState {

  datatype Orchestration =
    | Queued | Preparing | Dispatching | Submitted | Running | Collecting | Blocked
    | Reconciling | Cancelling | NeedsAttention | Succeeded | Failed | Cancelled | TimedOut
  {
    predicate Terminal() { Succeeded? || Failed? || Cancelled? || TimedOut? }

    predicate Edge(next: Orchestration) {
      match this
      case Queued =>
        next.Preparing? || next.Blocked? || next.Cancelled? || next.Failed? || next.TimedOut?
      case Preparing =>
        next.Queued? || next.Dispatching? || next.Blocked? || next.Reconciling? || next.Cancelling? ||
        next.NeedsAttention? || next.Failed? || next.Cancelled? || next.TimedOut?
      case Dispatching =>
        next.Submitted? || next.Running? || next.Collecting? || next.Reconciling? || next.Cancelling? ||
        next.NeedsAttention? || next.Failed? || next.Cancelled? || next.TimedOut?
      case Submitted =>
        next.Running? || next.Collecting? || next.Reconciling? || next.Cancelling? ||
        next.NeedsAttention? || next.Failed? || next.Cancelled? || next.TimedOut?
      case Running =>
        next.Collecting? || next.Reconciling? || next.Cancelling? ||
        next.NeedsAttention? || next.Failed? || next.Cancelled? || next.TimedOut?
      case Collecting =>
        next.Succeeded? || next.Failed? || next.Cancelled? || next.TimedOut? || next.Blocked? ||
        next.Reconciling? || next.NeedsAttention?
      case Blocked =>
        next.Queued? || next.Preparing? || next.Dispatching? || next.Reconciling? || next.Cancelling? ||
        next.NeedsAttention? || next.Failed? || next.Cancelled? || next.TimedOut?
      case Reconciling =>
        next.Preparing? || next.Dispatching? || next.Submitted? || next.Running? || next.Collecting? ||
        next.Blocked? || next.Cancelling? || next.NeedsAttention? || next.Failed? || next.Cancelled? || next.TimedOut?
      case Cancelling =>
        next.Collecting? || next.Reconciling? || next.NeedsAttention? || next.Succeeded? ||
        next.Failed? || next.Cancelled? || next.TimedOut?
      case NeedsAttention =>
        next.Submitted? || next.Running? || next.Collecting? || next.Reconciling? || next.Cancelling? ||
        next.Succeeded? || next.Failed? || next.Cancelled? || next.TimedOut?
      case Succeeded => false
      case Failed => false
      case Cancelled => false
      case TimedOut => false
    }
  }

  datatype Execution =
    | NotSubmitted | ExecUnknown | ExecQueued | ExecStarting | ExecRunning
    | ExecSucceeded | ExecFailed | ExecCancelled | ExecTimedOut
  {
    predicate Terminal() { ExecSucceeded? || ExecFailed? || ExecCancelled? || ExecTimedOut? }

    predicate InProgress() { ExecQueued? || ExecStarting? || ExecRunning? }

    predicate Edge(next: Execution) {
      match this
      case NotSubmitted => !next.NotSubmitted?
      case ExecUnknown => !next.ExecUnknown?
      case ExecQueued => next.ExecStarting? || next.ExecRunning? || next.Terminal()
      case ExecStarting => next.ExecRunning? || next.Terminal()
      case ExecRunning => next.Terminal()
      case ExecSucceeded => false
      case ExecFailed => false
      case ExecCancelled => false
      case ExecTimedOut => false
    }
  }

  datatype ResultState = NotAvailable | ResultCollecting | Available | Incomplete | ResultInvalid | Expired
  {
    predicate Edge(next: ResultState) {
      match this
      case NotAvailable => next.ResultCollecting? || next.Expired?
      case ResultCollecting => next.Available? || next.Incomplete? || next.ResultInvalid? || next.Expired?
      case Available => next.Expired?
      case Incomplete => next.ResultCollecting? || next.Expired?
      case ResultInvalid => next.ResultCollecting? || next.Expired?
      case Expired => false
    }
  }

  datatype Cancellation =
    | NotRequested | Requested | Requesting | Accepted | Prevented | Confirmed | TooLate | Manual
  {
    predicate Pending() { Requested? || Requesting? || Accepted? }

    predicate Edge(next: Cancellation) {
      match this
      case NotRequested => next.Requested? || next.Prevented?
      case Requested =>
        next.Requesting? || next.Accepted? || next.Prevented? || next.Confirmed? || next.TooLate? || next.Manual?
      case Requesting => next.Accepted? || next.Confirmed? || next.TooLate? || next.Manual?
      case Accepted => next.Confirmed? || next.TooLate? || next.Manual?
      case Prevented => false
      case Confirmed => false
      case TooLate => false
      case Manual => next.Requested? || next.Confirmed? || next.TooLate?
    }
  }

  datatype Activity = NotStarted | ActivityUnknown | Possible | Active | Inactive
  {
    /** Remote compute that has not been shown to have stopped. */
    predicate Unresolved() { ActivityUnknown? || Possible? || Active? }

    predicate Edge(next: Activity) {
      match this
      case NotStarted => !next.NotStarted?
      case ActivityUnknown => next.Possible? || next.Active? || next.Inactive?
      case Possible => next.Active? || next.Inactive?
      case Active => next.Inactive?
      case Inactive => false
    }
  }

  datatype Release = ReleaseUnknown | NotApplicable | NotObservable | ProviderReported | ReleaseConfirmed
  {
    predicate Edge(next: Release) {
      match this
      case ReleaseUnknown => !next.ReleaseUnknown?
      case NotApplicable => false
      case NotObservable => next.ProviderReported? || next.ReleaseConfirmed?
      case ProviderReported => next.ReleaseConfirmed?
      case ReleaseConfirmed => false
    }
  }

  datatype State = State(
    orchestration: Orchestration,
    execution: Execution,
    result: ResultState,
    cancellation: Cancellation,
    activity: Activity,
    release: Release,
    deadlineExceeded: bool)
  {
    /** The contradictions an attempt state may never hold. */
    predicate Valid() {
      && (execution.Terminal() ==> activity.Inactive?)
      && (execution.InProgress() ==> !activity.NotStarted? && !activity.Inactive?)
      && (execution.NotSubmitted? ==> !activity.Possible? && !activity.Active?)
      && (!result.NotAvailable? ==> execution.Terminal())
      && (result.ResultCollecting? ==> orchestration.Collecting? || orchestration.Reconciling? || orchestration.NeedsAttention?)
      && (result.Incomplete? || result.ResultInvalid? ==>
            orchestration.Collecting? || orchestration.Reconciling? || orchestration.NeedsAttention? || orchestration.Failed?)
      && (cancellation.Prevented? ==> execution.NotSubmitted? && (activity.NotStarted? || activity.Inactive?))
      && (cancellation.Confirmed? ==> execution.ExecCancelled? && activity.Inactive?)
      && (cancellation.TooLate? ==> execution.Terminal())
      && (release.NotApplicable? ==> execution.NotSubmitted? && orchestration.Terminal())
      && (release.ProviderReported? || release.ReleaseConfirmed? ==> activity.Inactive?)
      && ValidOrchestration()
      && (orchestration.Terminal() ==> activity.Inactive? || activity.NotStarted?)
    }

    predicate ValidOrchestration() {
      match orchestration
      case Submitted => !execution.NotSubmitted? && !activity.NotStarted? && !activity.Inactive?
      case Running => execution.ExecStarting? || execution.ExecRunning?
      case Collecting => execution.Terminal()
      case Succeeded =>
        && execution.ExecSucceeded?
        && (result.Available? || result.Expired?)
        && (cancellation.NotRequested? || cancellation.TooLate?)
      case Failed =>
        && (execution.NotSubmitted? || execution.ExecSucceeded? || execution.ExecFailed?)
        && (cancellation.NotRequested? || cancellation.TooLate?)
      case Cancelled =>
        && (cancellation.Prevented? || cancellation.Confirmed?)
        && (execution.NotSubmitted? || execution.ExecCancelled?)
      case TimedOut =>
        && (cancellation.NotRequested? || cancellation.TooLate?)
        && deadlineExceeded
        && (execution.NotSubmitted? || execution.ExecTimedOut?)
      case _ => true
    }
  }

  const INITIAL := State(Queued, NotSubmitted, NotAvailable, NotRequested, NotStarted, ReleaseUnknown, false)

  /** The one execution movement outside the graph: proof that the exact resource is gone. */
  predicate AbsenceException(current: State, next: State) {
    && current.execution.InProgress()
    && next.execution.ExecUnknown?
    && next.orchestration.NeedsAttention?
    && next.activity.Inactive?
    && next.release.ProviderReported?
  }

  predicate ValidTransition(current: State, next: State) {
    && current.Valid()
    && next.Valid()
    && (current.orchestration == next.orchestration || current.orchestration.Edge(next.orchestration))
    && (current.execution == next.execution || current.execution.Edge(next.execution) || AbsenceException(current, next))
    && (current.result == next.result || current.result.Edge(next.result))
    && (current.cancellation == next.cancellation || current.cancellation.Edge(next.cancellation))
    && (current.activity == next.activity || current.activity.Edge(next.activity))
    && (current.release == next.release || current.release.Edge(next.release))
    && (current.deadlineExceeded ==> next.deadlineExceeded)
  }

  /** No remote side effect has been intended and nothing was asked of the attempt. */
  predicate LocalOnly(s: State) {
    && s.Valid()
    && !s.deadlineExceeded
    && s.cancellation.NotRequested?
    && s.execution.NotSubmitted?
    && s.activity.NotStarted?
    && s.result.NotAvailable?
    && (s.orchestration.Queued? || s.orchestration.Preparing? || s.orchestration.Blocked?)
  }

  datatype RetryVerdict = RetryOk | WrongState | Unresolved | CollectInstead

  function RetryAllowed(s: State): (verdict: RetryVerdict)
  {
    if !s.Valid() then WrongState
    else if !s.activity.NotStarted? && !s.activity.Inactive? then Unresolved
    else if s.execution.ExecSucceeded? then CollectInstead
    else if !s.orchestration.Terminal() then Unresolved
    else if !s.execution.NotSubmitted? && !s.execution.Terminal() then Unresolved
    else RetryOk
  }

  datatype FinalOutcome = FinalRefused | FinalInconsistent | Final(state: State)

  /** What verified results make of a terminal execution. */
  function FinalState(s: State, completed: bool): (outcome: FinalOutcome)
  {
    if !s.execution.Terminal() || s.orchestration.Terminal() || !s.result.ResultCollecting? then FinalRefused
    else
      var ordinary := s.cancellation.NotRequested? || s.cancellation.TooLate?;
      var held := s.(result := Available, orchestration := NeedsAttention);
      var final :=
        match s.execution
        case ExecSucceeded => if !ordinary then held else held.(orchestration := if completed then Succeeded else Failed)
        case ExecFailed => if !ordinary then held else held.(orchestration := Failed)
        case ExecTimedOut => if !ordinary then held else held.(orchestration := TimedOut, deadlineExceeded := true)
        case ExecCancelled => if s.cancellation.Confirmed? then held.(orchestration := Cancelled) else held
        case _ => held;
      if final.Valid() then Final(final) else FinalInconsistent
  }

  /** A finished attempt stays finished: terminal orchestration is a sink, and a terminal
      execution never changes again. */
  lemma {:induction false} TerminalIsFinal(current: State, next: State)
    requires ValidTransition(current, next)
    ensures current.orchestration.Terminal() ==> next.orchestration == current.orchestration
    ensures current.execution.Terminal() ==> next.execution == current.execution && next.activity.Inactive?
    ensures next.orchestration.Terminal() ==> !next.activity.Unresolved()
  {
  }

  /** Publication never fails its own consistency test, never touches what the provider
      established, and succeeds exactly for a completed runner whose execution succeeded
      without an effective cancellation. */
  lemma {:induction false} FinalStateMeaning(s: State, completed: bool)
    requires s.Valid() && s.execution.Terminal() && !s.orchestration.Terminal() && s.result.ResultCollecting?
    ensures FinalState(s, completed).Final?
    ensures var n := FinalState(s, completed).state;
            && n.execution == s.execution && n.cancellation == s.cancellation
            && n.activity == s.activity && n.release == s.release && n.result.Available?
            && (n.orchestration.Succeeded? <==> Undisturbed(s) && s.execution.ExecSucceeded? && completed)
            && (n.orchestration.Failed? <==>
                  Undisturbed(s) && (s.execution.ExecFailed? || (s.execution.ExecSucceeded? && !completed)))
            && (n.orchestration.TimedOut? <==> Undisturbed(s) && s.execution.ExecTimedOut?)
            && (n.orchestration.Cancelled? <==> s.execution.ExecCancelled? && s.cancellation.Confirmed?)
            && (!n.orchestration.Terminal() ==> n.orchestration.NeedsAttention?)
            && (n.deadlineExceeded <==> s.deadlineExceeded || n.orchestration.TimedOut?)
  {
  }

  /** Nobody asked for a stop, or the request came too late to matter. */
  predicate Undisturbed(s: State) { s.cancellation.NotRequested? || s.cancellation.TooLate? }

  /** Results are published of a finished execution whose results are being collected, and of nothing else. */
  lemma {:induction false} PublishedExactly(s: State, completed: bool)
    requires s.Valid()
    ensures FinalState(s, completed).Final? <==>
              s.execution.Terminal() && !s.orchestration.Terminal() && s.result.ResultCollecting?
  {
    if s.execution.Terminal() && !s.orchestration.Terminal() && s.result.ResultCollecting? { FinalStateMeaning(s, completed); }
  }

  /** Publication is a legal movement exactly when it does not ask a reconciling attempt to
      become succeeded, the one edge the orchestration graph does not have. */
  lemma {:induction false} FinalStateLegality(s: State, completed: bool)
    requires s.Valid() && FinalState(s, completed).Final?
    ensures ValidTransition(s, FinalState(s, completed).state) <==>
            !(s.orchestration.Reconciling? && s.execution.ExecSucceeded? && completed && Undisturbed(s))
  {
  }

  /** Results claimed by an attempt that is collecting, or was put aside for attention, can always
      be published. */
  lemma {:induction false} PublicationIsLegal(s: State, completed: bool)
    requires s.Valid() && s.result.ResultCollecting? && (s.orchestration.Collecting? || s.orchestration.NeedsAttention?)
    ensures FinalState(s, completed).Final? && ValidTransition(s, FinalState(s, completed).state)
  {
    FinalStateMeaning(s, completed);
    FinalStateLegality(s, completed);
  }
}
