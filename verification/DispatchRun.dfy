/** Runs of one attempt: any number of workers that commit, call, crash or lose an
    acknowledgement, the operator's controls, cancellation, and publication of results.
    A run is an arbitrary list of events; an event that is not enabled changes nothing. */
module DispatchRun {
  import opened AttemptState
  import opened Journal
  import opened Optional
  import opened Dispatch
  import opened DispatchSafety
  import opened Engine

  /** One accepted commit: what was asked, when, and the journal it left. */
  datatype Entry = Entry(action: Action, now: Time, journal: Journal)

  /** The cancellation operations of the attempt: is one open, did it or any other reach the
      provider gate. */
  datatype StopGate = StopGate(open: bool, started: bool, everStarted: bool)

  datatype World = World(
    journal: Journal,
    state: State,
    stop: StopGate,
    history: seq<Entry>,
    published: Option<bool>,
    permits: map<nat, Permit>,
    prepares: nat,
    starts: nat,
    cancels: nat)

  const ADMITTED := World(NO_JOURNAL, INITIAL, StopGate(false, false, false), [], None, map[], 0, 0, 0)

  datatype Occurrence =
    | WorkerCommit(worker: nat, action: Action, now: Time, bytes: nat, acked: bool)
    | WorkerStop(worker: nat, acked: bool)
    | WorkerCall(worker: nat, call: Deed)
    | WorkerGone(worker: nat)
    | OperatorCommit(action: Action, now: Time, bytes: nat)
    | AdmitStop
    | CloseStop
    | ControlTo(next: State)
    | Publish(completed: bool)

  /** Controls travel in their own operation transaction, never through a worker. */
  predicate ForWorkers(a: Action) {
    !a.PreventDispatch? && !a.RequestReconciliation? && !a.OwnerSubmissionAbsent?
  }

  function Record(w: World, a: Action, now: Time, r: Outcome): World
    requires r.Committed?
  {
    w.(journal := r.journal, state := r.state, history := w.history + [Entry(a, now, r.journal)])
  }

  function DoWorkerCommit(w: World, worker: nat, a: Action, now: Time, bytes: nat, acked: bool): World {
    var r := Apply(w.journal, w.state, a, now, bytes);
    if ForWorkers(a) && r.Committed?
    then Record(w, a, now, r).(permits := w.permits[worker := Earned(Commit(a, acked))])
    else w.(permits := w.permits[worker := NoPermit])
  }

  /** Begin actions belong to workers alone. */
  function DoOperatorCommit(w: World, a: Action, now: Time, bytes: nat): World {
    var r := Apply(w.journal, w.state, a, now, bytes);
    if r.Committed? && !a.BeginPreparation? && !a.BeginSubmission? then Record(w, a, now, r) else w
  }

  predicate StopEnabled(w: World) {
    && w.stop.open && !w.stop.started
    && w.journal.phase.Submitted? && w.journal.remote.Some?
    && w.state.cancellation.Requested?
    && Control(w.state, w.state.(cancellation := Requesting))
  }

  function DoWorkerStop(w: World, worker: nat, acked: bool): World {
    if !StopEnabled(w) then w.(permits := w.permits[worker := NoPermit])
    else w.(state := w.state.(cancellation := Requesting),
            stop := w.stop.(started := true, everStarted := true),
            permits := w.permits[worker := Earned(StopIntent(acked))])
  }

  function DoCall(w: World, worker: nat, call: Deed): World {
    if worker !in w.permits || Needed(call) == NoPermit || w.permits[worker] != Needed(call) then w
    else w.(permits := w.permits[worker := NoPermit],
            prepares := w.prepares + if call.Prepare? then 1 else 0,
            starts := w.starts + if call.Start? then 1 else 0,
            cancels := w.cancels + if call.Cancel? then 1 else 0)
  }

  /** A further stop request is admitted only while no earlier one reached the provider gate. */
  predicate StopAdmissible(w: World) {
    && !w.stop.open && w.journal.submitStarted
    && (w.state.cancellation.NotRequested? || (w.state.cancellation.Manual? && !w.stop.everStarted))
    && Control(w.state, w.state.(cancellation := Requested, orchestration := Cancelling))
  }

  function Do(w: World, e: Occurrence): World {
    match e
    case WorkerCommit(worker, a, now, bytes, acked) => DoWorkerCommit(w, worker, a, now, bytes, acked)
    case WorkerStop(worker, acked) => DoWorkerStop(w, worker, acked)
    case WorkerCall(worker, call) => DoCall(w, worker, call)
    case WorkerGone(worker) => w.(permits := w.permits[worker := NoPermit])
    case OperatorCommit(a, now, bytes) => DoOperatorCommit(w, a, now, bytes)
    case AdmitStop =>
      if StopAdmissible(w)
      then w.(state := w.state.(cancellation := Requested, orchestration := Cancelling),
              stop := StopGate(true, false, w.stop.everStarted))
      else w
    case CloseStop => w.(stop := w.stop.(open := false))
    case ControlTo(next) => if Control(w.state, next) then w.(state := next) else w
    case Publish(completed) =>
      var r := FinalState(w.state, completed);
      if r.Final? && w.published.None? && w.state.orchestration.Collecting?
      then w.(state := r.state, published := Some(completed)) else w
  }

  function Run(es: seq<Occurrence>): World {
    if es == [] then ADMITTED else Do(Run(es[..|es| - 1]), es[|es| - 1])
  }

  // ---------------------------------------------------------------- one call per intent

  /** A permit for `p` is held by one worker at most, only before the call, only once durable. */
  predicate OneShot(permits: map<nat, Permit>, p: Permit, calls: nat, durable: bool) {
    && calls <= 1
    && (calls == 1 ==> durable)
    && (forall k :: k in permits && permits[k] == p ==> durable && calls == 0)
    && (forall k, m :: k in permits && m in permits && permits[k] == p && permits[m] == p ==> k == m)
  }

  predicate CallsSafe(w: World) {
    && OneShot(w.permits, MayPrepare, w.prepares, w.journal.plan.Some?)
    && OneShot(w.permits, MayStart, w.starts, w.journal.submitStarted)
    && OneShot(w.permits, MayCancel, w.cancels, w.stop.everStarted)
    && (w.stop.everStarted ==> !w.state.cancellation.NotRequested?)
    && (w.stop.open && !w.stop.started ==> !w.stop.everStarted)
  }

  predicate WorldInv(w: World) { Joint(w.journal, w.state) && CallsSafe(w) }

  lemma {:induction false} CommitKeeps(w: World, a: Action, now: Time, r: Outcome)
    requires WorldInv(w) && r.Committed? && Lawful(w.journal, w.state, a, now, r.journal, r.state)
    requires !a.BeginPreparation? && !a.BeginSubmission?
    ensures WorldInv(Record(w, a, now, r))
  {
  }

  /** A permit may be given while the intent turns durable, and at no other time. */
  lemma {:induction false} Grant(permits: map<nat, Permit>, p: Permit, calls: nat, durable: bool, durable': bool, worker: nat, q: Permit)
    requires OneShot(permits, p, calls, durable) && (durable ==> durable')
    requires q == p ==> !durable && durable'
    ensures OneShot(permits[worker := q], p, calls, durable')
  {
  }

  /** An intent turns durable once, so the one acknowledgement of it is the only permit. */
  lemma {:induction false} WorkerCommitKeeps(w: World, worker: nat, a: Action, now: Time, acked: bool, r: Outcome)
    requires WorldInv(w) && r.Committed? && Lawful(w.journal, w.state, a, now, r.journal, r.state)
    ensures WorldInv(Record(w, a, now, r).(permits := w.permits[worker := Earned(Commit(a, acked))]))
  {
    var q := Earned(Commit(a, acked));
    Grant(w.permits, MayPrepare, w.prepares, w.journal.plan.Some?, r.journal.plan.Some?, worker, q);
    Grant(w.permits, MayStart, w.starts, w.journal.submitStarted, r.journal.submitStarted, worker, q);
    Grant(w.permits, MayCancel, w.cancels, w.stop.everStarted, w.stop.everStarted, worker, q);
  }

  lemma {:induction false} DoOperatorCommitKeeps(w: World, a: Action, now: Time, bytes: nat)
    requires WorldInv(w)
    ensures WorldInv(DoOperatorCommit(w, a, now, bytes))
  {
    var r := Apply(w.journal, w.state, a, now, bytes);
    if r.Committed? && !a.BeginPreparation? && !a.BeginSubmission? {
      ApplyIsLawful(w.journal, w.state, a, now, bytes);
      CommitKeeps(w, a, now, r);
    }
  }

  lemma {:induction false} DoWorkerCommitKeeps(w: World, worker: nat, a: Action, now: Time, bytes: nat, acked: bool)
    requires WorldInv(w)
    ensures WorldInv(DoWorkerCommit(w, worker, a, now, bytes, acked))
  {
    var r := Apply(w.journal, w.state, a, now, bytes);
    if ForWorkers(a) && r.Committed? {
      ApplyIsLawful(w.journal, w.state, a, now, bytes);
      WorkerCommitKeeps(w, worker, a, now, acked, r);
    } else {
      PermitDropKeeps(w, worker);
    }
  }

  lemma {:induction false} PermitDropKeeps(w: World, worker: nat)
    requires WorldInv(w)
    ensures WorldInv(w.(permits := w.permits[worker := NoPermit]))
  {
  }

  lemma {:induction false} CallKeeps(w: World, worker: nat, call: Deed)
    requires WorldInv(w)
    ensures WorldInv(DoCall(w, worker, call))
  {
  }

  lemma {:induction false} StopKeeps(w: World, worker: nat, acked: bool)
    requires WorldInv(w)
    ensures WorldInv(DoWorkerStop(w, worker, acked))
  {
    if StopEnabled(w) {
      ControlKeepsJoint(w.journal, w.state, w.state.(cancellation := Requesting));
    }
  }

  lemma {:induction false} StateOnlyKeeps(w: World, next: State)
    requires WorldInv(w) && Joint(w.journal, next) && ValidTransition(w.state, next)
    ensures WorldInv(w.(state := next))
  {
  }

  lemma {:induction false} DoKeeps(w: World, e: Occurrence)
    requires WorldInv(w)
    ensures WorldInv(Do(w, e))
  {
    match e
    case WorkerCommit(worker, a, now, bytes, acked) => DoWorkerCommitKeeps(w, worker, a, now, bytes, acked);
    case OperatorCommit(a, now, bytes) => DoOperatorCommitKeeps(w, a, now, bytes);
    case WorkerStop(worker, acked) => StopKeeps(w, worker, acked);
    case WorkerCall(worker, call) => CallKeeps(w, worker, call);
    case WorkerGone(worker) => PermitDropKeeps(w, worker);
    case AdmitStop => AdmitStopKeeps(w);
    case CloseStop =>
    case ControlTo(next) => ControlKeeps(w, next);
    case Publish(completed) => PublicationKeeps(w, completed);
  }

  lemma {:induction false} AdmitStopKeeps(w: World)
    requires WorldInv(w)
    ensures WorldInv(Do(w, AdmitStop))
  {
    if StopAdmissible(w) {
      var next := w.state.(cancellation := Requested, orchestration := Cancelling);
      ControlKeepsJoint(w.journal, w.state, next);
      StateOnlyKeeps(w, next);
    }
  }

  lemma {:induction false} ControlKeeps(w: World, next: State)
    requires WorldInv(w)
    ensures WorldInv(Do(w, ControlTo(next)))
  {
    if Control(w.state, next) {
      ControlKeepsJoint(w.journal, w.state, next);
      StateOnlyKeeps(w, next);
    }
  }

  lemma {:induction false} PublicationKeeps(w: World, completed: bool)
    requires WorldInv(w)
    ensures WorldInv(Do(w, Publish(completed)))
  {
    var r := FinalState(w.state, completed);
    if r.Final? && w.published.None? && w.state.orchestration.Collecting? {
      PublicationIsLegal(w.state, completed);
      PublicationKeepsJoint(w.journal, w.state, completed);
      StateOnlyKeeps(w, r.state);
    }
  }

  lemma {:induction false} RunKeeps(es: seq<Occurrence>)
    ensures WorldInv(Run(es))
  {
    if es != [] {
      RunKeeps(es[..|es| - 1]);
      DoKeeps(Run(es[..|es| - 1]), es[|es| - 1]);
    }
  }

  /** Over every run each of Prepare, Start and Cancel is made under a permit at most once, and only
      once the journal already says so. */
  lemma {:induction false} AtMostOneCallEach(es: seq<Occurrence>)
    ensures var w := Run(es);
            && w.prepares <= 1 && w.starts <= 1 && w.cancels <= 1
            && (w.prepares == 1 ==> w.journal.plan.Some?)
            && (w.starts == 1 ==> w.journal.submitStarted)
            && (w.cancels == 1 ==> !w.state.cancellation.NotRequested?)
  {
    RunKeeps(es);
  }
}
