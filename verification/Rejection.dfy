/** One feasible run to a definite "this was never submitted" that the journal refuses. */
module Rejection {
  import opened AttemptState
  import opened Journal
  import opened Optional
  import opened Dispatch
  import opened DispatchSafety
  import opened DispatchRun
  import opened Engine
  import opened Fleet

  const IDENTITY := Identity(1, true)
  const PLAN := Plan(IDENTITY, 7, true, true, true)
  const STAGED := Prepared(IDENTITY, Id(2, true), 7, "staging", true, true, true, 3)

  function Says(now: Time, a: Action): Turn { Did(0, Commit(a, true), now, 0, true) }
  function Calls(now: Time, call: Deed): Turn { Did(0, call, now, 0, true) }

  const BEGIN := BeginPreparation(Some(PLAN), Id(2, true))
  const SEEN := PreparationSeen(Some(STAGED))
  const START := BeginSubmission(None)
  const LOST := ProblemFor(ProviderSubmissionUnknown, true).value.(details := NO_DETAILS.(resourceName := "run"))
  const TOLD := SubmissionSeen(Some(Submission(SubmissionUnknown, None, Some(LOST))))
  const MISMATCH := Fault(RemoteIdentityMismatch, "", "", None)
  const NEVER_SUBMITTED := OwnerSubmissionAbsent("run")

  /** One pass prepares. The next starts, and is told only the name its work would have. A stop is
      asked for, and the lookup of a third pass finds an identity that is not the attempt's. */
  function Prepares(now: Time, steps: seq<Turn>): seq<Turn> { steps + [Says(now, BEGIN)] + [Calls(now, Prepare)] + [Says(now, SEEN)] + [Restarted(0)] }
  function Starts(now: Time, steps: seq<Turn>): seq<Turn> { steps + [Says(now, START)] + [Calls(now, Start)] + [Says(now, TOLD)] + [Restarted(0)] }
  function Stops(now: Time, steps: seq<Turn>): seq<Turn> { steps + [Elsewhere(AdmitStop)] + [Says(now, MISMATCH)] }

  const STAGING := NO_JOURNAL.(version := 1, phase := Staging, plan := Some(PLAN), preparationId := Id(2, true))
  const READY := STAGING.(version := 2, phase := Ready, prepared := Some(STAGED))
  const STARTED := READY.(version := 3, phase := Submitting, submitStarted := true)
  const UNCERTAIN := STARTED.(version := 4, problem := Some(LOST), submissionProblem := Some(LOST), resourceName := "run")
  const STRANGE := ProblemFor(RemoteIdentityMismatch, true).value
  const ASIDE := UNCERTAIN.(version := 5, phase := Attention, failures := 1, problem := Some(STRANGE.(details := LOST.details)))

  const PREPARING := INITIAL.(orchestration := Preparing)
  const DISPATCHED := INITIAL.(orchestration := Dispatching, execution := ExecUnknown, activity := Possible)
  const RECONCILING := DISPATCHED.(orchestration := Reconciling)
  const STOPPING := DISPATCHED.(orchestration := Cancelling, cancellation := Requested)
  const MANUAL := STOPPING.(orchestration := NeedsAttention, cancellation := Manual)

  const UNASKED := StopGate(false, false, false)

  /** Where the attempt is, as far as the next step can tell. */
  predicate Stands(steps: seq<Turn>, j: Journal, s: State, stop: StopGate, log: seq<Deed>) {
    && Feasible(steps)
    && After(steps).world.journal == j && After(steps).world.state == s && After(steps).world.stop == stop
    && After(steps).LogOf(0) == log
  }

  lemma {:induction false} BeginCommits(now: Time)
    requires ValidTime(now)
    ensures Apply(NO_JOURNAL, INITIAL, BEGIN, now, 0) == Committed(STAGING, PREPARING, PreparationIntended)
  {
  }

  lemma {:induction false} SeenCommits(now: Time)
    requires ValidTime(now)
    ensures Apply(STAGING, PREPARING, SEEN, now, 0) == Committed(READY, PREPARING, ProviderStagingReady)
  {
  }

  lemma {:induction false} ReadyIsSound()
    ensures READY.Valid()
  {
  }

  lemma {:induction false} StartedIsSound()
    ensures Annotate(STARTED.(version := 2)).(version := 3).Valid() && ValidTransition(PREPARING, DISPATCHED)
  {
  }

  lemma {:induction false} StartIsDrafted(now: Time)
    requires READY.Valid()
    ensures Step(READY, PREPARING, START, now) == Committed(STARTED.(version := 2), DISPATCHED, SubmissionIntentRecorded)
  {
  }

  lemma {:induction false} StartCommits(now: Time)
    requires ValidTime(now)
    ensures Apply(READY, PREPARING, START, now, 0) == Committed(STARTED, DISPATCHED, SubmissionIntentRecorded)
  {
    ReadyIsSound();
    StartedIsSound();
    StartIsDrafted(now);
    Drafted(READY, PREPARING, START, now, STARTED.(version := 2), DISPATCHED, SubmissionIntentRecorded);
  }

  lemma {:induction false} ToldIsDrafted(now: Time)
    requires STARTED.Valid()
    ensures Step(STARTED, DISPATCHED, TOLD, now) == Committed(UNCERTAIN.(version := 3), RECONCILING, SubmissionUnknownEvent)
  {
    assert LOST.details.Public() == LOST.details;
  }

  lemma {:induction false} UncertainIsSound()
    ensures UNCERTAIN.Valid() && Annotate(UNCERTAIN.(version := 3)).(version := 4) == UNCERTAIN
  {
    assert LOST.details.Public() == LOST.details;
  }

  lemma {:induction false} ToldCommits(now: Time)
    requires ValidTime(now)
    ensures Apply(STARTED, DISPATCHED, TOLD, now, 0) == Committed(UNCERTAIN, RECONCILING, SubmissionUnknownEvent)
  {
    StartedIsSound();
    ToldIsDrafted(now);
    UncertainIsSound();
    Drafted(STARTED, DISPATCHED, TOLD, now, UNCERTAIN.(version := 3), RECONCILING, SubmissionUnknownEvent);
  }

  lemma {:induction false} MismatchIsDrafted(now: Time)
    requires UNCERTAIN.Valid()
    ensures Step(UNCERTAIN, STOPPING, MISMATCH, now)
            == Committed(ASIDE.(version := 4, problem := Some(STRANGE)), MANUAL, ReconciliationDeferred)
  {
    StrangeIsFound();
    MismatchPutsAside(UNCERTAIN, STOPPING, STRANGE, now);
  }

  lemma {:induction false} StrangeIsFound()
    ensures FaultProblem(UNCERTAIN, RemoteIdentityMismatch, "", "", None) == Some(STRANGE)
  {
  }

  /** A foreign identity puts a started attempt aside and leaves a pending stop to the operator. */
  lemma {:induction false} MismatchPutsAside(j: Journal, s: State, p: Problem, now: Time)
    requires j.Valid() && j.phase.Submitting? && j.failures < MAX_FAILURES && s.cancellation.Pending()
    requires FaultProblem(j, RemoteIdentityMismatch, "", "", None) == Some(p)
    ensures Step(j, s, MISMATCH, now) ==
            Committed(j.(phase := Attention, failures := j.failures + 1, problem := Some(p)),
                      s.(orchestration := NeedsAttention, cancellation := Manual), ReconciliationDeferred)
  {
  }

  lemma {:induction false} AsideIsLegal()
    ensures ASIDE.Valid() && Annotate(ASIDE.(version := 4, problem := Some(STRANGE))).(version := 5) == ASIDE
  {
    assert LOST.details.Public() == LOST.details;
  }

  lemma {:induction false} ManualIsLegal()
    ensures STOPPING.Valid() && ValidTransition(STOPPING, MANUAL)
  {
  }

  lemma {:induction false} MismatchCommits(now: Time)
    requires ValidTime(now)
    ensures Apply(UNCERTAIN, STOPPING, MISMATCH, now, 0) == Committed(ASIDE, MANUAL, ReconciliationDeferred)
  {
    UncertainIsSound();
    MismatchIsDrafted(now);
    AsideIsLegal();
    ManualIsLegal();
    Drafted(UNCERTAIN, STOPPING, MISMATCH, now, ASIDE.(version := 4, problem := Some(STRANGE)), MANUAL, ReconciliationDeferred);
  }

  /** A drafted step is committed when what it leaves is valid. */
  lemma {:induction false} Drafted(j: Journal, s: State, a: Action, now: Time, j': Journal, s': State, e: Event)
    requires j.Valid() && s.Valid() && ValidTime(now) && j.version < MAX_VERSION
    requires Step(j, s, a, now) == Committed(j', s', e)
    requires Annotate(j').(version := j.version + 1).Valid() && ValidTransition(s, s')
    ensures Apply(j, s, a, now, 0) == Committed(Annotate(j').(version := j.version + 1), s', e)
  {
  }

  lemma {:induction false} SaysSo(now: Time, steps: seq<Turn>, j: Journal, s: State, stop: StopGate, log: seq<Deed>, a: Action, j': Journal, s': State, e: Event)
    requires Stands(steps, j, s, stop, log) && Disciplined(log) && ForWorkers(a) && Apply(j, s, a, now, 0) == Committed(j', s', e)
    ensures Stands(steps + [Says(now, a)], j', s', stop, log + [Commit(a, true)]) && Disciplined(log + [Commit(a, true)])
  {
    OneMore(steps, Says(now, a));
    DisciplinedExtends(log, Commit(a, true));
    CommitMoves(now, After(steps).world, a, j', s', e);
  }

  lemma {:induction false} CommitMoves(now: Time, w: World, a: Action, j': Journal, s': State, e: Event)
    requires ForWorkers(a) && Apply(w.journal, w.state, a, now, 0) == Committed(j', s', e)
    ensures var w' := Do(w, AsOccurrence(Says(now, a)));
            w'.journal == j' && w'.state == s' && w'.stop == w.stop && Honest(w, Says(now, a))
  {
  }

  lemma {:induction false} CallsSo(now: Time, steps: seq<Turn>, j: Journal, s: State, stop: StopGate, log: seq<Deed>, call: Deed)
    requires Stands(steps, j, s, stop, log) && Disciplined(log) && Needed(call) != NoPermit && Needed(call) == Held(log)
    ensures Stands(steps + [Calls(now, call)], j, s, stop, log + [call]) && Disciplined(log + [call])
  {
    OneMore(steps, Calls(now, call));
    DisciplinedExtends(log, call);
  }

  lemma {:induction false} RestartsSo(steps: seq<Turn>, j: Journal, s: State, stop: StopGate, log: seq<Deed>)
    requires Stands(steps, j, s, stop, log)
    ensures Stands(steps + [Restarted(0)], j, s, stop, [])
  {
    OneMore(steps, Restarted(0));
  }

  /** An acknowledged intent and the call it pays for. */
  lemma {:induction false} PaidSo(now: Time, steps: seq<Turn>, j: Journal, s: State, stop: StopGate, a: Action, call: Deed, j': Journal, s': State, e: Event)
    requires Stands(steps, j, s, stop, []) && ForWorkers(a) && Apply(j, s, a, now, 0) == Committed(j', s', e)
    requires Needed(call) != NoPermit && Needed(call) == Earned(Commit(a, true))
    ensures Stands(steps + [Says(now, a)] + [Calls(now, call)], j', s', stop, [] + [Commit(a, true)] + [call])
    ensures Disciplined([] + [Commit(a, true)] + [call])
  {
    SaysSo(now, steps, j, s, stop, [], a, j', s', e);
    CallsSo(now, steps + [Says(now, a)], j', s', stop, [] + [Commit(a, true)], call);
  }

  /** A whole pass: intent, call, and what came of it. */
  lemma {:induction false} PassSo(now: Time, steps: seq<Turn>, stop: StopGate, a: Action, call: Deed, b: Action, j0: Journal, s0: State, j1: Journal, s1: State, j2: Journal, s2: State, e1: Event, e2: Event)
    requires Stands(steps, j0, s0, stop, []) && ForWorkers(a) && ForWorkers(b)
    requires Apply(j0, s0, a, now, 0) == Committed(j1, s1, e1) && Apply(j1, s1, b, now, 0) == Committed(j2, s2, e2)
    requires Needed(call) != NoPermit && Needed(call) == Earned(Commit(a, true))
    ensures Stands(steps + [Says(now, a)] + [Calls(now, call)] + [Says(now, b)] + [Restarted(0)], j2, s2, stop, [])
  {
    PaidSo(now, steps, j0, s0, stop, a, call, j1, s1, e1);
    var called, log := steps + [Says(now, a)] + [Calls(now, call)], [] + [Commit(a, true)] + [call];
    SaysSo(now, called, j1, s1, stop, log, b, j2, s2, e2);
    RestartsSo(called + [Says(now, b)], j2, s2, stop, log + [Commit(b, true)]);
  }

  lemma {:induction false} PreparesSo(now: Time, steps: seq<Turn>)
    requires ValidTime(now) && Stands(steps, NO_JOURNAL, INITIAL, UNASKED, [])
    ensures Stands(Prepares(now, steps), READY, PREPARING, UNASKED, [])
  {
    BeginCommits(now);
    SeenCommits(now);
    PassSo(now, steps, UNASKED, BEGIN, Prepare, SEEN, NO_JOURNAL, INITIAL, STAGING, PREPARING, READY, PREPARING,
           PreparationIntended, ProviderStagingReady);
  }

  lemma {:induction false} StartsSo(now: Time, steps: seq<Turn>, j0: Journal, s0: State, j1: Journal, s1: State, j2: Journal, s2: State, e1: Event, e2: Event)
    requires Stands(steps, j0, s0, UNASKED, [])
    requires Apply(j0, s0, START, now, 0) == Committed(j1, s1, e1) && Apply(j1, s1, TOLD, now, 0) == Committed(j2, s2, e2)
    ensures Stands(Starts(now, steps), j2, s2, UNASKED, [])
  {
    PassSo(now, steps, UNASKED, START, Start, TOLD, j0, s0, j1, s1, j2, s2, e1, e2);
  }

  lemma {:induction false} StopIsAdmitted(w: World)
    requires w.journal == UNCERTAIN && w.state == RECONCILING && w.stop == UNASKED
    ensures var w' := Do(w, AdmitStop);
            w'.journal == UNCERTAIN && w'.state == STOPPING && w'.stop == StopGate(true, false, false)
  {
  }

  lemma {:induction false} StopsSo(now: Time, steps: seq<Turn>)
    requires ValidTime(now) && Stands(steps, UNCERTAIN, RECONCILING, UNASKED, [])
    ensures Stands(Stops(now, steps), ASIDE, MANUAL, StopGate(true, false, false), [] + [Commit(MISMATCH, true)])
  {
    MismatchCommits(now);
    StopIsAdmitted(After(steps).world);
    OneMore(steps, Elsewhere(AdmitStop));
    SaysSo(now, steps + [Elsewhere(AdmitStop)], UNCERTAIN, STOPPING, StopGate(true, false, false), [], MISMATCH, ASIDE, MANUAL, ReconciliationDeferred);
  }

  /** There is such a run from admission on. */
  lemma {:induction false} RunsSo(now: Time, steps: seq<Turn>)
    requires ValidTime(now) && steps == []
    ensures Stands(Stops(now, Starts(now, Prepares(now, steps))), ASIDE, MANUAL, StopGate(true, false, false), [] + [Commit(MISMATCH, true)])
  {
    PreparesSo(now, steps);
    StartCommits(now);
    ToldCommits(now);
    StartsSo(now, Prepares(now, steps), READY, PREPARING, STARTED, DISPATCHED, UNCERTAIN, RECONCILING,
             SubmissionIntentRecorded, SubmissionUnknownEvent);
    StopsSo(now, Starts(now, Prepares(now, steps)));
  }

  lemma {:induction false} AsideIsJoint()
    ensures Joint(ASIDE, MANUAL)
  {
    AsideIsLegal();
    ManualIsLegal();
  }

  lemma {:induction false} RejectionIsDrafted(now: Time)
    requires ASIDE.Valid()
    ensures var r := Step(ASIDE, MANUAL, NEVER_SUBMITTED, now);
            r.Committed? && r.journal.phase.Rejected?
  {
    AsideFits();
    AbsenceDrafts(ASIDE, MANUAL, "run", now);
  }

  /** An owner's word that fits is drafted as a rejection. */
  lemma {:induction false} AbsenceDrafts(j: Journal, s: State, name: string, now: Time)
    requires j.Valid() && AbsenceFits(j, s, true, name)
    ensures var r := Step(j, s, OwnerSubmissionAbsent(name), now); r.Committed? && r.journal.phase.Rejected?
  {
  }

  lemma {:induction false} AsideFits()
    ensures AbsenceFits(ASIDE, MANUAL, true, "run")
  {
  }

  /** What the store asks of an owner's resolution before it hands it on: the attempt is put aside,
      its outcome unknown, and the owner names the very resource the journal recorded. */
  predicate Resolvable(w: World, name: string) {
    && w.journal.phase.Attention? && w.journal.submitStarted && w.journal.remote.None?
    && w.state.execution.ExecUnknown? && !w.state.orchestration.Terminal()
    && ValidResourceName(name) && name == w.journal.resourceName
  }

  /** Workers started once and were then told to stop; when the owner says the submission never
      existed, the store hands it on, and the resolution is drafted and refused. */
  lemma {:induction false} RejectionRefused(now: Time)
    requires ValidTime(now)
    ensures var steps := Stops(now, Starts(now, Prepares(now, [])));
            var w := After(steps).world;
            && Feasible(steps) && w.journal.Valid() && Resolvable(w, NEVER_SUBMITTED.name)
            && Step(w.journal, w.state, NEVER_SUBMITTED, now).Committed?
            && Step(w.journal, w.state, NEVER_SUBMITTED, now).journal.phase.Rejected?
            && Apply(w.journal, w.state, NEVER_SUBMITTED, now, 0).Refused?
  {
    RunsSo(now, []);
    AsideIsJoint();
    RejectionIsDrafted(now);
    RejectionRecordedExactlyWhen(ASIDE, MANUAL, NEVER_SUBMITTED, now, 0);
  }
}
