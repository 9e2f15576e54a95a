/** Attempts that complete: whatever sound evidence the provider gives, sessions take the attempt from
    admission to published results, with one Prepare, one Start, and one Cancel if a stop is asked for. */
module Completion {
  import opened AttemptState
  import opened Journal
  import opened Optional
  import opened Dispatch
  import opened DispatchSafety
  import opened DispatchMeaning
  import opened DispatchAcceptance
  import opened DispatchRun
  import opened Engine
  import opened Fleet
  import opened Rejection

  /** Everything the provider shows of one attempt, from plan to ending. */
  datatype Evidence = Evidence(
    plan: Plan, id: Id, prepared: Prepared, authorization: Option<StartAuthorization>, remote: Remote, ending: Observation)

  predicate Sound(e: Evidence, now: Time) {
    && e.plan.JobValid() && e.plan.hasInputs && e.plan.inputsOk && e.id.Valid()
    && e.prepared.Valid(e.plan, e.id) && e.prepared.ready && e.prepared.isPrivate
    && (e.authorization.Some? ==> e.authorization.value.Valid(e.prepared))
    && e.remote.identity == e.plan.identity && e.remote.Valid()
    && e.ending.Valid(e.remote) && e.ending.execution.Terminal() && e.ending.observedAt <= now
  }

  function Intends(e: Evidence): Action { BeginPreparation(Some(e.plan), e.id) }
  function Stages(e: Evidence): Action { PreparationSeen(Some(e.prepared)) }
  function Launches(e: Evidence): Action { BeginSubmission(e.authorization) }
  function Accepts(e: Evidence): Action { SubmissionSeen(Some(Submission(SubmissionAccepted, Some(e.remote), None))) }
  function Ends(e: Evidence): Action { ObservationSeen(Some(e.ending)) }

  // ---------------------------------------------------------------- where the attempt stands

  predicate Sane(j: Journal, s: State, version: nat) { Joint(j, s) && Sharp(j, s) && j.version == version }

  predicate Unstarted(j: Journal) {
    !j.submitStarted && j.authorization.None? && j.remote.None? && j.observation.None? && j.absenceObserved.None?
  }

  predicate AtStaging(j: Journal, s: State, e: Evidence) {
    && Sane(j, s, 1) && Unstarted(j) && j.phase.Staging? && j.plan == Some(e.plan) && j.preparationId == e.id && j.prepared.None?
    && s == INITIAL.(orchestration := Preparing)
  }

  predicate AtReady(j: Journal, s: State, e: Evidence) {
    && Sane(j, s, 2) && Unstarted(j) && j.phase.Ready? && j.plan == Some(e.plan) && j.prepared == Some(e.prepared)
    && s == INITIAL.(orchestration := Preparing)
  }

  predicate AtLaunch(j: Journal, s: State, e: Evidence) {
    && Sane(j, s, 3) && j.phase.Submitting? && j.plan == Some(e.plan) && j.observation.None? && j.absenceObserved.None?
    && s == INITIAL.(orchestration := Dispatching, execution := ExecUnknown, activity := Possible)
  }

  /** Accepted by the provider, and possibly asked to stop. */
  predicate AtSubmitted(j: Journal, s: State, e: Evidence, stop: Cancellation) {
    && Sane(j, s, 4) && j.phase.Submitted? && j.remote == Some(e.remote) && j.observation.None?
    && s == INITIAL.(orchestration := if stop.NotRequested? then Orchestration.Submitted else Cancelling,
                     execution := ExecUnknown, activity := Possible, cancellation := stop)
  }

  /** What a stop that was asked for comes to. */
  function Answer(e: Evidence, stopped: bool): Cancellation {
    if !stopped then NotRequested else if e.ending.execution.ExecCancelled? then Confirmed else TooLate
  }

  predicate AtEnd(j: Journal, s: State, e: Evidence, stopped: bool) {
    && Sane(j, s, 5) && j.phase.Collectible? && j.remote == Some(e.remote) && j.observation == Some(e.ending)
    && s == Claimed(e, stopped).(result := NotAvailable)
  }

  /** The state whose results are being collected. */
  function Claimed(e: Evidence, stopped: bool): State {
    State(Collecting, e.ending.execution, ResultCollecting, Answer(e, stopped), Inactive, e.ending.release, e.ending.execution.ExecTimedOut?)
  }

  /** A due action whose edges exist is committed, and means what every accepted action means. */
  lemma {:induction false} IsCommitted(j: Journal, s: State, a: Action, now: Time, version: nat)
    requires Sane(j, s, version) && ValidTime(now) && version < 5
    requires Due(j, s, a, now) && StatePasses(j, s, a, now) && JournalPasses(j, a)
    ensures var r := Apply(j, s, a, now, 0);
            && r.Committed? && Sane(r.journal, r.state, version + 1)
            && JournalMeans(j, a, now, r.journal) && StateMeans(j, s, a, now, r.state)
  {
    AcceptedExactlyWhen(j, s, a, now, 0);
    ApplyMeans(j, s, a, now, 0);
    ApplyIsLawful(j, s, a, now, 0);
    ApplyIsLegal(j, s, a, now, 0);
    ApplySharpens(j, s, a, now, 0);
  }

  lemma {:induction false} IntentIsCommitted(e: Evidence, now: Time)
    requires Sound(e, now) && ValidTime(now)
    ensures var r := Apply(NO_JOURNAL, INITIAL, Intends(e), now, 0); r.Committed? && AtStaging(r.journal, r.state, e)
  {
    IsCommitted(NO_JOURNAL, INITIAL, Intends(e), now, 0);
  }

  lemma {:induction false} StagingIsCommitted(j: Journal, s: State, e: Evidence, now: Time)
    requires Sound(e, now) && ValidTime(now) && AtStaging(j, s, e)
    ensures var r := Apply(j, s, Stages(e), now, 0); r.Committed? && AtReady(r.journal, r.state, e)
  {
    IsCommitted(j, s, Stages(e), now, 1);
  }

  lemma {:induction false} LaunchIsCommitted(j: Journal, s: State, e: Evidence, now: Time)
    requires Sound(e, now) && ValidTime(now) && AtReady(j, s, e)
    ensures var r := Apply(j, s, Launches(e), now, 0); r.Committed? && AtLaunch(r.journal, r.state, e)
  {
    IsCommitted(j, s, Launches(e), now, 2);
  }

  lemma {:induction false} AcceptanceIsCommitted(j: Journal, s: State, e: Evidence, now: Time)
    requires Sound(e, now) && ValidTime(now) && AtLaunch(j, s, e)
    ensures var r := Apply(j, s, Accepts(e), now, 0); r.Committed? && AtSubmitted(r.journal, r.state, e, NotRequested)
  {
    IsCommitted(j, s, Accepts(e), now, 3);
  }

  lemma {:induction false} EndIsCommitted(j: Journal, s: State, e: Evidence, now: Time, stopped: bool)
    requires Sound(e, now) && ValidTime(now) && AtSubmitted(j, s, e, if stopped then Requesting else NotRequested)
    ensures var r := Apply(j, s, Ends(e), now, 0); r.Committed? && AtEnd(r.journal, r.state, e, stopped)
  {
    IsCommitted(j, s, Ends(e), now, 4);
  }

  // ---------------------------------------------------------------- the run

  function Pass(now: Time, steps: seq<Turn>, a: Action, call: Deed, b: Action): seq<Turn> {
    steps + [Says(now, a)] + [Calls(now, call)] + [Says(now, b)] + [Restarted(0)]
  }

  /** One pass prepares, one starts. */
  function Launch(now: Time, e: Evidence): seq<Turn> {
    Pass(now, Pass(now, [], Intends(e), Prepare, Stages(e)), Launches(e), Start, Accepts(e))
  }

  /** A stop is asked for, and a pass takes it to the provider. */
  function Stop(now: Time, steps: seq<Turn>): seq<Turn> {
    steps + [Elsewhere(AdmitStop)] + [Calls(now, StopIntent(true))] + [Calls(now, Cancel)] + [Restarted(0)]
  }

  /** A last pass sees the end. */
  function Sessions(now: Time, e: Evidence, stopped: bool): seq<Turn> {
    (if stopped then Stop(now, Launch(now, e)) else Launch(now, e)) + [Says(now, Ends(e))]
  }

  /** Then the results are claimed and published. */
  function Published(now: Time, e: Evidence, completed: bool, stopped: bool): seq<Turn> {
    Sessions(now, e, stopped) + [Elsewhere(ControlTo(Claimed(e, stopped)))] + [Elsewhere(Publish(completed))]
  }

  predicate IsCall(d: Deed) { d.Prepare? || d.Start? || d.Cancel? }

  lemma {:induction false} TimesNext(steps: seq<Turn>, t: Turn, d: Deed)
    ensures Times(steps + [t], d) == Times(steps, d) + if t.Did? && t.deed == d then 1 else 0
  {
    assert (steps + [t])[..|steps|] == steps;
  }

  lemma {:induction false} PassTimes(now: Time, steps: seq<Turn>, a: Action, call: Deed, b: Action, d: Deed)
    requires IsCall(d)
    ensures Times(Pass(now, steps, a, call, b), d) == Times(steps, d) + if call == d then 1 else 0
  {
    var one := steps + [Says(now, a)];
    var two := one + [Calls(now, call)];
    TimesNext(steps, Says(now, a), d);
    TimesNext(one, Calls(now, call), d);
    TimesNext(two, Says(now, b), d);
    TimesNext(two + [Says(now, b)], Restarted(0), d);
  }

  lemma {:induction false} StopTimes(now: Time, steps: seq<Turn>, d: Deed)
    requires IsCall(d)
    ensures Times(Stop(now, steps), d) == Times(steps, d) + if d.Cancel? then 1 else 0
  {
    var one := steps + [Elsewhere(AdmitStop)];
    var two := one + [Calls(now, StopIntent(true))];
    TimesNext(steps, Elsewhere(AdmitStop), d);
    TimesNext(one, Calls(now, StopIntent(true)), d);
    TimesNext(two, Calls(now, Cancel), d);
    TimesNext(two + [Calls(now, Cancel)], Restarted(0), d);
  }

  lemma {:induction false} RouteTimes(now: Time, e: Evidence, completed: bool, stopped: bool, d: Deed)
    requires IsCall(d)
    ensures Times(Published(now, e, completed, stopped), d) == if d.Cancel? && !stopped then 0 else 1
  {
    PassTimes(now, [], Intends(e), Prepare, Stages(e), d);
    PassTimes(now, Pass(now, [], Intends(e), Prepare, Stages(e)), Launches(e), Start, Accepts(e), d);
    StopTimes(now, Launch(now, e), d);
    var before, all := if stopped then Stop(now, Launch(now, e)) else Launch(now, e), Sessions(now, e, stopped);
    TimesNext(before, Says(now, Ends(e)), d);
    TimesNext(all, Elsewhere(ControlTo(Claimed(e, stopped))), d);
    TimesNext(all + [Elsewhere(ControlTo(Claimed(e, stopped)))], Elsewhere(Publish(completed)), d);
  }

  lemma {:induction false} FirstPass(now: Time, e: Evidence, steps: seq<Turn>) returns (j: Journal, s: State)
    requires Sound(e, now) && ValidTime(now) && Stands(steps, NO_JOURNAL, INITIAL, UNASKED, [])
    ensures AtReady(j, s, e) && Stands(Pass(now, steps, Intends(e), Prepare, Stages(e)), j, s, UNASKED, [])
  {
    var r1 := Apply(NO_JOURNAL, INITIAL, Intends(e), now, 0);
    IntentIsCommitted(e, now);
    var r2 := Apply(r1.journal, r1.state, Stages(e), now, 0);
    StagingIsCommitted(r1.journal, r1.state, e, now);
    j, s := r2.journal, r2.state;
    PassSo(now, steps, UNASKED, Intends(e), Prepare, Stages(e), NO_JOURNAL, INITIAL, r1.journal, r1.state, j, s, r1.event, r2.event);
  }

  lemma {:induction false} SecondPass(now: Time, e: Evidence, steps: seq<Turn>, j0: Journal, s0: State) returns (j: Journal, s: State)
    requires Sound(e, now) && ValidTime(now) && AtReady(j0, s0, e) && Stands(steps, j0, s0, UNASKED, [])
    ensures AtSubmitted(j, s, e, NotRequested) && Stands(Pass(now, steps, Launches(e), Start, Accepts(e)), j, s, UNASKED, [])
  {
    var r1 := Apply(j0, s0, Launches(e), now, 0);
    LaunchIsCommitted(j0, s0, e, now);
    var r2 := Apply(r1.journal, r1.state, Accepts(e), now, 0);
    AcceptanceIsCommitted(r1.journal, r1.state, e, now);
    j, s := r2.journal, r2.state;
    PassSo(now, steps, UNASKED, Launches(e), Start, Accepts(e), j0, s0, r1.journal, r1.state, j, s, r1.event, r2.event);
  }

  lemma {:induction false} StopIsControl(s: State)
    requires s == INITIAL.(orchestration := Orchestration.Submitted, execution := ExecUnknown, activity := Possible)
    ensures var asked := s.(cancellation := Requested, orchestration := Cancelling);
            Control(s, asked) && Control(asked, asked.(cancellation := Requesting))
  {
  }

  lemma {:induction false} ControlStaysSane(j: Journal, s: State, n: State, version: nat)
    requires Sane(j, s, version) && Control(s, n)
    ensures Sane(j, n, version)
  {
    ControlKeepsJoint(j, s, n);
    ControlSharpens(j, s, n);
  }

  lemma {:induction false} StopMoves(now: Time, w: World)
    requires w.stop == UNASKED && w.journal.submitStarted && w.journal.phase.Submitted? && w.journal.remote.Some?
    requires w.state == INITIAL.(orchestration := Orchestration.Submitted, execution := ExecUnknown, activity := Possible)
    ensures var asked := Do(w, AdmitStop);
            var w' := Do(asked, AsOccurrence(Calls(now, StopIntent(true))));
            && StopEnabled(asked) && asked.journal == w.journal && w'.journal == w.journal
            && asked.stop == StopGate(true, false, false) && w'.stop == StopGate(true, true, true)
            && asked.state == w.state.(cancellation := Requested, orchestration := Cancelling)
            && w'.state == asked.state.(cancellation := Requesting)
  {
    StopIsControl(w.state);
  }

  /** The stop pass: asked for, intended, called. */
  lemma {:induction false} StopSo(now: Time, e: Evidence, steps: seq<Turn>, j: Journal, s0: State) returns (s: State)
    requires AtSubmitted(j, s0, e, NotRequested) && Stands(steps, j, s0, UNASKED, [])
    ensures AtSubmitted(j, s, e, Requesting) && Stands(Stop(now, steps), j, s, StopGate(true, true, true), [])
  {
    var asked := s0.(cancellation := Requested, orchestration := Cancelling);
    s := asked.(cancellation := Requesting);
    StopIsControl(s0);
    ControlStaysSane(j, s0, asked, 4);
    ControlStaysSane(j, asked, s, 4);
    StopMoves(now, After(steps).world);
    var one, intent := steps + [Elsewhere(AdmitStop)], Calls(now, StopIntent(true));
    OneMore(steps, Elsewhere(AdmitStop));
    DisciplinedExtends([], StopIntent(true));
    OneMore(one, intent);
    assert Stands(one + [intent], j, s, StopGate(true, true, true), [] + [StopIntent(true)]);
    CallsSo(now, one + [intent], j, s, StopGate(true, true, true), [] + [StopIntent(true)], Cancel);
    RestartsSo(one + [intent] + [Calls(now, Cancel)], j, s, StopGate(true, true, true), [] + [StopIntent(true)] + [Cancel]);
  }

  lemma {:induction false} LaunchSo(now: Time, e: Evidence) returns (j: Journal, s: State)
    requires Sound(e, now) && ValidTime(now)
    ensures AtSubmitted(j, s, e, NotRequested) && Stands(Launch(now, e), j, s, UNASKED, [])
  {
    var start: seq<Turn> := [];
    assert Stands(start, NO_JOURNAL, INITIAL, UNASKED, []);
    var j1, s1 := FirstPass(now, e, start);
    j, s := SecondPass(now, e, Pass(now, start, Intends(e), Prepare, Stages(e)), j1, s1);
  }

  lemma {:induction false} SessionsEnd(now: Time, e: Evidence, stopped: bool) returns (j: Journal, s: State, stop: StopGate, log: seq<Deed>)
    requires Sound(e, now) && ValidTime(now)
    ensures AtEnd(j, s, e, stopped) && Stands(Sessions(now, e, stopped), j, s, stop, log)
  {
    var j1, s1 := LaunchSo(now, e);
    var steps := Launch(now, e);
    stop := UNASKED;
    if stopped {
      s1 := StopSo(now, e, steps, j1, s1);
      steps, stop := Stop(now, steps), StopGate(true, true, true);
    }
    var r := Apply(j1, s1, Ends(e), now, 0);
    EndIsCommitted(j1, s1, e, now, stopped);
    j, s, log := r.journal, r.state, [] + [Commit(Ends(e), true)];
    SaysSo(now, steps, j1, s1, stop, [], Ends(e), j, s, r.event);
  }

  /** How the attempt is shown once its results are published. */
  function Verdict(execution: Execution, completed: bool, stopped: bool): Orchestration {
    match execution
    case ExecSucceeded => if completed then Succeeded else Orchestration.Failed
    case ExecFailed => Orchestration.Failed
    case ExecTimedOut => TimedOut
    case _ => if stopped then Cancelled else NeedsAttention
  }

  lemma {:induction false} ClaimIsControl(s: State, e: Evidence, stopped: bool)
    requires s.Valid() && e.ending.execution.Terminal() && s == Claimed(e, stopped).(result := NotAvailable)
    ensures Control(s, Claimed(e, stopped)) && Claimed(e, stopped).Valid()
  {
  }

  lemma {:induction false} ClaimEnds(e: Evidence, completed: bool, stopped: bool)
    requires Claimed(e, stopped).Valid() && e.ending.execution.Terminal()
    ensures var r := FinalState(Claimed(e, stopped), completed);
            && r.Final? && r.state.result.Available? && r.state.execution == e.ending.execution
            && r.state.cancellation == Answer(e, stopped)
            && r.state.orchestration == Verdict(e.ending.execution, completed, stopped)
  {
    FinalStateMeaning(Claimed(e, stopped), completed);
  }

  /** What publication leaves in the store. */
  predicate Concludes(w: World, e: Evidence, completed: bool, stopped: bool) {
    && w.published == Some(completed) && w.state.result.Available?
    && w.state.execution == e.ending.execution && w.state.cancellation == Answer(e, stopped)
    && w.state.orchestration == Verdict(e.ending.execution, completed, stopped)
  }

  lemma {:induction false} PublicationEnds(w: World, s: State, e: Evidence, completed: bool, stopped: bool)
    requires s.Valid() && e.ending.execution.Terminal() && s == Claimed(e, stopped).(result := NotAvailable)
    requires w.state == s && w.published.None?
    ensures var w' := Do(Do(w, ControlTo(Claimed(e, stopped))), Publish(completed));
            Concludes(w', e, completed, stopped) && w'.journal == w.journal
  {
    ClaimIsControl(s, e, stopped);
    ClaimEnds(e, completed, stopped);
  }

  lemma {:induction false} NothingPublished(steps: seq<Turn>)
    requires forall i :: 0 <= i < |steps| ==> !(steps[i].Elsewhere? && steps[i].what.Publish?)
    ensures After(steps).world.published.None?
  {
    if steps != [] { NothingPublished(steps[..|steps| - 1]); }
  }

  lemma {:induction false} SessionsPublishNothing(now: Time, e: Evidence, stopped: bool)
    ensures After(Sessions(now, e, stopped)).world.published.None?
  {
    NothingPublished(Sessions(now, e, stopped));
  }

  lemma {:induction false} PublishesSo(steps: seq<Turn>, s: State, e: Evidence, completed: bool, stopped: bool)
    requires Feasible(steps) && After(steps).world.state == s && After(steps).world.published.None?
    requires s.Valid() && e.ending.execution.Terminal() && s == Claimed(e, stopped).(result := NotAvailable)
    ensures var all := steps + [Elsewhere(ControlTo(Claimed(e, stopped)))] + [Elsewhere(Publish(completed))];
            Feasible(all) && Concludes(After(all).world, e, completed, stopped) && After(all).world.journal == After(steps).world.journal
  {
    PublicationEnds(After(steps).world, s, e, completed, stopped);
    OneMore(steps, Elsewhere(ControlTo(Claimed(e, stopped))));
    OneMore(steps + [Elsewhere(ControlTo(Claimed(e, stopped)))], Elsewhere(Publish(completed)));
  }

  /** For all sound evidence, stopped or not, there is a feasible run of sessions that prepares once,
      starts once and cancels once exactly when a stop was asked for; it records that very remote and
      that very ending, and its published results say what the execution, the stop and the runner's
      own verdict make of it. */
  lemma {:induction false} AttemptsComplete(now: Time, e: Evidence, completed: bool, stopped: bool)
    requires Sound(e, now) && ValidTime(now)
    ensures var steps := Published(now, e, completed, stopped);
            && Feasible(steps) && Times(steps, Prepare) == 1 && Times(steps, Start) == 1
            && Times(steps, Cancel) == (if stopped then 1 else 0)
            && Concludes(After(steps).world, e, completed, stopped)
            && After(steps).world.journal.remote == Some(e.remote) && After(steps).world.journal.observation == Some(e.ending)
  {
    RouteTimes(now, e, completed, stopped, Prepare);
    RouteTimes(now, e, completed, stopped, Start);
    RouteTimes(now, e, completed, stopped, Cancel);
    var j, s, stop, log := SessionsEnd(now, e, stopped);
    SessionsPublishNothing(now, e, stopped);
    PublishesSo(Sessions(now, e, stopped), s, e, completed, stopped);
  }
}
