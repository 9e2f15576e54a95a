/** What runs make of the laws of a single action: where every piece of evidence in a journal came
    from, and when the next action will be accepted. */
module DispatchEvidence {
  import opened AttemptState
  import opened Journal
  import opened Optional
  import opened Dispatch
  import opened DispatchSafety
  import opened DispatchMeaning
  import opened DispatchAcceptance
  import opened DispatchRun
  import opened DispatchHistory
  import opened Engine

  // ---------------------------------------------------------------- every event is a commit or none

  /** The event leaves journal and history alone, or is the accepted commit of one action. */
  predicate OneCommit(w: World, w': World, a: Action, now: Time, bytes: nat) {
    var r := Apply(w.journal, w.state, a, now, bytes);
    r.Committed? && w'.journal == r.journal && w'.state == r.state && w'.history == w.history + [Entry(a, now, r.journal)]
  }

  predicate NoCommit(w: World, w': World) { w'.journal == w.journal && w'.history == w.history }

  ghost predicate AtMostOneCommit(w: World, w': World) {
    NoCommit(w, w') || exists a, now, bytes :: OneCommit(w, w', a, now, bytes)
  }

  lemma {:induction false} DoCommits(w: World, e: Occurrence)
    ensures AtMostOneCommit(w, Do(w, e))
  {
    if e.WorkerCommit? || e.OperatorCommit? {
      assert NoCommit(w, Do(w, e)) || OneCommit(w, Do(w, e), e.action, e.now, e.bytes);
    }
  }

  // ---------------------------------------------------------------- where evidence comes from

  predicate Began(e: Entry, j: Journal) { e.action == BeginPreparation(j.plan, j.preparationId) }
  predicate Showed(e: Entry, j: Journal) { e.action == PreparationSeen(j.prepared) }
  predicate Authorized(e: Entry, j: Journal) { e.action == BeginSubmission(j.authorization) }
  predicate Answered(e: Entry, j: Journal) {
    j.remote.Some? && e.action == SubmissionSeen(Some(Submission(SubmissionAccepted, j.remote, None)))
  }
  predicate Started(e: Entry) { e.action.BeginSubmission? }

  /** Every piece of evidence was carried, exactly as it stands, by an accepted commit of the run. */
  predicate Traced(h: seq<Entry>, j: Journal) {
    && (j.plan.Some? ==> exists i :: 0 <= i < |h| && Began(h[i], j))
    && (j.prepared.Some? ==> exists i :: 0 <= i < |h| && Showed(h[i], j))
    && (j.submitStarted ==> exists i :: 0 <= i < |h| && Started(h[i]))
    && (j.authorization.Some? ==> exists i :: 0 <= i < |h| && Authorized(h[i], j))
    && (j.remote.Some? ==> exists i :: 0 <= i < |h| && Answered(h[i], j))
    && (j.observation.Some? ==> exists i :: 0 <= i < |h| && Observing(h[i], j.observation.value))
  }

  /** What one commit adds to the trace, and what it leaves standing. */
  lemma {:induction false} CommitIsTraced(h: seq<Entry>, j: Journal, a: Action, now: Time, j': Journal)
    requires Traced(h, j) && JournalMeans(j, a, now, j')
    requires Told(a, SubmissionAccepted) ==> a.submission.value.problem.None?
    ensures Traced(h + [Entry(a, now, j')], j')
  {
    var e := Entry(a, now, j');
    var all := h + [e];
    assert all[|h|] == e && forall i :: 0 <= i < |h| ==> all[i] == h[i];
    PreparationIsTraced(h, j, a, now, j');
    SubmissionIsTraced(h, j, a, now, j');
  }

  lemma {:induction false} PreparationIsTraced(h: seq<Entry>, j: Journal, a: Action, now: Time, j': Journal)
    requires Traced(h, j) && EvidenceIsCarried(j, a, j')
    ensures var all := h + [Entry(a, now, j')];
            && (j'.plan.Some? ==> exists i :: 0 <= i < |all| && Began(all[i], j'))
            && (j'.prepared.Some? ==> exists i :: 0 <= i < |all| && Showed(all[i], j'))
            && (j'.observation.Some? ==> exists i :: 0 <= i < |all| && Observing(all[i], j'.observation.value))
  {
    var all := h + [Entry(a, now, j')];
    assert all[|h|].action == a;
    if j'.plan.Some? && !a.BeginPreparation? {
      var i :| 0 <= i < |h| && Began(h[i], j);
      assert Began(all[i], j');
    }
    if j'.prepared.Some? && !a.PreparationSeen? {
      var i :| 0 <= i < |h| && Showed(h[i], j);
      assert Showed(all[i], j');
    }
    if j'.observation.Some? && !a.ObservationSeen? {
      var i :| 0 <= i < |h| && Observing(h[i], j.observation.value);
      assert Observing(all[i], j'.observation.value);
    }
  }

  lemma {:induction false} SubmissionIsTraced(h: seq<Entry>, j: Journal, a: Action, now: Time, j': Journal)
    requires Traced(h, j) && EvidenceIsCarried(j, a, j') && (Told(a, SubmissionAccepted) ==> a.submission.value.problem.None?)
    ensures var all := h + [Entry(a, now, j')];
            && (j'.submitStarted ==> exists i :: 0 <= i < |all| && Started(all[i]))
            && (j'.authorization.Some? ==> exists i :: 0 <= i < |all| && Authorized(all[i], j'))
            && (j'.remote.Some? ==> exists i :: 0 <= i < |all| && Answered(all[i], j'))
  {
    var all := h + [Entry(a, now, j')];
    assert all[|h|].action == a;
    if j'.submitStarted && !a.BeginSubmission? {
      var i :| 0 <= i < |h| && Started(h[i]);
      assert Started(all[i]);
    }
    if j'.authorization.Some? && !(a.BeginSubmission? && a.authorization.Some?) {
      var i :| 0 <= i < |h| && Authorized(h[i], j);
      assert Authorized(all[i], j');
    }
    if j'.remote.Some? {
      if Told(a, SubmissionAccepted) {
        assert Answered(all[|h|], j');
      } else {
        var i :| 0 <= i < |h| && Answered(h[i], j);
        assert Answered(all[i], j');
      }
    }
  }

  // ---------------------------------------------------------------- along every run

  predicate Accounted(w: World) { Traced(w.history, w.journal) && Sharp(w.journal, w.state) }

  lemma {:induction false} CommitAccounts(w: World, w': World, a: Action, now: Time, bytes: nat)
    requires WorldInv(w) && Accounted(w) && OneCommit(w, w', a, now, bytes)
    ensures Accounted(w')
  {
    ApplyMeans(w.journal, w.state, a, now, bytes);
    ApplySharpens(w.journal, w.state, a, now, bytes);
    ApplyIsLegal(w.journal, w.state, a, now, bytes);
    DueIsDrafted(w.journal, w.state, a, now);
    CommitIsTraced(w.history, w.journal, a, now, w'.journal);
  }

  lemma {:induction false} OtherwiseAccounts(w: World, e: Occurrence)
    requires WorldInv(w) && Accounted(w) && NoCommit(w, Do(w, e))
    ensures Accounted(Do(w, e))
  {
    if e.WorkerCommit? || e.OperatorCommit? {
      CommitOrNothing(w, e);
    } else {
      StateKeepsActivity(w, e);
    }
  }

  lemma {:induction false} CommitOrNothing(w: World, e: Occurrence)
    requires (e.WorkerCommit? || e.OperatorCommit?) && NoCommit(w, Do(w, e))
    ensures Do(w, e).state == w.state
  {
    assert |w.history + [Entry(e.action, e.now, w.journal)]| == |w.history| + 1;
  }

  lemma {:induction false} StateKeepsActivity(w: World, e: Occurrence)
    requires WorldInv(w) && !e.WorkerCommit? && !e.OperatorCommit?
    ensures Do(w, e).state.activity == w.state.activity && Do(w, e).state.release == w.state.release
  {
    if e.Publish? && FinalState(w.state, e.completed).Final? { FinalStateMeaning(w.state, e.completed); }
  }

  lemma {:induction false} RunIsAccounted(es: seq<Occurrence>)
    ensures Accounted(Run(es))
  {
    if es != [] {
      var w, e := Run(es[..|es| - 1]), es[|es| - 1];
      RunIsAccounted(es[..|es| - 1]);
      RunKeeps(es[..|es| - 1]);
      DoCommits(w, e);
      if NoCommit(w, Do(w, e)) {
        OtherwiseAccounts(w, e);
      } else {
        var a, now, bytes :| OneCommit(w, Do(w, e), a, now, bytes);
        CommitAccounts(w, Do(w, e), a, now, bytes);
      }
    }
  }

  /** Along every run: the plan and its identifier, the preparation, the authorization, the remote and
      the observation of a journal are exactly what some accepted commit of that run carried. */
  lemma {:induction false} EvidenceIsTraced(es: seq<Occurrence>)
    ensures Traced(Run(es).history, Run(es).journal)
  {
    RunIsAccounted(es);
  }

  /** In every reachable state, whatever the action: accepted exactly when it is due, its graph has the
      edge, and what it brings is sound. */
  lemma {:induction false} ReachableAcceptance(es: seq<Occurrence>, a: Action, now: Time, bytes: nat)
    requires ValidTime(now) && Run(es).journal.version < MAX_VERSION && bytes <= MAX_JOURNAL_BYTES
    ensures var w := Run(es);
            && w.journal.Valid()
            && (Apply(w.journal, w.state, a, now, bytes).Committed? <==>
                  Due(w.journal, w.state, a, now) && StatePasses(w.journal, w.state, a, now) && JournalPasses(w.journal, a))
  {
    RunKeeps(es);
    RunIsAccounted(es);
    AcceptedExactlyWhen(Run(es).journal, Run(es).state, a, now, bytes);
  }

  /** Over every run a commit is recorded, once and as it was asked for, exactly when it is accepted and
      comes from whom it may: controls from the operator, intents from workers. */
  lemma {:induction false} RecordedExactlyWhen(es: seq<Occurrence>, a: Action, now: Time, bytes: nat, worker: nat, acked: bool)
    requires ValidTime(now) && Run(es).journal.version < MAX_VERSION && bytes <= MAX_JOURNAL_BYTES
    ensures var w := Run(es);
            && w.journal.Valid()
            && var accepted := Due(w.journal, w.state, a, now) && StatePasses(w.journal, w.state, a, now) && JournalPasses(w.journal, a);
               && Records(w, Run(es + [WorkerCommit(worker, a, now, bytes, acked)]), a, now,
                          accepted && !(a.PreventDispatch? || a.RequestReconciliation? || a.OwnerSubmissionAbsent?))
               && Records(w, Run(es + [OperatorCommit(a, now, bytes)]), a, now,
                          accepted && !(a.BeginPreparation? || a.BeginSubmission?))
  {
    ReachableAcceptance(es, a, now, bytes);
    OneMore(es, WorkerCommit(worker, a, now, bytes, acked));
    OneMore(es, OperatorCommit(a, now, bytes));
    WorkerRecords(Run(es), a, now, bytes, worker, acked);
    OperatorRecords(Run(es), a, now, bytes);
  }

  lemma {:induction false} WorkerRecords(w: World, a: Action, now: Time, bytes: nat, worker: nat, acked: bool)
    ensures Records(w, DoWorkerCommit(w, worker, a, now, bytes, acked), a, now,
                    && Apply(w.journal, w.state, a, now, bytes).Committed?
                    && !(a.PreventDispatch? || a.RequestReconciliation? || a.OwnerSubmissionAbsent?))
  {
    var r := Apply(w.journal, w.state, a, now, bytes);
    if r.Committed? {
      ApplyIsLegal(w.journal, w.state, a, now, bytes);
      RecordRecords(w, a, now, r);
    }
  }

  lemma {:induction false} OperatorRecords(w: World, a: Action, now: Time, bytes: nat)
    ensures Records(w, DoOperatorCommit(w, a, now, bytes), a, now,
                    Apply(w.journal, w.state, a, now, bytes).Committed? && !(a.BeginPreparation? || a.BeginSubmission?))
  {
    var r := Apply(w.journal, w.state, a, now, bytes);
    if r.Committed? {
      ApplyIsLegal(w.journal, w.state, a, now, bytes);
      RecordRecords(w, a, now, r);
    }
  }

  lemma {:induction false} RecordRecords(w: World, a: Action, now: Time, r: Outcome)
    requires r.Committed? && r.journal.version == w.journal.version + 1
    ensures Records(w, Record(w, a, now, r), a, now, true)
  {
  }

  predicate Records(w: World, w': World, a: Action, now: Time, recorded: bool) {
    if recorded then w'.history == w.history + [Entry(a, now, w'.journal)] && w'.journal.version == w.journal.version + 1
    else w'.history == w.history && w'.journal == w.journal && w'.state == w.state
  }

  lemma {:induction false} OneMore(es: seq<Occurrence>, e: Occurrence)
    ensures Run(es + [e]) == Do(Run(es), e)
  {
    assert (es + [e])[..|es|] == es;
  }

  /** In every reachable state with a start still in doubt, a pass that reads nothing foreign moves the
      attempt only on evidence: to submitted on the remote it found, to rejected on an inventory past
      its grace, and aside only as the fifth trouble in a row, from where it can still be reopened. */
  lemma {:induction false} DoubtIsOnlyObserved(es: seq<Occurrence>, answers: Answers, reply: Reply, log: seq<Deed>, now: Time, bytes: nat)
    requires var w := Run(es);
             && w.journal.Valid() && w.journal.phase.Submitting? && Bound(answers, w.journal) && Passed(answers, w.journal, reply, log)
             && !Misread(answers, w.journal) && !Condemned(answers, w.journal)
             && log != [] && log[0].Commit? && Apply(w.journal, w.state, log[0].action, now, bytes).Committed?
    ensures var w := Run(es);
            var j' := Apply(w.journal, w.state, log[0].action, now, bytes).journal;
            && (j'.phase.Submitted? ==> j'.remote.Some? && answers.reconcile == Good(FoundRemote(j'.remote.value)))
            && (j'.phase.Rejected? ==> answers.reconcile.Good? && answers.reconcile.value.Inventory? && GraceOver(w.journal, now))
            && (j'.phase.Attention? ==> w.journal.failures >= 4 && NoProblemBars(j'))
            && j'.phase in {Submitting, Phase.Submitted, Phase.Rejected, Attention}
  {
    var w := Run(es);
    RunKeeps(es);
    ApplyMeans(w.journal, w.state, log[0].action, now, bytes);
    DoubtMoves(answers, w.journal, log[0].action, now, Apply(w.journal, w.state, log[0].action, now, bytes).journal);
  }

  lemma {:induction false} DoubtMoves(answers: Answers, j: Journal, a: Action, now: Time, j': Journal)
    requires j.phase.Submitting? && SubmissionReport(answers, j) == Some(a) && !Misread(answers, j) && !Condemned(answers, j)
    requires JournalMeans(j, a, now, j') && ProblemTells(j, a, now, j'.problem)
    ensures && (j'.phase.Submitted? ==> j'.remote.Some? && answers.reconcile == Good(FoundRemote(j'.remote.value)))
            && (j'.phase.Rejected? ==> answers.reconcile.Good? && answers.reconcile.value.Inventory? && GraceOver(j, now))
            && (j'.phase.Attention? ==> j.failures >= 4 && NoProblemBars(j'))
            && j'.phase in {Submitting, Phase.Submitted, Phase.Rejected, Attention}
  {
    ReportIsKnown(answers, j, a);
    if a.Fault? { TroubleMoves(j, a, now, j'); } else { NewsMoves(j, a, now, j'); }
  }

  lemma {:induction false} ReportIsKnown(answers: Answers, j: Journal, a: Action)
    requires j.phase.Submitting? && SubmissionReport(answers, j) == Some(a) && !Misread(answers, j) && !Condemned(answers, j)
    ensures a.Fault? ==> a.code !in {RemoteIdentityMismatch, PrivateStagingUnavailable}
    ensures a.Fault? || Told(a, SubmissionAccepted) || a.SubmissionAbsenceSeen?
    ensures Told(a, SubmissionAccepted) ==>
              a.submission.value.remote.Some? && answers.reconcile == Good(FoundRemote(a.submission.value.remote.value))
    ensures a.SubmissionAbsenceSeen? ==> answers.reconcile.Good? && answers.reconcile.value.Inventory?
  {
  }

  lemma {:induction false} TroubleMoves(j: Journal, a: Action, now: Time, j': Journal)
    requires j.phase.Submitting? && a.Fault? && a.code !in {RemoteIdentityMismatch, PrivateStagingUnavailable}
    requires JournalMeans(j, a, now, j') && ProblemTells(j, a, now, j'.problem)
    ensures j'.phase.Submitting? || (j'.phase.Attention? && j.failures >= 4 && NoProblemBars(j'))
  {
  }

  lemma {:induction false} NewsMoves(j: Journal, a: Action, now: Time, j': Journal)
    requires j.phase.Submitting? && (Told(a, SubmissionAccepted) || a.SubmissionAbsenceSeen?) && JournalMeans(j, a, now, j')
    ensures Told(a, SubmissionAccepted) ==> j'.phase.Submitted? && j'.remote == a.submission.value.remote
    ensures a.SubmissionAbsenceSeen? ==> if GraceOver(j, now) then j'.phase.Rejected? else j'.phase.Submitting?
  {
  }
}
