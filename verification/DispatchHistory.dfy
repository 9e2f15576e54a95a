/** What the list of accepted commits of a run says about the journal it ends in. */
module DispatchHistory {
  import opened AttemptState
  import opened Journal
  import opened Optional
  import opened Dispatch
  import opened DispatchSafety
  import opened DispatchRun

  /** An inventory absence first recorded by this commit. */
  predicate Noted(e: Entry) { e.action.SubmissionAbsenceSeen? && e.journal.absenceObserved == Some(e.now) }

  /** The owner was heard to say the submission is present. */
  predicate Claimed(e: Entry) { e.action.RequestReconciliation? && e.action.ownerClaimsPresent }

  predicate ResolvedByInventory(e: Entry) { e.action.SubmissionAbsenceSeen? && e.journal.phase.Rejected? }

  /** Commit `k`, if it resolved the submission as absent, had a whole grace behind it and no
      claim of presence anywhere before it. */
  predicate AbsenceJustified(h: seq<Entry>, k: nat)
    requires k < |h|
  {
    ResolvedByInventory(h[k]) ==>
      && (exists i :: 0 <= i < k && Noted(h[i]) && h[i].now + SUBMISSION_ABSENCE_GRACE <= h[k].now)
      && (forall i :: 0 <= i < k ==> !Claimed(h[i]))
  }

  predicate Observing(e: Entry, obs: Observation) { e.action == ObservationSeen(Some(obs)) }

  predicate HistoryInv(h: seq<Entry>, j: Journal) {
    && |h| == j.version
    && (forall k :: 0 <= k < |h| ==> AbsenceJustified(h, k))
    && (j.absenceObserved.Some? ==> exists i :: 0 <= i < |h| && Noted(h[i]) && h[i].now == j.absenceObserved.value)
    && (forall i :: 0 <= i < |h| && Claimed(h[i]) ==> j.ownerPresent)
    && (j.observation.Some? ==> exists i :: 0 <= i < |h| && Observing(h[i], j.observation.value))
  }

  lemma {:induction false} JustificationsKeep(h: seq<Entry>, e: Entry, k: nat)
    requires k < |h| && AbsenceJustified(h, k)
    ensures AbsenceJustified(h + [e], k)
  {
    if ResolvedByInventory(h[k]) {
      var i :| 0 <= i < k && Noted(h[i]) && h[i].now + SUBMISSION_ABSENCE_GRACE <= h[k].now;
      assert (h + [e])[i] == h[i];
    }
  }

  lemma {:induction false} CommitKeepsHistory(h: seq<Entry>, j: Journal, s: State, a: Action, now: Time, j': Journal, s': State)
    requires HistoryInv(h, j) && Lawful(j, s, a, now, j', s')
    ensures HistoryInv(h + [Entry(a, now, j')], j')
  {
    var e := Entry(a, now, j');
    forall k | 0 <= k < |h| ensures AbsenceJustified(h + [e], k) { JustificationsKeep(h, e, k); }
    if ResolvedByInventory(e) {
      var i :| 0 <= i < |h| && Noted(h[i]) && h[i].now == j.absenceObserved.value;
      assert (h + [e])[i] == h[i];
    }
    assert AbsenceJustified(h + [e], |h|);
    if j'.absenceObserved.Some? {
      if j'.absenceObserved == j.absenceObserved {
        var i :| 0 <= i < |h| && Noted(h[i]) && h[i].now == j.absenceObserved.value;
        assert (h + [e])[i] == h[i];
      } else {
        assert Noted((h + [e])[|h|]);
      }
    }
    if j'.observation.Some? {
      if j'.observation == j.observation {
        var i :| 0 <= i < |h| && Observing(h[i], j.observation.value);
        assert (h + [e])[i] == h[i];
      } else {
        assert Observing((h + [e])[|h|], j'.observation.value);
      }
    }
  }

  /** What a later point of a run keeps of an earlier one. */
  predicate Later(a: World, b: World) {
    && WriteOnce(a.journal, b.journal)
    && a.journal.version <= b.journal.version
    && (a.state.orchestration.Terminal() ==> b.state.orchestration == a.state.orchestration)
    && (a.state.execution.Terminal() ==> b.state.execution == a.state.execution)
  }

  lemma {:induction false} LaterTransitive(a: World, b: World, c: World)
    requires Later(a, b) && Later(b, c)
    ensures Later(a, c)
  {
    WriteOnceTransitive(a.journal, b.journal, c.journal);
  }

  predicate Recorded(w: World) {
    && HistoryInv(w.history, w.journal)
    && (w.state.orchestration.Succeeded? ==> w.published == Some(true))
  }

  lemma {:induction false} StateMoves(w: World, next: World)
    requires Recorded(w) && next.journal == w.journal && next.history == w.history && next.published == w.published
    requires next.state == w.state || Control(w.state, next.state)
    ensures Recorded(next) && Later(w, next)
  {
  }

  /** One event either leaves the record alone or extends it by one lawful commit. */
  lemma {:induction false} DoExtends(w: World, e: Occurrence)
    requires WorldInv(w) && Recorded(w)
    ensures Recorded(Do(w, e)) && Later(w, Do(w, e))
  {
    match e
    case WorkerCommit(worker, a, now, bytes, acked) => WorkerCommitExtends(w, worker, a, now, bytes, acked);
    case OperatorCommit(a, now, bytes) => OperatorCommitExtends(w, a, now, bytes);
    case Publish(completed) => PublicationExtends(w, completed);
    case _ => OtherwiseExtends(w, e);
  }

  lemma {:induction false} OtherwiseExtends(w: World, e: Occurrence)
    requires Recorded(w) && !e.WorkerCommit? && !e.OperatorCommit? && !e.Publish?
    ensures Recorded(Do(w, e)) && Later(w, Do(w, e))
  {
    StateMoves(w, Do(w, e));
  }

  lemma {:induction false} WorkerCommitExtends(w: World, worker: nat, a: Action, now: Time, bytes: nat, acked: bool)
    requires WorldInv(w) && Recorded(w)
    ensures var w' := DoWorkerCommit(w, worker, a, now, bytes, acked); Recorded(w') && Later(w, w')
  {
    CommitExtends(w, a, now, bytes);
  }

  lemma {:induction false} OperatorCommitExtends(w: World, a: Action, now: Time, bytes: nat)
    requires WorldInv(w) && Recorded(w)
    ensures var w' := DoOperatorCommit(w, a, now, bytes); Recorded(w') && Later(w, w')
  {
    CommitExtends(w, a, now, bytes);
  }

  lemma {:induction false} PublicationExtends(w: World, completed: bool)
    requires WorldInv(w) && Recorded(w)
    ensures Recorded(Do(w, Publish(completed))) && Later(w, Do(w, Publish(completed)))
  {
    var r := FinalState(w.state, completed);
    if r.Final? && w.published.None? && w.state.orchestration.Collecting? {
      PublicationIsLegal(w.state, completed);
      FinalStateMeaning(w.state, completed);
      StatePublished(w, r.state, completed);
    }
  }

  lemma {:induction false} StatePublished(w: World, next: State, completed: bool)
    requires Recorded(w) && next.execution == w.state.execution && !w.state.orchestration.Terminal()
    requires next.orchestration.Succeeded? ==> completed
    ensures var w' := w.(state := next, published := Some(completed)); Recorded(w') && Later(w, w')
  {
  }

  lemma {:induction false} CommitExtends(w: World, a: Action, now: Time, bytes: nat)
    requires WorldInv(w) && Recorded(w)
    ensures var r := Apply(w.journal, w.state, a, now, bytes);
            r.Committed? ==>
              Recorded(Record(w, a, now, r)) && Later(w, Record(w, a, now, r))
  {
    var r := Apply(w.journal, w.state, a, now, bytes);
    if r.Committed? {
      ApplyIsLawful(w.journal, w.state, a, now, bytes);
      RecordExtends(w, a, now, r);
    }
  }

  lemma {:induction false} RecordExtends(w: World, a: Action, now: Time, r: Outcome)
    requires Recorded(w) && r.Committed? && Lawful(w.journal, w.state, a, now, r.journal, r.state)
    ensures Recorded(Record(w, a, now, r)) && Later(w, Record(w, a, now, r))
  {
    CommitKeepsHistory(w.history, w.journal, w.state, a, now, r.journal, r.state);
  }

  lemma {:induction false} RunHistory(es: seq<Occurrence>)
    ensures Recorded(Run(es))
  {
    if es != [] {
      RunHistory(es[..|es| - 1]);
      RunKeeps(es[..|es| - 1]);
      DoExtends(Run(es[..|es| - 1]), es[|es| - 1]);
    }
  }

  /** Along every run recovery evidence is written once, accepted observation times only grow,
      and a finished attempt stays finished: compare any point of the run with any later one. */
  lemma {:induction false} EvidenceIsWriteOnce(es: seq<Occurrence>, i: nat)
    requires i <= |es|
    ensures Later(Run(es[..i]), Run(es))
  {
    if i == |es| {
      assert es[..i] == es;
    } else {
      var last := es[..|es| - 1];
      assert last[..i] == es[..i];
      EvidenceIsWriteOnce(last, i);
      NextIsLater(last, es[|es| - 1]);
      LaterTransitive(Run(es[..i]), Run(last), Do(Run(last), es[|es| - 1]));
    }
  }

  lemma {:induction false} NextIsLater(es: seq<Occurrence>, e: Occurrence)
    ensures Later(Run(es), Do(Run(es), e))
  {
    RunKeeps(es);
    RunHistory(es);
    DoExtends(Run(es), e);
  }

  /** Whenever inventory evidence resolves a submission as absent, the same run recorded the
      absence a whole grace earlier and had accepted no claim that the submission is present. */
  lemma {:induction false} InventoryAbsenceIsJustified(es: seq<Occurrence>, k: nat)
    requires k < |Run(es).history| && ResolvedByInventory(Run(es).history[k])
    ensures exists i :: 0 <= i < k && Noted(Run(es).history[i])
                        && Run(es).history[i].now + SUBMISSION_ABSENCE_GRACE <= Run(es).history[k].now
    ensures forall i :: 0 <= i < k ==> !Claimed(Run(es).history[i])
  {
    RunHistory(es);
    assert AbsenceJustified(Run(es).history, k);
  }

  /** No false success: an attempt that succeeded accepted a succeeded observation of its one
      recorded remote, published a completed runner, and was not effectively cancelled. */
  lemma {:induction false} NoFalseSuccess(es: seq<Occurrence>)
    requires Run(es).state.orchestration.Succeeded?
    ensures var w := Run(es);
            && w.journal.remote.Some? && w.journal.observation.Some?
            && w.journal.observation.value.execution.ExecSucceeded?
            && w.journal.observation.value.remote == w.journal.remote.value
            && (exists i :: 0 <= i < |w.history| && Observing(w.history[i], w.journal.observation.value))
            && w.published == Some(true)
            && (w.state.cancellation.NotRequested? || w.state.cancellation.TooLate?)
  {
    RunKeeps(es);
    RunHistory(es);
  }

  /** Along every run the journal's version is the number of accepted commits. */
  lemma {:induction false} VersionCountsCommits(es: seq<Occurrence>)
    ensures Run(es).journal.version == |Run(es).history|
  {
    RunHistory(es);
  }
}
