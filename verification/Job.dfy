/** A job as a growing list of attempts. A new attempt is admitted only when the last one
    allows a retry; steps on older attempts may still arrive late. */
module Job {
  import opened AttemptState
  import opened Journal
  import opened Optional
  import opened Dispatch
  import opened DispatchSafety
  import opened DispatchRun
  import opened DispatchHistory

  datatype JobEvent = On(attempt: nat, what: Occurrence) | Retry

  function Next(ws: seq<World>, e: JobEvent): (ws': seq<World>)
    requires |ws| > 0
    ensures |ws'| > 0
  {
    match e
    case Retry => if RetryAllowed(ws[|ws| - 1].state).RetryOk? then ws + [ADMITTED] else ws
    case On(i, what) => if i < |ws| then ws[i := Do(ws[i], what)] else ws
  }

  /** The attempts of a job in the order they were created. */
  function Attempts(es: seq<JobEvent>): (ws: seq<World>)
    ensures |ws| > 0
  {
    if es == [] then [ADMITTED] else Next(Attempts(es[..|es| - 1]), es[|es| - 1])
  }

  /** Nothing can move this attempt's journal any more, and its remote work is accounted for. */
  predicate Closed(w: World) {
    && w.state.orchestration.Terminal()
    && !w.state.activity.Unresolved()
    && !w.state.execution.ExecSucceeded?
    && Frozen(w.journal)
  }

  /** An attempt may be retried exactly when it is closed. */
  lemma {:induction false} RetryExactlyWhenClosed(w: World)
    requires WorldInv(w)
    ensures RetryAllowed(w.state).RetryOk? <==> Closed(w)
  {
  }

  /** And a refusal says why: the results are to be collected instead, or something is still open. */
  lemma {:induction false} RefusedRetryMeans(w: World)
    requires WorldInv(w) && !Closed(w)
    ensures RetryAllowed(w.state) ==
            if w.state.execution.ExecSucceeded? then CollectInstead else Unresolved
  {
  }

  /** A closed attempt stays closed under every further event, with the same journal. */
  lemma {:induction false} ClosedStays(w: World, e: Occurrence)
    requires WorldInv(w) && Recorded(w) && Closed(w)
    ensures Closed(Do(w, e)) && Do(w, e).journal == w.journal
  {
    DoKeeps(w, e);
    DoExtends(w, e);
    FrozenIsStill(w, e);
    ClosedFollows(w, Do(w, e));
  }

  lemma {:induction false} FrozenIsStill(w: World, e: Occurrence)
    requires WorldInv(w) && Frozen(w.journal)
    ensures Do(w, e).journal == w.journal && Do(w, e).state.execution == w.state.execution
  {
    match e
    case WorkerCommit(_, a, now, bytes, _) => FrozenRefusesEveryAction(w.journal, w.state, a, now, bytes);
    case OperatorCommit(a, now, bytes) => FrozenRefusesEveryAction(w.journal, w.state, a, now, bytes);
    case Publish(completed) => if FinalState(w.state, completed).Final? { FinalStateMeaning(w.state, completed); }
    case _ =>
  }

  lemma {:induction false} ClosedFollows(w: World, w': World)
    requires Closed(w) && Later(w, w') && w'.state.Valid()
    requires w'.journal == w.journal && w'.state.execution == w.state.execution
    ensures Closed(w')
  {
  }

  predicate JobInv(ws: seq<World>) {
    && |ws| > 0
    && (forall i :: 0 <= i < |ws| ==> WorldInv(ws[i]) && Recorded(ws[i]))
    && (forall i :: 0 <= i < |ws| - 1 ==> Closed(ws[i]))
  }

  lemma {:induction false} NextKeepsJob(ws: seq<World>, e: JobEvent)
    requires JobInv(ws)
    ensures JobInv(Next(ws, e))
  {
    match e
    case Retry => RetryKeepsJob(ws);
    case On(i, what) =>
      if i < |ws| {
        SoundStays(ws[i], what);
        if i < |ws| - 1 { ClosedStays(ws[i], what); }
        ReplaceKeepsJob(ws, i, Do(ws[i], what));
      }
  }

  lemma {:induction false} RetryKeepsJob(ws: seq<World>)
    requires JobInv(ws)
    ensures JobInv(Next(ws, Retry))
  {
    AdmittedIsSound();
    RetryExactlyWhenClosed(ws[|ws| - 1]);
  }

  lemma {:induction false} SoundStays(w: World, e: Occurrence)
    requires WorldInv(w) && Recorded(w)
    ensures WorldInv(Do(w, e)) && Recorded(Do(w, e))
  {
    DoKeeps(w, e);
    DoExtends(w, e);
  }

  lemma {:induction false} ReplaceKeepsJob(ws: seq<World>, i: nat, w: World)
    requires JobInv(ws) && i < |ws| && WorldInv(w) && Recorded(w) && (i < |ws| - 1 ==> Closed(w))
    ensures JobInv(ws[i := w])
  {
  }

  lemma {:induction false} AdmittedIsSound()
    ensures WorldInv(ADMITTED) && Recorded(ADMITTED)
  {
    RunKeeps([]);
    RunHistory([]);
  }

  lemma {:induction false} JobRunKeeps(es: seq<JobEvent>)
    ensures JobInv(Attempts(es))
  {
    if es == [] {
      AdmittedIsSound();
    } else {
      JobRunKeeps(es[..|es| - 1]);
      NextKeepsJob(Attempts(es[..|es| - 1]), es[|es| - 1]);
    }
  }

  /** At every point of a job a retry adds exactly one attempt, a new one, where the newest is closed,
      and otherwise changes nothing. */
  lemma {:induction false} RetryAddsOne(es: seq<JobEvent>)
    ensures var ws := Attempts(es);
            Attempts(es + [Retry]) == if Closed(ws[|ws| - 1]) then ws + [ADMITTED] else ws
  {
    JobRunKeeps(es);
    RetryExactlyWhenClosed(Attempts(es)[|Attempts(es)| - 1]);
    AttemptsStep(es, Retry);
  }

  /** In every run of a job, however late steps on old attempts arrive, remote activity is
      unresolved for at most one attempt, and that attempt is the newest. */
  lemma {:induction false} AtMostOneUnresolved(es: seq<JobEvent>, i: nat, k: nat)
    requires i < |Attempts(es)| && k < |Attempts(es)|
    requires Attempts(es)[i].state.activity.Unresolved() && Attempts(es)[k].state.activity.Unresolved()
    ensures i == k == |Attempts(es)| - 1
  {
    JobRunKeeps(es);
  }

  /** Attempt `i` is the last one, and its compute succeeded. */
  predicate SucceededLast(ws: seq<World>, i: nat) { i == |ws| - 1 && ws[i].state.execution.ExecSucceeded? }

  /** Compute that succeeded is never run again: the attempt is the newest one for good. */
  lemma {:induction false} SuccessEndsTheJob(es: seq<JobEvent>, more: seq<JobEvent>, i: nat)
    requires i < |Attempts(es)| && Attempts(es)[i].state.execution.ExecSucceeded?
    ensures i == |Attempts(es)| - 1 && |Attempts(es + more)| == |Attempts(es)|
    ensures Attempts(es + more)[i].state.execution.ExecSucceeded?
  {
    SuccessIsNewest(es, i);
    SuccessLasts(es, more, i);
  }

  lemma {:induction false} SuccessLasts(es: seq<JobEvent>, more: seq<JobEvent>, i: nat)
    requires SucceededLast(Attempts(es), i)
    ensures SucceededLast(Attempts(es + more), i)
    decreases |more|
  {
    if more == [] {
      assert es + more == es;
    } else {
      SuccessStep(es, more[0], i);
      SuccessLasts(es + [more[0]], more[1..], i);
      assert (es + [more[0]]) + more[1..] == es + more;
    }
  }

  lemma {:induction false} SuccessStep(es: seq<JobEvent>, e: JobEvent, i: nat)
    requires SucceededLast(Attempts(es), i)
    ensures SucceededLast(Attempts(es + [e]), i)
  {
    JobRunKeeps(es);
    SuccessStays(Attempts(es), e, i);
    AttemptsStep(es, e);
  }

  lemma {:induction false} AttemptsStep(es: seq<JobEvent>, e: JobEvent)
    ensures Attempts(es + [e]) == Next(Attempts(es), e)
  {
    assert (es + [e])[..|es|] == es;
  }

  lemma {:induction false} SuccessIsNewest(es: seq<JobEvent>, i: nat)
    requires i < |Attempts(es)| && Attempts(es)[i].state.execution.ExecSucceeded?
    ensures i == |Attempts(es)| - 1
  {
    JobRunKeeps(es);
    assert i < |Attempts(es)| - 1 ==> Closed(Attempts(es)[i]);
  }

  lemma {:induction false} SuccessStays(ws: seq<World>, e: JobEvent, i: nat)
    requires JobInv(ws) && SucceededLast(ws, i)
    ensures SucceededLast(Next(ws, e), i)
  {
    match e
    case Retry => assert !RetryAllowed(ws[i].state).RetryOk?;
    case On(k, what) => if k < |ws| { SuccessSurvives(ws, k, what, i); }
  }

  lemma {:induction false} SuccessSurvives(ws: seq<World>, k: nat, what: Occurrence, i: nat)
    requires k < |ws| && WorldInv(ws[k]) && Recorded(ws[k]) && SucceededLast(ws, i)
    ensures SucceededLast(ws[k := Do(ws[k], what)], i)
  {
    LaterStays(ws[k], what);
    ReplaceKeepsSuccess(ws, k, Do(ws[k], what), i);
  }

  lemma {:induction false} LaterStays(w: World, e: Occurrence)
    requires WorldInv(w) && Recorded(w)
    ensures Later(w, Do(w, e))
  {
    DoExtends(w, e);
  }

  lemma {:induction false} ReplaceKeepsSuccess(ws: seq<World>, k: nat, w: World, i: nat)
    requires k < |ws| && Later(ws[k], w) && SucceededLast(ws, i)
    ensures SucceededLast(ws[k := w], i)
  {
  }

  /** Attempt `i` was superseded, and this is its journal. */
  predicate LeftBehind(ws: seq<World>, i: nat, j: Journal) { i < |ws| - 1 && ws[i].journal == j }

  /** An attempt that was superseded keeps its journal through everything that happens later. */
  lemma {:induction false} SupersededJournalIsFrozen(es: seq<JobEvent>, more: seq<JobEvent>, i: nat, j: Journal)
    requires LeftBehind(Attempts(es), i, j)
    ensures LeftBehind(Attempts(es + more), i, j)
    decreases |more|
  {
    if more == [] {
      assert es + more == es;
    } else {
      SupersededStep(es, more[0], i, j);
      SupersededJournalIsFrozen(es + [more[0]], more[1..], i, j);
      assert (es + [more[0]]) + more[1..] == es + more;
    }
  }

  lemma {:induction false} SupersededStep(es: seq<JobEvent>, e: JobEvent, i: nat, j: Journal)
    requires LeftBehind(Attempts(es), i, j)
    ensures LeftBehind(Attempts(es + [e]), i, j)
  {
    JobRunKeeps(es);
    SupersededStays(Attempts(es), e, i, j);
    AttemptsStep(es, e);
  }

  lemma {:induction false} SupersededStays(ws: seq<World>, e: JobEvent, i: nat, j: Journal)
    requires JobInv(ws) && LeftBehind(ws, i, j)
    ensures LeftBehind(Next(ws, e), i, j)
  {
    match e
    case Retry =>
    case On(k, what) => if k == i { ClosedStays(ws[i], what); }
  }
}
