/** Workers' sessions against the store: any number of logs interleave step by step, workers restart
    at any point, and the store, the operator and publication act in between. A provider call counts
    because a worker makes it, whatever the store holds. */
module Fleet {
  import opened AttemptState
  import opened Journal
  import opened Optional
  import opened Dispatch
  import opened DispatchSafety
  import opened DispatchRun
  import opened Engine

  datatype Turn =
    | Did(worker: nat, deed: Deed, now: Time, bytes: nat, reached: bool)
    | Restarted(worker: nat)
    | Elsewhere(what: Occurrence)

  /** The store, and what each worker has done since it last started. */
  datatype Site = Site(world: World, logs: map<nat, seq<Deed>>)
  {
    function LogOf(worker: nat): seq<Deed> { if worker in logs then logs[worker] else [] }
  }

  /** A commit or stop intent that does not reach the store changes nothing there. */
  function AsOccurrence(s: Turn): Occurrence {
    match s
    case Elsewhere(what) => what
    case Restarted(worker) => WorkerGone(worker)
    case Did(worker, deed, now, bytes, reached) =>
      match deed
      case Commit(a, acked) => if reached then WorkerCommit(worker, a, now, bytes, acked) else WorkerGone(worker)
      case StopIntent(acked) => if reached then WorkerStop(worker, acked) else WorkerGone(worker)
      case StopReport(_) => WorkerGone(worker)
      case _ => WorkerCall(worker, deed)
  }

  function Move(site: Site, s: Turn): Site {
    Site(Do(site.world, AsOccurrence(s)),
         match s
         case Did(worker, deed, _, _, _) => site.logs[worker := site.LogOf(worker) + [deed]]
         case Restarted(worker) => site.logs[worker := []]
         case Elsewhere(_) => site.logs)
  }

  function After(steps: seq<Turn>): Site {
    if steps == [] then Site(ADMITTED, map[]) else Move(After(steps[..|steps| - 1]), steps[|steps| - 1])
  }

  /** The store acknowledges only what it committed. */
  predicate Honest(w: World, s: Turn) {
    s.Did? ==>
      && (s.deed.Commit? && s.deed.acked ==>
            s.reached && ForWorkers(s.deed.action) && Apply(w.journal, w.state, s.deed.action, s.now, s.bytes).Committed?)
      && (s.deed.StopIntent? && s.deed.acked ==> s.reached && StopEnabled(w))
  }

  /** What is not a worker's doing. */
  predicate Outside(o: Occurrence) {
    o.OperatorCommit? || o.AdmitStop? || o.CloseStop? || o.ControlTo? || o.Publish?
  }

  /** The step is one that a session, the store or the rest of the system can make here. */
  predicate May(site: Site, s: Turn) {
    && Honest(site.world, s)
    && (s.Did? ==> Disciplined(site.LogOf(s.worker) + [s.deed]))
    && (s.Elsewhere? ==> Outside(s.what))
  }

  predicate Feasible(steps: seq<Turn>) {
    steps == [] || (Feasible(steps[..|steps| - 1]) && May(After(steps[..|steps| - 1]), steps[|steps| - 1]))
  }

  /** How often a deed was done, by any worker, read off the steps alone. */
  function Times(steps: seq<Turn>, d: Deed): nat {
    if steps == [] then 0
    else
      var last := steps[|steps| - 1];
      Times(steps[..|steps| - 1], d) + if last.Did? && last.deed == d then 1 else 0
  }

  lemma {:induction false} OneMore(steps: seq<Turn>, s: Turn)
    ensures After(steps + [s]) == Move(After(steps), s)
    ensures Feasible(steps + [s]) <==> Feasible(steps) && May(After(steps), s)
  {
    assert (steps + [s])[..|steps|] == steps;
  }

  /** A session cut short at any point was as disciplined as the whole of it. */
  lemma {:induction false} PartOfASession(log: seq<Deed>, n: nat)
    requires Disciplined(log) && n <= |log|
    ensures Disciplined(log[..n])
  {
    forall i | 0 <= i < n ensures Needed(log[..n][i]) == NoPermit || Needed(log[..n][i]) == Held(log[..n][..i]) {
      assert log[..n][..i] == log[..i];
    }
  }

  /** A worker that is about to call has the permit in the store's own account. */
  predicate Backed(site: Site) {
    forall k :: k in site.logs && Held(site.logs[k]) != NoPermit ==>
      k in site.world.permits && site.world.permits[k] == Held(site.logs[k])
  }

  predicate Counted(w: World, prepares: nat, starts: nat, cancels: nat) {
    w.prepares == prepares && w.starts == starts && w.cancels == cancels
  }

  lemma {:induction false} HeldIsEarned(log: seq<Deed>, d: Deed)
    ensures Held(log + [d]) == Earned(d)
  {
  }

  /** An event touches the permit of its own worker only. */
  predicate OthersKeep(w: World, w': World, worker: nat) {
    forall k :: k in w.permits && k != worker ==> k in w'.permits && w'.permits[k] == w.permits[k]
  }

  lemma {:induction false} DeedIsBacked(site: Site, s: Turn)
    requires s.Did? && Honest(site.world, s)
    ensures var w' := Do(site.world, AsOccurrence(s));
            && OthersKeep(site.world, w', s.worker)
            && (Earned(s.deed) != NoPermit ==> s.worker in w'.permits && w'.permits[s.worker] == Earned(s.deed))
  {
  }

  lemma {:induction false} MoveIsBacked(site: Site, s: Turn)
    requires Backed(site) && May(site, s)
    ensures Backed(Move(site, s))
  {
    if s.Did? {
      DeedIsBacked(site, s);
      HeldIsEarned(site.LogOf(s.worker), s.deed);
    }
  }

  lemma {:induction false} DisciplinedLast(log: seq<Deed>, d: Deed)
    requires Disciplined(log + [d])
    ensures Needed(d) == NoPermit || Needed(d) == Held(log)
  {
    assert (log + [d])[|log|] == d && (log + [d])[..|log|] == log;
  }

  /** No call of a session is one the store does not account for. */
  lemma {:induction false} CallIsCounted(site: Site, s: Turn)
    requires Backed(site) && May(site, s)
    ensures var w, w' := site.world, Do(site.world, AsOccurrence(s));
            Counted(w', w.prepares + (if s.Did? && s.deed.Prepare? then 1 else 0),
                    w.starts + (if s.Did? && s.deed.Start? then 1 else 0),
                    w.cancels + (if s.Did? && s.deed.Cancel? then 1 else 0))
  {
    if s.Did? && Needed(s.deed) != NoPermit {
      DisciplinedLast(site.LogOf(s.worker), s.deed);
    } else {
      NothingCounted(site.world, AsOccurrence(s));
    }
  }

  lemma {:induction false} NothingCounted(w: World, o: Occurrence)
    requires !o.WorkerCall?
    ensures Counted(Do(w, o), w.prepares, w.starts, w.cancels)
  {
  }

  lemma {:induction false} SitesKeep(steps: seq<Turn>)
    requires Feasible(steps)
    ensures WorldInv(After(steps).world) && Backed(After(steps))
    ensures Counted(After(steps).world, Times(steps, Prepare), Times(steps, Start), Times(steps, Cancel))
  {
    if steps == [] {
      RunKeeps([]);
    } else {
      var before, last := After(steps[..|steps| - 1]), steps[|steps| - 1];
      SitesKeep(steps[..|steps| - 1]);
      DoKeeps(before.world, AsOccurrence(last));
      MoveIsBacked(before, last);
      CallIsCounted(before, last);
    }
  }

  /** No uncertainty costs a second run: however sessions interleave, crash, restart and lose
      acknowledgements, each of Prepare, Start and Cancel is called at most once in all, and by then
      the store says so. */
  lemma {:induction false} AtMostOneCallEver(steps: seq<Turn>)
    requires Feasible(steps)
    ensures Times(steps, Prepare) <= 1 && Times(steps, Start) <= 1 && Times(steps, Cancel) <= 1
    ensures Times(steps, Prepare) == 1 ==> After(steps).world.journal.plan.Some?
    ensures Times(steps, Start) == 1 ==> After(steps).world.journal.submitStarted
    ensures Times(steps, Cancel) == 1 ==> !After(steps).world.state.cancellation.NotRequested?
  {
    SitesKeep(steps);
  }

  lemma {:induction false} FeasibleBefore(steps: seq<Turn>, n: nat)
    requires Feasible(steps) && n <= |steps|
    ensures Feasible(steps[..n])
  {
    if n == |steps| {
      assert steps[..n] == steps;
    } else {
      FeasibleBefore(steps[..|steps| - 1], n);
      assert steps[..|steps| - 1][..n] == steps[..n];
    }
  }

  /** At the very moment of a call its intent is already durable. */
  lemma {:induction false} IntentComesFirst(steps: seq<Turn>, i: nat)
    requires Feasible(steps) && i < |steps| && steps[i].Did?
    ensures var w := After(steps[..i]).world;
            && (steps[i].deed.Prepare? ==> w.journal.plan.Some?)
            && (steps[i].deed.Start? ==> w.journal.submitStarted)
            && (steps[i].deed.Cancel? ==> !w.state.cancellation.NotRequested?)
  {
    var upTo := steps[..i + 1];
    FeasibleBefore(steps, i + 1);
    assert upTo[..i] == steps[..i] && upTo[i] == steps[i];
    SitesKeep(steps[..i]);
    if Needed(steps[i].deed) != NoPermit {
      DisciplinedLast(After(steps[..i]).LogOf(steps[i].worker), steps[i].deed);
    }
  }
}
