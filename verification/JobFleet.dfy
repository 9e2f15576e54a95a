/** A job whose attempts are worked on by fleets: any turn of any attempt may come next, a new attempt
    only when the last one allows a retry. */
module JobFleet {
  import opened AttemptState
  import opened Journal
  import opened Dispatch
  import opened DispatchRun
  import opened Engine
  import opened Fleet
  import opened Job

  datatype JobTurn = At(attempt: nat, turn: Turn) | TryAgain

  const UNTOUCHED := Site(ADMITTED, map[])

  function Follow(sites: seq<Site>, t: JobTurn): (sites': seq<Site>)
    requires |sites| > 0
    ensures |sites'| >= |sites|
  {
    match t
    case TryAgain => if RetryAllowed(sites[|sites| - 1].world.state).RetryOk? then sites + [UNTOUCHED] else sites
    case At(i, turn) => if i < |sites| then sites[i := Move(sites[i], turn)] else sites
  }

  function Sites(ts: seq<JobTurn>): (sites: seq<Site>)
    ensures |sites| > 0
  {
    if ts == [] then [UNTOUCHED] else Follow(Sites(ts[..|ts| - 1]), ts[|ts| - 1])
  }

  /** Every turn is one its own attempt can take. */
  predicate Workable(ts: seq<JobTurn>) {
    ts == [] ||
    (var sites, t := Sites(ts[..|ts| - 1]), ts[|ts| - 1];
     && Workable(ts[..|ts| - 1])
     && (t.At? ==> t.attempt < |sites| && May(sites[t.attempt], t.turn)))
  }

  /** What happened to attempt `i`, in order. */
  function TurnsOf(ts: seq<JobTurn>, i: nat): seq<Turn> {
    if ts == [] then []
    else
      var t := ts[|ts| - 1];
      TurnsOf(ts[..|ts| - 1], i) + if t.At? && t.attempt == i then [t.turn] else []
  }

  /** Each attempt is a feasible fleet run of its own, whatever goes on around it. */
  predicate Apart(ts: seq<JobTurn>, sites: seq<Site>, i: nat) {
    if i < |sites| then Feasible(TurnsOf(ts, i)) && sites[i] == After(TurnsOf(ts, i)) else TurnsOf(ts, i) == []
  }

  lemma {:induction false} ApartNext(ts: seq<JobTurn>, t: JobTurn, i: nat)
    requires Apart(ts, Sites(ts), i) && (t.At? ==> t.attempt < |Sites(ts)| && May(Sites(ts)[t.attempt], t.turn))
    ensures Apart(ts + [t], Sites(ts + [t]), i)
  {
    assert (ts + [t])[..|ts|] == ts;
    if t.At? && t.attempt == i {
      OneMore(TurnsOf(ts, i), t.turn);
    } else {
      assert TurnsOf(ts, i) + [] == TurnsOf(ts, i);
    }
  }

  lemma {:induction false} AttemptsAreApart(ts: seq<JobTurn>, i: nat)
    requires Workable(ts)
    ensures Apart(ts, Sites(ts), i)
  {
    if ts != [] {
      AttemptsAreApart(ts[..|ts| - 1], i);
      assert ts == ts[..|ts| - 1] + [ts[|ts| - 1]];
      ApartNext(ts[..|ts| - 1], ts[|ts| - 1], i);
    }
  }

  function Event(t: JobTurn): JobEvent {
    match t
    case TryAgain => Retry
    case At(i, turn) => On(i, AsOccurrence(turn))
  }

  function Events(ts: seq<JobTurn>): seq<JobEvent> {
    if ts == [] then [] else Events(ts[..|ts| - 1]) + [Event(ts[|ts| - 1])]
  }

  /** The store's side of the sites is the job itself. */
  predicate Stores(sites: seq<Site>, ws: seq<World>) {
    |sites| == |ws| && forall i :: 0 <= i < |sites| ==> sites[i].world == ws[i]
  }

  lemma {:induction false} StoresNext(sites: seq<Site>, ws: seq<World>, t: JobTurn)
    requires |sites| > 0 && Stores(sites, ws)
    ensures Stores(Follow(sites, t), Next(ws, Event(t)))
  {
  }

  lemma {:induction false} SitesAreTheJob(ts: seq<JobTurn>)
    ensures Stores(Sites(ts), Attempts(Events(ts)))
  {
    if ts != [] {
      var init, t := ts[..|ts| - 1], ts[|ts| - 1];
      SitesAreTheJob(init);
      StoresNext(Sites(init), Attempts(Events(init)), t);
      AttemptsStep(Events(init), Event(t));
    }
  }

  /** In all of a job each call reaches the provider at most once per attempt, and only where the
      attempt's own store already says so. */
  lemma {:induction false} OneCallPerAttempt(ts: seq<JobTurn>, i: nat)
    requires Workable(ts)
    ensures var turns := TurnsOf(ts, i);
            && Times(turns, Prepare) <= 1 && Times(turns, Start) <= 1 && Times(turns, Cancel) <= 1
            && (i >= |Sites(ts)| ==> turns == [])
            && (i < |Sites(ts)| && Times(turns, Start) == 1 ==> Sites(ts)[i].world.journal.submitStarted)
  {
    AttemptsAreApart(ts, i);
    AtMostOneCallEver(TurnsOf(ts, i));
  }

  lemma {:induction false} WorkableBefore(ts: seq<JobTurn>, n: nat)
    requires Workable(ts) && n <= |ts|
    ensures Workable(ts[..n])
  {
    if n == |ts| {
      assert ts[..n] == ts;
    } else {
      WorkableBefore(ts[..|ts| - 1], n);
      assert ts[..|ts| - 1][..n] == ts[..n];
    }
  }

  /** Whenever compute is started, every earlier attempt of the job is closed for good, and this is
      its attempt's first start, already durable. */
  lemma {:induction false} StartsComeInOrder(ts: seq<JobTurn>, n: nat)
    requires Workable(ts) && n < |ts| && ts[n].At? && ts[n].turn.Did? && ts[n].turn.deed.Start?
    ensures var sites, i := Sites(ts[..n]), ts[n].attempt;
            && i < |sites| && sites[i].world.journal.submitStarted && Times(TurnsOf(ts[..n], i), Start) == 0
            && forall k :: 0 <= k < i ==> Closed(sites[k].world)
  {
    var before, upTo, i := ts[..n], ts[..n + 1], ts[n].attempt;
    WorkableBefore(ts, n + 1);
    assert upTo[..n] == before && upTo[n] == ts[n];
    EarlierAreClosed(before, i);
    AttemptsAreApart(before, i);
    OneCallPerAttempt(upTo, i);
    var turns := TurnsOf(before, i);
    assert TurnsOf(upTo, i) == turns + [ts[n].turn];
    OneMore(turns, ts[n].turn);
    assert (turns + [ts[n].turn])[..|turns|] == turns;
    IntentComesFirst(turns + [ts[n].turn], |turns|);
  }

  lemma {:induction false} EarlierAreClosed(ts: seq<JobTurn>, i: nat)
    requires i < |Sites(ts)|
    ensures forall k :: 0 <= k < i ==> Closed(Sites(ts)[k].world)
  {
    SitesAreTheJob(ts);
    JobRunKeeps(Events(ts));
  }
}
