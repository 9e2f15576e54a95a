/** Sampling of machines: one probe in flight per machine, a demand cache, and the continuity of
    what this process has observed itself. */
module HealthService {
  import opened Optional
  import opened Health

  /** What a process remembers of one machine. The digest of the confirmed row stands for the row. */
  datatype Sample = Sample(
    inflight: Option<Time>,
    attempted: Option<Time>,
    confirmed: Option<Time>,
    since: Option<Time>,
    digest: Option<Snapshot>,
    failed: bool)

  const NO_SAMPLE := Sample(None, None, None, None, None, false)

  datatype Gate = WaitForProbe | UseCache | Probe

  /** A probe starts only when none is in flight and the last attempt is a demand-cache old. */
  function Gated(m: Sample, now: Time): Gate {
    if m.inflight.Some? then WaitForProbe
    else if m.attempted.Some? && now - m.attempted.value < DEMAND_CACHE then UseCache
    else Probe
  }

  function Begun(m: Sample, now: Time): Sample { m.(inflight := Some(now), attempted := Some(now)) }

  /** Samples of other machines idle for the history's age are forgotten. */
  predicate Idle(m: Sample, now: Time) {
    m.inflight.None? && m.attempted.Some? && now - m.attempted.value > HISTORY_MAX_AGE
  }

  /** What a probe came back with: the row to record, and whether it is a trusted observation. */
  datatype Probed = Probed(row: Snapshot, failed: bool)

  /** A sample outside the probe's own interval, or of another machine, is replaced by a failure
      row dated at the probe's end. */
  function Trusted(resource: string, started: Time, finished: Time, sampled: Option<Snapshot>): Probed {
    if sampled.Some? && sampled.value.valid && sampled.value.resource == resource && started <= sampled.value.at <= finished
    then Probed(sampled.value, false)
    else Probed(Snapshot(true, resource, finished, None, None, None, None, None, None, None), true)
  }

  /** How recording a row went; the row may be there although the process was not told. */
  datatype Recorded = Acknowledged | Unacknowledged | NotStored

  function Appended(rows: seq<Snapshot>, row: Snapshot, r: Recorded): seq<Snapshot> {
    if r.NotStored? then rows else [row] + rows
  }

  function Ended(m: Sample, finished: Time, probed: Probed, r: Recorded): Sample {
    var failed := probed.failed || !r.Acknowledged? || probed.row.platform.None?;
    if failed then Sample(None, Some(finished), None, None, None, true)
    else
      var at := probed.row.at;
      var broken := m.since.None? || m.confirmed.None? || at < m.confirmed.value || at - m.confirmed.value > STALE_AFTER;
      Sample(None, Some(finished), Some(at), if broken then Some(at) else m.since, Some(probed.row), false)
  }

  /** The cached view: persisted rows are current evidence only where this process re-observed. */
  function CachedView(resource: string, m: Sample, history: seq<Snapshot>, now: Time): View {
    var rows := Newest(history);
    var current := && rows != [] && !m.failed && m.confirmed.Some? && rows[0].at == m.confirmed.value
                   && m.digest == Some(rows[0])
                   && rows[0].at <= now <= rows[0].at + STALE_AFTER && rows[0].platform.Some?;
    View(resource, current, rows, if current then m.since else None)
  }

  // ---------------------------------------------------------------- the code

  class Service {
    var machines: map<string, Sample>
    var stored: map<string, seq<Snapshot>>

    constructor (stored: map<string, seq<Snapshot>>)
      ensures machines == map[] && this.stored == stored
    {
      machines, this.stored := map[], stored;
    }

    function Of(id: string): Sample reads this { if id in machines then machines[id] else NO_SAMPLE }

    function Rows(id: string): seq<Snapshot> reads this { if id in stored then stored[id] else [] }

    /** Under the lock: wait, use the cache, or become the one prober of this machine. */
    method TryBegin(id: string, now: Time) returns (gate: Gate)
      modifies this`machines
      ensures gate == Gated(old(Of(id)), now)
      ensures Of(id) == if gate.Probe? then Begun(old(Of(id)), now) else old(Of(id))
      ensures forall other :: other != id ==>
                Of(other) == if gate.Probe? && Idle(old(Of(other)), now) then NO_SAMPLE else old(Of(other))
    {
      var m := Of(id);
      if id !in machines { machines := machines[id := m]; }
      if m.inflight.Some? { return WaitForProbe; }
      if m.attempted.Some? && now - m.attempted.value < DEMAND_CACHE { return UseCache; }
      machines := machines[id := m.(attempted := Some(now), inflight := Some(now))];
      ForgetOthers(id, now);
      return Probe;
    }

    method ForgetOthers(id: string, now: Time)
      modifies this`machines
      ensures forall other :: Of(other) == if other != id && Idle(old(Of(other)), now) then NO_SAMPLE else old(Of(other))
    {
      ghost var before := machines;
      var todo := machines.Keys - {id};
      while todo != {}
        invariant id !in todo && todo <= machines.Keys <= before.Keys
        invariant forall k :: k in machines ==> machines[k] == before[k]
        invariant forall k :: k in before && k !in todo ==> (k in machines <==> k == id || !Idle(before[k], now))
        decreases |todo|
      {
        var other :| other in todo;
        if Idle(machines[other], now) { machines := machines - {other}; }
        todo := todo - {other};
      }
    }

    /** The probe's end: record a row, then publish what was learnt. */
    method End(id: string, started: Time, finished: Time, sampled: Option<Snapshot>, r: Recorded)
      modifies this
      ensures var probed := Trusted(id, started, finished, sampled);
              && Rows(id) == Appended(old(Rows(id)), probed.row, r)
              && Of(id) == Ended(old(Of(id)), finished, probed, r)
      ensures forall other :: other != id ==> Of(other) == old(Of(other)) && Rows(other) == old(Rows(other))
    {
      var probed := Trusted(id, started, finished, sampled);
      if !r.NotStored? { stored := stored[id := [probed.row] + Rows(id)]; }
      var m := Of(id).(inflight := None, attempted := Some(finished));
      var failed := probed.failed || !r.Acknowledged? || probed.row.platform.None?;
      if failed {
        m := m.(failed := true, confirmed := None, since := None, digest := None);
      } else {
        var at := probed.row.at;
        if m.since.None? || m.confirmed.None? || at < m.confirmed.value || at - m.confirmed.value > STALE_AFTER {
          m := m.(since := Some(at));
        }
        m := m.(failed := false, confirmed := Some(at), digest := Some(probed.row));
      }
      machines := machines[id := m];
    }
  }

  // ---------------------------------------------------------------- runs of one machine

  /** One machine over process restarts: its sample, its full history newest first, how many of
      the rows are this process's own, the clock, and the callers now probing. */
  datatype World = World(sample: Sample, rows: seq<Snapshot>, own: nat, clock: Time, probers: set<nat>)

  datatype Event =
    | StartProbe(caller: nat, now: Time)
    | EndProbe(caller: nat, finished: Time, sampled: Option<Snapshot>, recorded: Recorded)
    | Forget(now: Time)
    | Restart(now: Time)

  function Do(resource: string, w: World, e: Event): World {
    match e
    case StartProbe(caller, now) =>
      if now < w.clock || !Gated(w.sample, now).Probe? then w
      else w.(sample := Begun(w.sample, now), clock := now, probers := w.probers + {caller})
    case EndProbe(caller, finished, sampled, r) =>
      if finished < w.clock || caller !in w.probers || w.sample.inflight.None? then w
      else
        var probed := Trusted(resource, w.sample.inflight.value, finished, sampled);
        w.(sample := Ended(w.sample, finished, probed, r),
           rows := Appended(w.rows, probed.row, r),
           own := w.own + (if r.NotStored? then 0 else 1),
           clock := finished, probers := w.probers - {caller})
    case Forget(now) =>
      if now < w.clock || !Idle(w.sample, now) then w else w.(sample := NO_SAMPLE, clock := now)
    case Restart(now) =>
      if now < w.clock then w else World(NO_SAMPLE, w.rows, 0, now, {})
  }

  function Run(resource: string, es: seq<Event>): World {
    if es == [] then World(NO_SAMPLE, [], 0, 0, {})
    else Do(resource, Run(resource, es[..|es| - 1]), es[|es| - 1])
  }

  /** Never two probes at once, and none without its mark. */
  predicate SingleFlight(w: World) {
    && (w.sample.inflight.None? <==> w.probers == {})
    && (forall a, b :: a in w.probers && b in w.probers ==> a == b)
  }

  predicate Apart(rows: seq<Snapshot>, n: nat) {
    n <= |rows| && forall i :: 0 < i < n ==> rows[i - 1].at >= rows[i].at + DEMAND_CACHE
  }

  /** Every row is in the past, and what earlier processes saw is before what this one saw. */
  predicate Dated(w: World) {
    && (forall i :: 0 <= i < |w.rows| ==> w.rows[i].at <= w.clock)
    && (forall i, j :: 0 <= i < w.own <= j < |w.rows| ==> w.rows[j].at <= w.rows[i].at)
    && (w.sample.attempted.Some? ==> w.sample.attempted.value <= w.clock)
  }

  /** The next row can only be dated a demand-cache after the newest own one. */
  predicate Held(w: World)
    requires w.own <= |w.rows|
  {
    && (w.sample.inflight.Some? ==> w.sample.attempted == w.sample.inflight)
    && (w.sample.inflight.Some? ==> forall j :: w.own <= j < |w.rows| ==> w.rows[j].at <= w.sample.inflight.value)
    && (w.own > 0 ==>
          && (w.sample.inflight.Some? ==> w.sample.inflight.value >= w.rows[0].at + DEMAND_CACHE)
          && (w.sample.attempted.Some? ==> w.sample.attempted.value >= w.rows[0].at)
          && (w.sample.attempted.None? ==> w.clock >= w.rows[0].at + DEMAND_CACHE))
  }

  /** The re-observed window opens with a row of this process. */
  predicate SinceIsOwn(w: World)
    requires w.own <= |w.rows|
  {
    w.sample.since.Some? ==> exists i :: 0 <= i < w.own && w.rows[i].at == w.sample.since.value
  }

  predicate Inv(w: World) {
    SingleFlight(w) && Apart(w.rows, w.own) && Dated(w) && Held(w) && SinceIsOwn(w)
  }

  lemma {:induction false} SinceShifts(rows: seq<Snapshot>, own: nat, row: Snapshot, at: Time)
    requires own <= |rows| && exists i :: 0 <= i < own && rows[i].at == at
    ensures exists i :: 0 <= i < own + 1 && ([row] + rows)[i].at == at
  {
    var i :| 0 <= i < own && rows[i].at == at;
    assert ([row] + rows)[i + 1].at == at;
  }

  lemma {:induction false} EndKeepsSince(resource: string, w: World, e: Event)
    requires w.own <= |w.rows| && SinceIsOwn(w) && e.EndProbe?
    ensures var w' := Do(resource, w, e); w'.own <= |w'.rows| && SinceIsOwn(w')
  {
    var w' := Do(resource, w, e);
    if w' != w {
      var row := Trusted(resource, w.sample.inflight.value, e.finished, e.sampled).row;
      if w.sample.since.Some? { SinceShifts(w.rows, w.own, row, w.sample.since.value); }
      if w'.sample.since == Some(row.at) { assert ([row] + w.rows)[0].at == row.at; }
    }
  }

  lemma {:induction false} EndKeepsDates(resource: string, w: World, e: Event)
    requires Apart(w.rows, w.own) && Dated(w) && Held(w) && e.EndProbe?
    ensures var w' := Do(resource, w, e); Apart(w'.rows, w'.own) && Dated(w') && Held(w')
  {
    var w' := Do(resource, w, e);
    if w' != w {
      var row := Trusted(resource, w.sample.inflight.value, e.finished, e.sampled).row;
      assert w.sample.inflight.value <= row.at <= e.finished;
    }
  }

  lemma {:induction false} EndKeeps(resource: string, w: World, e: Event)
    requires Inv(w) && e.EndProbe?
    ensures Inv(Do(resource, w, e))
  {
    EndKeepsSince(resource, w, e);
    EndKeepsDates(resource, w, e);
  }

  lemma {:induction false} DoKeeps(resource: string, w: World, e: Event)
    requires Inv(w)
    ensures Inv(Do(resource, w, e))
  {
    match e
    case EndProbe(_, _, _, _) => EndKeeps(resource, w, e);
    case _ =>
  }

  lemma {:induction false} RunKeeps(resource: string, es: seq<Event>)
    ensures Inv(Run(resource, es))
  {
    if es != [] {
      RunKeeps(resource, es[..|es| - 1]);
      DoKeeps(resource, Run(resource, es[..|es| - 1]), es[|es| - 1]);
    }
  }

  /** In every run at most one probe of the machine is in flight, and the rows a process records
      are at least a demand-cache apart. */
  lemma {:induction false} ProbesAreSingleAndSpaced(resource: string, es: seq<Event>)
    ensures var w := Run(resource, es); SingleFlight(w) && Apart(w.rows, w.own)
  {
    RunKeeps(resource, es);
  }

  /** A chain inside the re-observed window consists of this process's own rows. */
  lemma {:induction false} ChainIsOwn(w: World, since: Time, id: string, p: Policy, now: Time, n: nat)
    requires Inv(w) && w.sample.since == Some(since) && Chain(id, since, p, now, w.rows, n)
    ensures n <= w.own
  {
    var m :| 0 <= m < w.own && w.rows[m].at == since;
    OwnDescends(w, m, w.own - 1);
    if w.own < |w.rows| {
      assert Counts(id, since, p, now, w.rows[w.own]) ==> w.rows[w.own].at == w.rows[w.own - 1].at;
    }
  }

  lemma {:induction false} OwnDescends(w: World, i: nat, j: nat)
    requires Apart(w.rows, w.own) && i <= j < w.own
    ensures w.rows[j].at <= w.rows[i].at
  {
    if i < j { OwnDescends(w, i, j - 1); }
  }

  /** In every run, at any time not before the clock: low battery aside, the decision on the
      newest 120 rows is to stop exactly when the whole history, however long, shows danger
      sustained for the policy's duration within the re-observed window. */
  lemma {:induction false} StopIsExact(resource: string, es: seq<Event>, p: Policy, now: Time)
    ensures var w := Run(resource, es);
            var view := CachedView(resource, w.sample, w.rows, now);
            Usable(view, p, now) ==>
              (MustStop(view, p, now) <==>
                 || Assess(w.rows[0], p).stop
                 || Sustained(resource, view.reobservedSince.value, p, now, w.rows))
  {
    RunKeeps(resource, es);
    var w := Run(resource, es);
    var view := CachedView(resource, w.sample, w.rows, now);
    if Usable(view, p, now) {
      var since := view.reobservedSince.value;
      forall id, q: Policy, t, n, i | Chain(id, since, q, t, w.rows, n) && 0 < i < n
        ensures w.rows[i - 1].at >= w.rows[i].at + DEMAND_CACHE
      {
        ChainIsOwn(w, since, id, q, t, n);
      }
      TruncationIsHarmless(resource, since, p, now, w.rows);
    }
  }

  // ---------------------------------------------------------------- what a view rests on

  /** What one finished probe found. */
  datatype Finding = Finding(started: Time, finished: Time, sampled: Option<Snapshot>, recorded: Recorded)

  /** The probes this process finished since it last knew nothing of the machine, newest first. */
  function Findings(resource: string, es: seq<Event>): seq<Finding> {
    if es == [] then []
    else
      var init, e := es[..|es| - 1], es[|es| - 1];
      var w := Run(resource, init);
      match e
      case StartProbe(_, _) => Findings(resource, init)
      case EndProbe(caller, finished, sampled, r) =>
        if finished < w.clock || caller !in w.probers || w.sample.inflight.None? then Findings(resource, init)
        else [Finding(w.sample.inflight.value, finished, sampled, r)] + Findings(resource, init)
      case Forget(now) => if now < w.clock || !Idle(w.sample, now) then Findings(resource, init) else []
      case Restart(now) => if now < w.clock then Findings(resource, init) else []
  }

  /** A sound row of this machine, taken during the probe, of a known platform, and known to be kept. */
  predicate Confirms(resource: string, f: Finding) {
    && f.recorded.Acknowledged? && f.sampled.Some? && f.sampled.value.valid && f.sampled.value.resource == resource
    && f.started <= f.sampled.value.at <= f.finished && f.sampled.value.platform.Some?
  }

  /** The newest `n` probes all confirmed, none going back in time or leaving a stale gap. */
  predicate Streak(resource: string, fs: seq<Finding>, n: nat) {
    && n <= |fs| && (forall i :: 0 <= i < n ==> Confirms(resource, fs[i]))
    && (forall i :: 0 < i < n ==> fs[i].sampled.value.at <= fs[i - 1].sampled.value.at <= fs[i].sampled.value.at + STALE_AFTER)
  }

  predicate OpensAt(resource: string, fs: seq<Finding>, n: nat, since: Option<Time>) {
    1 <= n && Streak(resource, fs, n) && !Streak(resource, fs, n + 1) && since == Some(fs[n - 1].sampled.value.at)
  }

  /** The sample remembers the newest finding, and where its streak began. */
  ghost predicate Remembers(resource: string, fs: seq<Finding>, m: Sample, rows: seq<Snapshot>) {
    && (fs == [] ==> m.confirmed.None? && m.since.None? && m.digest.None? && !m.failed)
    && (fs != [] ==> m.attempted.Some? && fs[0].finished <= m.attempted.value)
    && (fs != [] && !Confirms(resource, fs[0]) ==> m.confirmed.None? && m.since.None? && m.digest.None? && m.failed)
    && (fs != [] && Confirms(resource, fs[0]) ==>
          && !m.failed && m.confirmed == Some(fs[0].sampled.value.at) && m.digest == fs[0].sampled
          && rows != [] && rows[0] == fs[0].sampled.value
          && exists n: nat :: OpensAt(resource, fs, n, m.since))
  }

  lemma {:induction false} StreakShifts(resource: string, f: Finding, fs: seq<Finding>, n: nat)
    requires Confirms(resource, f) && fs != [] && Confirms(resource, fs[0]) && 1 <= n
    requires fs[0].sampled.value.at <= f.sampled.value.at <= fs[0].sampled.value.at + STALE_AFTER
    ensures Streak(resource, [f] + fs, n + 1) <==> Streak(resource, fs, n)
  {
    var all := [f] + fs;
    assert forall i :: 0 <= i < |fs| ==> all[i + 1] == fs[i];
    if Streak(resource, all, n + 1) {
      forall i | 0 <= i < n ensures Confirms(resource, fs[i]) { assert all[i + 1] == fs[i]; }
      forall i | 0 < i < n ensures fs[i].sampled.value.at <= fs[i - 1].sampled.value.at <= fs[i].sampled.value.at + STALE_AFTER {
        assert all[i + 1] == fs[i] && all[i] == fs[i - 1];
      }
    }
  }

  predicate Follows(f: Finding, earlier: Finding) {
    f.sampled.Some? && earlier.sampled.Some?
    && earlier.sampled.value.at <= f.sampled.value.at <= earlier.sampled.value.at + STALE_AFTER
  }

  lemma {:induction false} StreakExtends(resource: string, fs: seq<Finding>, f: Finding, n: nat, since: Option<Time>)
    requires Confirms(resource, f) && fs != [] && Confirms(resource, fs[0]) && Follows(f, fs[0]) && OpensAt(resource, fs, n, since)
    ensures OpensAt(resource, [f] + fs, n + 1, since)
  {
    StreakShifts(resource, f, fs, n);
    StreakShifts(resource, f, fs, n + 1);
    assert ([f] + fs)[n] == fs[n - 1];
  }

  lemma {:induction false} StreakStarts(resource: string, fs: seq<Finding>, f: Finding)
    requires Confirms(resource, f) && (fs != [] && Confirms(resource, fs[0]) ==> !Follows(f, fs[0]))
    ensures OpensAt(resource, [f] + fs, 1, Some(f.sampled.value.at))
  {
    assert ([f] + fs)[0] == f && (fs != [] ==> ([f] + fs)[1] == fs[0]);
  }

  lemma {:induction false} SinceAfter(resource: string, fs: seq<Finding>, m: Sample, rows: seq<Snapshot>, f: Finding)
    requires Remembers(resource, fs, m, rows) && Confirms(resource, f)
    ensures Ended(m, f.finished, Probed(f.sampled.value, false), f.recorded).since ==
              if fs != [] && Confirms(resource, fs[0]) && Follows(f, fs[0]) then m.since else Some(f.sampled.value.at)
  {
  }

  /** The window after one more confirmed probe. */
  lemma {:induction false} StreakGoesOn(resource: string, fs: seq<Finding>, m: Sample, rows: seq<Snapshot>, f: Finding)
    requires Remembers(resource, fs, m, rows) && Confirms(resource, f)
    ensures exists n: nat ::
              OpensAt(resource, [f] + fs, n, Ended(m, f.finished, Probed(f.sampled.value, false), f.recorded).since)
  {
    SinceAfter(resource, fs, m, rows, f);
    if fs != [] && Confirms(resource, fs[0]) && Follows(f, fs[0]) {
      var n: nat :| OpensAt(resource, fs, n, m.since);
      StreakExtends(resource, fs, f, n, m.since);
    } else {
      StreakStarts(resource, fs, f);
    }
  }

  /** One more probe. */
  lemma {:induction false} FindingIsRemembered(resource: string, fs: seq<Finding>, m: Sample, rows: seq<Snapshot>, f: Finding)
    requires Remembers(resource, fs, m, rows)
    ensures var probed := Trusted(resource, f.started, f.finished, f.sampled);
            Remembers(resource, [f] + fs, Ended(m, f.finished, probed, f.recorded), Appended(rows, probed.row, f.recorded))
  {
    assert ([f] + fs)[0] == f;
    if Confirms(resource, f) { StreakGoesOn(resource, fs, m, rows, f); }
  }

  lemma {:induction false} RunRemembers(resource: string, es: seq<Event>)
    ensures var w := Run(resource, es); Remembers(resource, Findings(resource, es), w.sample, w.rows)
    ensures var w := Run(resource, es); w.sample.attempted.Some? ==> w.sample.attempted.value <= w.clock
  {
    if es != [] {
      var init, e := es[..|es| - 1], es[|es| - 1];
      RunRemembers(resource, init);
      var w := Run(resource, init);
      if e.EndProbe? && !(e.finished < w.clock || e.caller !in w.probers || w.sample.inflight.None?) {
        FindingIsRemembered(resource, Findings(resource, init), w.sample, w.rows,
                            Finding(w.sample.inflight.value, e.finished, e.sampled, e.recorded));
      }
    }
  }

  predicate Fresh(f: Finding, now: Time) {
    f.sampled.Some? && f.sampled.value.at <= now <= f.sampled.value.at + STALE_AFTER
  }

  /** In every run a view is current exactly when this process's latest probe confirmed its row and
      that row is not stale; the view then opens with that row, and the re-observed window where
      the unbroken streak of confirmed probes began. */
  lemma {:induction false} CurrentExactly(resource: string, es: seq<Event>, now: Time)
    ensures var fs := Findings(resource, es);
            var w := Run(resource, es);
            var view := CachedView(resource, w.sample, w.rows, now);
            && (view.current <==> fs != [] && Confirms(resource, fs[0]) && Fresh(fs[0], now))
            && (view.reobservedSince.Some? <==> view.current)
            && (view.current ==>
                  view.history[0] == fs[0].sampled.value && exists n: nat :: OpensAt(resource, fs, n, view.reobservedSince))
  {
    RunRemembers(resource, es);
    var fs := Findings(resource, es);
    var w := Run(resource, es);
    if fs != [] && Confirms(resource, fs[0]) {
      assert Newest(w.rows)[0] == w.rows[0];
      var n: nat :| OpensAt(resource, fs, n, w.sample.since);
    }
  }

  /** Forgetting an idle machine changes nothing anyone could see, then or after any later probe. */
  lemma {:induction false} ForgettingIsUnobservable(resource: string, es: seq<Event>, now: Time, later: Time, probed: Probed, r: Recorded)
    requires Idle(Run(resource, es).sample, now) && now <= later && now <= probed.row.at <= later
    ensures var w := Run(resource, es);
            && CachedView(resource, w.sample, w.rows, later) == CachedView(resource, NO_SAMPLE, w.rows, later)
            && Gated(w.sample, later) == Gated(NO_SAMPLE, later)
            && Ended(w.sample, later, probed, r) == Ended(NO_SAMPLE, later, probed, r)
  {
    CurrentExactly(resource, es, later);
    RunRemembers(resource, es);
  }
}
