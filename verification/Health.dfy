/** Host health: the decision taken from a bounded view of a machine's observations. */
module Health {
  import opened Optional
  import Journal

  type Time = Journal.Time

  const SECOND: int := Journal.SECOND
  const STALE_AFTER: int := 90 * SECOND
  const DEMAND_CACHE: int := 15 * SECOND
  const HISTORY_MAX_ROWS: nat := 120
  const HISTORY_MAX_AGE: int := 24 * 3600 * SECOND
  const MAX_CRITICAL_SECONDS: int := 900

  datatype Policy = Policy(
    warningThermal: int,
    criticalThermal: int,
    warningSpeed: real,
    criticalSpeed: real,
    warningDie: real,
    criticalDie: real,
    lowBattery: real,
    criticalSeconds: int)
  {
    predicate Valid() {
      && 0 <= warningThermal <= criticalThermal <= 3
      && 0.0 <= criticalSpeed <= warningSpeed <= 100.0
      && 0.0 <= warningDie <= criticalDie <= 150.0
      && 0.0 <= lowBattery <= 100.0
      && 1 <= criticalSeconds <= MAX_CRITICAL_SECONDS
    }
  }

  datatype Platform = MacIntel | Unsupported | OtherPlatform

  /** One observation; a metric that could not be read is absent. */
  datatype Snapshot = Snapshot(
    valid: bool,
    resource: string,
    at: Time,
    platform: Option<Platform>,
    onBattery: Option<bool>,
    charge: Option<real>,
    thermal: Option<int>,
    speed: Option<real>,
    cpu: Option<real>,
    gpu: Option<real>)

  datatype Level = Fine | Warning | Critical | UnknownLevel | UnsupportedLevel

  datatype Decision = Decision(level: Level, refuseNew: bool, stop: bool, criticalSince: Option<Time>)

  const UNKNOWN := Decision(UnknownLevel, true, false, None)

  predicate LowBattery(s: Snapshot, p: Policy) {
    s.onBattery == Some(true) && s.charge.Some? && s.charge.value <= p.lowBattery
  }

  predicate CoreKnown(s: Snapshot) {
    s.thermal.Some? && s.speed.Some? && s.onBattery.Some? && (s.onBattery.value ==> s.charge.Some?)
  }

  predicate AtLeast(m: Option<real>, bound: real) { m.Some? && m.value >= bound }

  predicate AnyCritical(s: Snapshot, p: Policy)
    requires CoreKnown(s)
  {
    || s.thermal.value >= p.criticalThermal || s.speed.value <= p.criticalSpeed
    || AtLeast(s.cpu, p.criticalDie) || AtLeast(s.gpu, p.criticalDie)
  }

  predicate AnyWarning(s: Snapshot, p: Policy)
    requires CoreKnown(s)
  {
    || s.thermal.value >= p.warningThermal || s.speed.value <= p.warningSpeed
    || AtLeast(s.cpu, p.warningDie) || AtLeast(s.gpu, p.warningDie)
  }

  function Raise(level: Level, warning: bool, critical: bool): Level {
    if critical then Critical else if warning && !level.Critical? then Warning else level
  }

  /** One snapshot by itself. Confirmed low battery suffices even where other readings fail. */
  function Assess(s: Snapshot, p: Policy): (d: Decision)
    ensures s.platform == Some(MacIntel) ==>
              && (d.stop <==> LowBattery(s, p))
              && (d.level.Critical? <==> LowBattery(s, p) || (CoreKnown(s) && AnyCritical(s, p)))
              && (d.level.Fine? <==> !LowBattery(s, p) && CoreKnown(s) && !AnyWarning(s, p) && !AnyCritical(s, p))
              && (d.level.Warning? <==> !LowBattery(s, p) && CoreKnown(s) && AnyWarning(s, p) && !AnyCritical(s, p))
              && (d.level.UnknownLevel? <==> !LowBattery(s, p) && !CoreKnown(s))
    ensures s.platform == Some(Unsupported) ==> d.level.UnsupportedLevel? && !d.stop
    ensures s.platform == None || s.platform == Some(OtherPlatform) ==> d.level.UnknownLevel? && !d.stop
    ensures d.refuseNew <==> !d.level.Fine? && !d.level.UnsupportedLevel?
    ensures d.criticalSince.None?
  {
    if s.platform.None? then UNKNOWN
    else if s.platform.value.Unsupported? then Decision(UnsupportedLevel, false, false, None)
    else if !s.platform.value.MacIntel? then UNKNOWN
    else if LowBattery(s, p) then Decision(Critical, true, true, None)
    else if !CoreKnown(s) then UNKNOWN
    else
      var a := Raise(Fine, s.thermal.value >= p.warningThermal, s.thermal.value >= p.criticalThermal);
      var b := Raise(a, s.speed.value <= p.warningSpeed, s.speed.value <= p.criticalSpeed);
      var c := if s.cpu.Some? then Raise(b, s.cpu.value >= p.warningDie, s.cpu.value >= p.criticalDie) else b;
      var e := if s.gpu.Some? then Raise(c, s.gpu.value >= p.warningDie, s.gpu.value >= p.criticalDie) else c;
      Decision(e, e.Warning? || e.Critical?, false, None)
  }

  /** What a reader is given: the newest rows first, and since when they are this process's own. */
  datatype View = View(
    resource: string,
    current: bool,
    history: seq<Snapshot>,
    reobservedSince: Option<Time>)

  /** A row that may belong to a critical chain. */
  predicate Counts(resource: string, since: Time, p: Policy, now: Time, s: Snapshot) {
    && s.resource == resource && s.valid && s.at >= since && now - s.at <= HISTORY_MAX_AGE
    && Assess(s, p).level.Critical?
  }

  /** The newest `n` rows are one unbroken critical stretch: observed, never inferred. */
  predicate Chain(resource: string, since: Time, p: Policy, now: Time, rows: seq<Snapshot>, n: nat) {
    && n <= |rows|
    && (forall i :: 0 <= i < n ==> Counts(resource, since, p, now, rows[i]))
    && (forall i :: 0 < i < n ==> rows[i].at < rows[i - 1].at <= rows[i].at + STALE_AFTER)
  }

  /** An unbroken critical stretch of the policy's duration ends at the newest row. */
  predicate Sustained(resource: string, since: Time, p: Policy, now: Time, rows: seq<Snapshot>) {
    exists n :: 1 <= n <= |rows| && Witness(resource, since, p, now, rows, n)
  }

  /** A stretch that witnesses it. */
  predicate Witness(resource: string, since: Time, p: Policy, now: Time, rows: seq<Snapshot>, n: nat) {
    && 1 <= n <= |rows| && Chain(resource, since, p, now, rows, n)
    && rows[0].at - rows[n - 1].at >= p.criticalSeconds * SECOND
  }

  /** May this view decide anything at all? */
  predicate Usable(view: View, p: Policy, now: Time) {
    && view.current && p.Valid() && view.history != []
    && var latest := view.history[0];
    && latest.valid && latest.resource == view.resource
    && latest.at <= now <= latest.at + STALE_AFTER
    && view.reobservedSince.Some? && latest.at >= view.reobservedSince.value
  }

  /** Stop on low battery, or on measured, sustained danger within the re-observed window. */
  predicate MustStop(view: View, p: Policy, now: Time) {
    && Usable(view, p, now)
    && (|| Assess(view.history[0], p).stop
        || (&& |view.history| <= HISTORY_MAX_ROWS
            && Sustained(view.resource, view.reobservedSince.value, p, now, view.history)))
  }

  /** The critical stretch that ends at the newest row, followed back as far as it goes. */
  predicate Longest(resource: string, since: Time, p: Policy, now: Time, rows: seq<Snapshot>, n: nat) {
    1 <= n && Chain(resource, since, p, now, rows, n) && !Chain(resource, since, p, now, rows, n + 1)
  }

  /** Danger is dated only where it does not stop by itself and the history may be searched. */
  predicate Dates(view: View, p: Policy) {
    view.history != [] && |view.history| <= HISTORY_MAX_ROWS
    && Assess(view.history[0], p).level.Critical? && !Assess(view.history[0], p).stop
  }

  method Evaluate(view: View, p: Policy, now: Time) returns (d: Decision)
    ensures d.stop <==> MustStop(view, p, now)
    ensures !Usable(view, p, now) ==> d == UNKNOWN
    ensures Usable(view, p, now) ==>
              && d.level == Assess(view.history[0], p).level && d.refuseNew == Assess(view.history[0], p).refuseNew
              && (d.criticalSince.Some? <==> Dates(view, p))
    ensures Usable(view, p, now) && Dates(view, p) ==>
              exists n: nat :: n <= |view.history| && Longest(view.resource, view.reobservedSince.value, p, now, view.history, n)
                               && d.criticalSince == Some(view.history[n - 1].at)
  {
    if !view.current || !p.Valid() || view.history == [] { return UNKNOWN; }
    var latest := view.history[0];
    if !latest.valid || latest.resource != view.resource { return UNKNOWN; }
    if now < latest.at || now - latest.at > STALE_AFTER { return UNKNOWN; }
    if view.reobservedSince.None? { return UNKNOWN; }
    var since := view.reobservedSince.value;
    if latest.at < since { return UNKNOWN; }
    d := Assess(latest, p);
    if !d.level.Critical? || d.stop {
      assert !d.level.Critical? ==> !Counts(view.resource, since, p, now, latest);
      return;
    }
    if |view.history| > HISTORY_MAX_ROWS { return; }
    var start := FollowBack(view, since, p, now);
    d := d.(criticalSince := Some(start), stop := latest.at - start >= p.criticalSeconds * SECOND);
  }

  /** The oldest row of the longest chain. */
  method FollowBack(view: View, since: Time, p: Policy, now: Time) returns (start: Time)
    requires view.history != [] && Counts(view.resource, since, p, now, view.history[0])
    ensures exists n: nat :: n <= |view.history| && Longest(view.resource, since, p, now, view.history, n)
                             && start == view.history[n - 1].at
    ensures Sustained(view.resource, since, p, now, view.history) <==> view.history[0].at - start >= p.criticalSeconds * SECOND
  {
    start := view.history[0].at;
    var n := 0;
    while n < |view.history|
      invariant n <= |view.history| && Chain(view.resource, since, p, now, view.history, n)
      invariant start == view.history[if n == 0 then 0 else n - 1].at
    {
      ChainNext(view.resource, since, p, now, view.history, n);
      var s := view.history[n];
      if s.resource != view.resource || !s.valid || s.at < since || now - s.at > HISTORY_MAX_AGE { break; }
      if n > 0 && (s.at >= start || start - s.at > STALE_AFTER) { break; }
      if !Assess(s, p).level.Critical? { break; }
      start := s.at;
      n := n + 1;
    }
    assert n > 0 && Longest(view.resource, since, p, now, view.history, n);
    LongestDecides(view.resource, since, p, now, view.history, n);
  }

  lemma {:induction false} ChainNext(resource: string, since: Time, p: Policy, now: Time, rows: seq<Snapshot>, n: nat)
    requires Chain(resource, since, p, now, rows, n) && n < |rows|
    ensures Chain(resource, since, p, now, rows, n + 1) <==>
              && Counts(resource, since, p, now, rows[n])
              && (n > 0 ==> rows[n].at < rows[n - 1].at <= rows[n].at + STALE_AFTER)
  {
  }

  lemma {:induction false} ChainDescends(resource: string, since: Time, p: Policy, now: Time, rows: seq<Snapshot>, n: nat, k: nat)
    requires Chain(resource, since, p, now, rows, n) && 1 <= k <= n
    ensures rows[n - 1].at <= rows[k - 1].at
    decreases n - k
  {
    if k < n { ChainDescends(resource, since, p, now, rows, n, k + 1); }
  }

  /** The longest chain reaches back furthest. */
  lemma {:induction false} LongestDecides(resource: string, since: Time, p: Policy, now: Time, rows: seq<Snapshot>, n: nat)
    requires Longest(resource, since, p, now, rows, n)
    ensures Sustained(resource, since, p, now, rows) <==> rows[0].at - rows[n - 1].at >= p.criticalSeconds * SECOND
  {
    if rows[0].at - rows[n - 1].at >= p.criticalSeconds * SECOND { assert Witness(resource, since, p, now, rows, n); }
    if Sustained(resource, since, p, now, rows) {
      var k: nat :| 1 <= k <= |rows| && Witness(resource, since, p, now, rows, k);
      assert k <= n by {
        if k > n { assert Chain(resource, since, p, now, rows, n + 1); }
      }
      ChainDescends(resource, since, p, now, rows, n, k);
    }
  }

  // ---------------------------------------------------------------- the truncated history

  /** The rows of any chain are at least a demand-cache apart. */
  ghost predicate Spaced(since: Time, rows: seq<Snapshot>) {
    forall resource, p, now, n, i ::
      Chain(resource, since, p, now, rows, n) && 0 < i < n ==> rows[i - 1].at >= rows[i].at + DEMAND_CACHE
  }

  lemma {:induction false} ChainSpans(resource: string, since: Time, p: Policy, now: Time, rows: seq<Snapshot>, n: nat)
    requires Spaced(since, rows) && 1 <= n && Chain(resource, since, p, now, rows, n)
    ensures rows[0].at - rows[n - 1].at >= (n - 1) * DEMAND_CACHE
  {
    if n > 1 {
      ChainSpans(resource, since, p, now, rows, n - 1);
      assert rows[n - 2].at >= rows[n - 1].at + DEMAND_CACHE;
    }
  }

  function Newest(rows: seq<Snapshot>): (r: seq<Snapshot>)
    ensures r <= rows && |r| <= HISTORY_MAX_ROWS
  {
    if |rows| <= HISTORY_MAX_ROWS then rows else rows[..HISTORY_MAX_ROWS]
  }

  /** 120 rows a demand-cache apart reach back further than any policy asks. */
  lemma {:induction false} WitnessFits(resource: string, since: Time, p: Policy, now: Time, rows: seq<Snapshot>, n: nat)
    requires p.Valid() && Spaced(since, rows) && Witness(resource, since, p, now, rows, n)
    ensures n <= HISTORY_MAX_ROWS || Witness(resource, since, p, now, rows, HISTORY_MAX_ROWS)
  {
    if n > HISTORY_MAX_ROWS {
      assert Chain(resource, since, p, now, rows, HISTORY_MAX_ROWS);
      ChainSpans(resource, since, p, now, rows, HISTORY_MAX_ROWS);
    }
  }

  lemma {:induction false} WitnessInNewest(resource: string, since: Time, p: Policy, now: Time, rows: seq<Snapshot>, n: nat)
    requires n <= HISTORY_MAX_ROWS
    ensures Witness(resource, since, p, now, rows, n) <==> Witness(resource, since, p, now, Newest(rows), n)
  {
    var few := Newest(rows);
    assert forall i :: 0 <= i < |few| ==> few[i] == rows[i];
  }

  /** The newest 120 rows decide what the full history would. */
  lemma {:induction false} TruncationIsHarmless(resource: string, since: Time, p: Policy, now: Time, rows: seq<Snapshot>)
    requires p.Valid() && Spaced(since, rows)
    ensures Sustained(resource, since, p, now, Newest(rows)) <==> Sustained(resource, since, p, now, rows)
  {
    if Sustained(resource, since, p, now, Newest(rows)) {
      var n: nat :| n <= |Newest(rows)| && Witness(resource, since, p, now, Newest(rows), n);
      WitnessInNewest(resource, since, p, now, rows, n);
    }
    if Sustained(resource, since, p, now, rows) {
      var n: nat :| n <= |rows| && Witness(resource, since, p, now, rows, n);
      WitnessFits(resource, since, p, now, rows, n);
      WitnessInNewest(resource, since, p, now, rows, if n <= HISTORY_MAX_ROWS then n else HISTORY_MAX_ROWS);
    }
  }
}
