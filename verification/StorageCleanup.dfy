/** Cleanup of one host storage target: the sibling protocol with a single row, an observation
    before the intent, and an observation-only call after a lost acknowledgement. */
module StorageCleanup {
  import opened Optional

  datatype Row = Pending | Running | Deleted | Absent | Retained | Unknown {
    predicate Final() { !Pending? && !Running? }
    predicate Confirmed() { Deleted? || Absent? }
  }

  datatype Stage = Ready | MayDelete | Decided(verdict: Row) | Gone

  datatype Pass = Pass(claimed: Row, stage: Stage)

  datatype BeginReply = Acked | Ineligible | Lost

  datatype Deed =
    | Settle(settled: Row)
    | Defer
    | Begin(reply: BeginReply)
    | Delete(recoverOnly: bool, verdict: Option<Row>)
    | Complete(acked: bool)

  predicate Enabled(p: Pass, d: Deed) {
    match d
    case Settle(v) => p.stage.Ready? && p.claimed.Pending? && (v.Retained? || v.Absent?)
    case Defer => p.stage.Ready? && p.claimed.Running?
    case Begin(_) => p.stage.Ready? && p.claimed.Pending?
    case Delete(recoverOnly, v) =>
      && (if recoverOnly then p.stage.Ready? && p.claimed.Running? else p.stage.MayDelete?)
      && (v.Some? ==> v.value.Final())
    case Complete(_) => p.stage.Decided?
  }

  function Step(p: Pass, d: Deed): Pass
    requires Enabled(p, d)
  {
    match d
    case Settle(v) => p.(stage := Decided(v))
    case Defer => p.(stage := Gone)
    case Begin(reply) =>
      p.(stage := if reply.Acked? then MayDelete else if reply.Ineligible? then Decided(Retained) else Gone)
    case Delete(_, v) => p.(stage := if v.Some? then Decided(v.value) else Gone)
    case Complete(_) => p.(stage := Gone)
  }

  /** The pass a log leads to, if the automaton allows every deed of it. */
  function Replay(claimed: Row, log: seq<Deed>): Option<Pass> {
    if log == [] then Some(Pass(claimed, Ready))
    else
      var p := Replay(claimed, log[..|log| - 1]);
      if p.Some? && Enabled(p.value, log[|log| - 1]) then Some(Step(p.value, log[|log| - 1])) else None
  }

  lemma {:induction false} ReplayExtends(claimed: Row, log: seq<Deed>, d: Deed)
    requires Replay(claimed, log).Some? && Enabled(Replay(claimed, log).value, d)
    ensures Replay(claimed, log + [d]) == Some(Step(Replay(claimed, log).value, d))
  {
    assert (log + [d])[..|log|] == log;
  }

  datatype Access = Usable | Unavailable | LocalState
  datatype Sight = SightFailed | SightLocalState | Seen(present: bool, eligible: bool)
  datatype CallReply = Answered(verdict: Row) | Malformed | CallLocalState | CallIneligible | CallFailed

  /** What the rest of the system says to one pass. */
  datatype Io = Io(
    resolve: Access,
    verify: Access,
    storageCapable: bool,
    sight: Sight,
    begin: BeginReply,
    call: CallReply,
    interrupted: bool,
    complete: bool)

  /** A failed call leaves the outcome unknown; a fault of the worker itself, or a value outside the
      protocol, settles nothing. */
  function CallVerdict(r: CallReply): (v: Option<Row>)
    ensures v.Some? ==> v.value.Final()
    ensures v.Some? && v.value.Confirmed() ==> r == Answered(v.value)
  {
    match r
    case Answered(v) => if v.Final() then Some(v) else None
    case CallFailed => Some(Unknown)
    case _ => None
  }

  /** Nothing of the worker's own, and no lost acknowledgement, cuts the pass short. */
  predicate Undisturbed(io: Io) {
    && !io.resolve.LocalState? && !io.verify.LocalState? && io.storageCapable && !io.interrupted
    && !io.sight.SightLocalState? && !io.begin.Lost? && CallVerdict(io.call).Some?
  }

  /** The adapter, or its binding, is unusable. */
  predicate Barred(io: Io) { io.resolve.Unavailable? || io.verify.Unavailable? }

  /** The adapter is asked: to observe a deletion that may have happened, or to delete under an
      acknowledged intent what was seen present and eligible. */
  predicate Asks(claimed: Row, io: Io) {
    !Barred(io) && (claimed.Running? || (io.sight == Seen(true, true) && io.begin.Acked?))
  }

  /** What an undisturbed pass ends the target as: whatever the adapter answers, unknown if it fails,
      and unasked absent exactly when that was seen. */
  predicate EndsAs(claimed: Row, io: Io, v: Row) {
    var seenAbsent := !Barred(io) && claimed.Pending? && io.sight.Seen? && !io.sight.present;
    && (v.Deleted? <==> Asks(claimed, io) && io.call == Answered(Deleted))
    && (v.Absent? <==> if Asks(claimed, io) then io.call == Answered(Absent) else seenAbsent)
    && (v.Unknown? <==> Asks(claimed, io) && (io.call.CallFailed? || io.call == Answered(Unknown)))
    && (v.Retained? <==> if Asks(claimed, io) then io.call == Answered(Retained) else !seenAbsent)
  }

  /** The verdict a deed leaves. */
  function VerdictOf(d: Deed): Option<Row> {
    match d
    case Settle(v) => Some(v)
    case Delete(_, v) => v
    case Begin(reply) => if reply.Ineligible? then Some(Retained) else None
    case _ => None
  }

  lemma {:induction false} AskedEndsAs(claimed: Row, io: Io)
    requires Asks(claimed, io) && CallVerdict(io.call).Some?
    ensures EndsAs(claimed, io, CallVerdict(io.call).value)
  {
  }

  lemma {:induction false} UnaskedEndsAs(claimed: Row, io: Io)
    requires !Asks(claimed, io)
    ensures EndsAs(claimed, io, if !Barred(io) && claimed.Pending? && io.sight.Seen? && !io.sight.present then Absent else Retained)
  {
  }

  /** What the worker does is what it was told calls for. */
  predicate Owed(d: Deed, io: Io) {
    var barred := Barred(io);
    match d
    case Settle(v) =>
      if v.Absent? then io.sight.Seen? && !io.sight.present
      else barred || io.sight.SightFailed? || (io.sight.Seen? && io.sight.present && !io.sight.eligible)
    case Defer => barred
    case Begin(reply) => reply == io.begin && io.sight == Seen(true, true)
    case Delete(_, v) => v == CallVerdict(io.call)
    case Complete(acked) => acked == io.complete
  }

  class Worker {
    const claimed: Row
    const io: Io
    var log: seq<Deed>

    constructor (claimed: Row, io: Io)
      ensures this.claimed == claimed && this.io == io && log == []
    {
      this.claimed, this.io, log := claimed, io, [];
    }

    ghost predicate Valid() reads this {
      Replay(claimed, log).Some? && forall k :: 0 <= k < |log| ==> Owed(log[k], io)
    }

    ghost function Now(): Pass
      requires Valid()
      reads this
    {
      Replay(claimed, log).value
    }

    /** The last deed left the verdict owed. */
    ghost predicate Verdicts(log: seq<Deed>) {
      log != [] && VerdictOf(log[|log| - 1]).Some? && EndsAs(claimed, io, VerdictOf(log[|log| - 1]).value)
    }

    method Note(d: Deed)
      requires Valid() && Enabled(Now(), d) && Owed(d, io)
      modifies this
      ensures Valid() && log == old(log) + [d] && Now() == Step(old(Now()), d)
    {
      ReplayExtends(claimed, log, d);
      log := log + [d];
    }

    /** The adapter or its binding is unusable: a started deletion waits, a fresh one is retained. */
    method Unusable()
      requires Valid() && Now() == Pass(claimed, Ready) && !claimed.Final()
      requires Barred(io)
      modifies this
      ensures Valid()
      ensures log == old(log) + if claimed.Running? then [Defer] else [Settle(Retained), Complete(io.complete)]
    {
      if claimed.Running? {
        Note(Defer);
      } else {
        Note(Settle(Retained));
        Note(Complete(io.complete));
      }
    }

    /** Decide without deleting, or delete after this worker's own acknowledged intent. */
    method Decide() returns (decided: bool)
      requires Valid() && log == [] && !claimed.Final() && !Barred(io)
      modifies this
      ensures Valid() && (decided ==> Now().stage.Decided?)
      ensures Undisturbed(io) ==> decided && Verdicts(log)
    {
      if claimed.Running? {
        decided := Ask(true);
      } else {
        decided := DecideFresh();
      }
    }

    method Ask(recoverOnly: bool) returns (decided: bool)
      requires Valid() && Asks(claimed, io) && Enabled(Now(), Delete(recoverOnly, CallVerdict(io.call)))
      modifies this
      ensures Valid() && (decided ==> Now().stage.Decided?)
      ensures CallVerdict(io.call).Some? ==> decided && Verdicts(log)
    {
      var v := CallVerdict(io.call);
      Note(Delete(recoverOnly, v));
      if v.Some? { AskedEndsAs(claimed, io); }
      return v.Some?;
    }

    method SettleAs(v: Row)
      requires Valid() && Enabled(Now(), Settle(v)) && Owed(Settle(v), io) && EndsAs(claimed, io, v)
      modifies this
      ensures Valid() && Now().stage.Decided? && Verdicts(log)
    {
      Note(Settle(v));
    }

    method BeginThenAsk() returns (decided: bool)
      requires Valid() && Enabled(Now(), Begin(io.begin)) && Owed(Begin(io.begin), io) && !Barred(io)
      modifies this
      ensures Valid() && (decided ==> Now().stage.Decided?)
      ensures Undisturbed(io) ==> decided && Verdicts(log)
    {
      Note(Begin(io.begin));
      if io.begin.Lost? { return false; }
      if io.begin.Acked? {
        decided := Ask(false);
      } else {
        UnaskedEndsAs(claimed, io);
        decided := true;
      }
    }

    method DecideFresh() returns (decided: bool)
      requires Valid() && Now() == Pass(claimed, Ready) && claimed.Pending? && !Barred(io)
      modifies this
      ensures Valid() && (decided ==> Now().stage.Decided?)
      ensures Undisturbed(io) ==> decided && Verdicts(log)
    {
      if io.sight.SightLocalState? { return false; }
      if io.sight == Seen(true, true) {
        decided := BeginThenAsk();
      } else {
        UnaskedEndsAs(claimed, io);
        SettleAs(if io.sight.Seen? && !io.sight.present then Absent else Retained);
        decided := true;
      }
    }

    method RunOnce()
      requires Valid() && log == [] && !claimed.Final()
      modifies this
      ensures Valid()
      ensures Undisturbed(io) ==>
                if Barred(io) && claimed.Running? then log == [Defer]
                else log != [] && log[|log| - 1] == Complete(io.complete) && Verdicts(log[..|log| - 1])
    {
      if io.resolve.LocalState? { return; }
      if io.resolve.Unavailable? { Unusable(); return; }
      if io.verify.LocalState? { return; }
      if io.verify.Unavailable? { Unusable(); return; }
      if !io.storageCapable { return; }
      var decided := Decide();
      if !decided || io.interrupted { return; }
      Note(Complete(io.complete));
    }
  }

  // ---------------------------------------------------------------- runs

  datatype Claim = Claim(generation: nat, pass: Pass)
  datatype Call = Call(recoverOnly: bool, verdict: Option<Row>)

  /** The operation is closed exactly when its row is final. `calls` are the calls that were made,
      `deletions` how many of them were destructive. */
  datatype World = World(row: Row, generation: nat, claims: map<nat, Claim>, calls: set<Call>, deletions: nat, recovered: bool)

  datatype Event = TakeClaim(worker: nat) | Act(worker: nat, deed: Deed, durable: bool) | Crash(worker: nat)

  const ACCEPTED := World(Pending, 0, map[], {}, 0, false)

  predicate Live(w: World, c: Claim) { !w.row.Final() && c.generation == w.generation }

  function With(w: World, worker: nat, p: Pass): World
    requires worker in w.claims
  {
    w.(claims := w.claims[worker := w.claims[worker].(pass := p)])
  }

  function DoClaim(w: World, worker: nat): World {
    if w.row.Final() then w
    else w.(generation := w.generation + 1,
            claims := w.claims[worker := Claim(w.generation + 1, Pass(w.row, Ready))],
            recovered := w.recovered || w.row.Running?)
  }

  function DoAct(w: World, worker: nat, d: Deed, durable: bool): World {
    if worker !in w.claims || !Enabled(w.claims[worker].pass, d) then w else
    var c := w.claims[worker];
    var moved := With(w, worker, Step(c.pass, d));
    match d
    case Settle(_) => moved
    case Defer => moved
    case Delete(recoverOnly, v) => moved.(calls := w.calls + {Call(recoverOnly, v)}, deletions := w.deletions + if recoverOnly then 0 else 1)
    case Begin(reply) =>
      var stored := Live(w, c) && w.row.Pending?;
      if reply.Acked? then (if stored then moved.(row := Running) else w)
      else if reply.Lost? && stored && durable then moved.(row := Running)
      else moved
    case Complete(acked) =>
      var stored := Live(w, c) && (w.row.Running? || c.pass.claimed.Pending?);
      if stored && (acked || durable) then moved.(row := c.pass.stage.verdict)
      else if acked then w else moved
  }

  function Do(w: World, e: Event): World {
    match e
    case TakeClaim(worker) => DoClaim(w, worker)
    case Act(worker, d, durable) => DoAct(w, worker, d, durable)
    case Crash(worker) => w.(claims := w.claims - {worker})
  }

  function Run(es: seq<Event>): World {
    if es == [] then ACCEPTED else Do(Run(es[..|es| - 1]), es[|es| - 1])
  }

  /** A recover-only call said so. */
  predicate Observed(calls: set<Call>, row: Row) { Call(true, Some(row)) in calls }

  predicate ClaimOk(w: World, c: Claim) {
    && c.generation <= w.generation
    && !c.pass.claimed.Final()
    && (c.pass.claimed.Running? ==> !w.row.Pending? && w.recovered)
    && (c.pass.stage.MayDelete? ==> c.pass.claimed.Pending? && !w.row.Pending? && w.deletions == 0)
    && (c.pass.stage.Decided? ==> c.pass.stage.verdict.Final())
    && (c.pass.stage.Decided? && c.pass.claimed.Running? ==> Observed(w.calls, c.pass.stage.verdict))
    && (Live(w, c) ==> (w.recovered <==> c.pass.claimed.Running?))
    && (Live(w, c) && c.pass.stage.Ready? ==> w.row == c.pass.claimed)
  }

  predicate Inv(w: World) {
    && (forall k :: k in w.claims ==> ClaimOk(w, w.claims[k]))
    && (forall k, m :: k in w.claims && m in w.claims && k != m ==>
          && w.claims[k].generation != w.claims[m].generation
          && !(w.claims[k].pass.stage.MayDelete? && w.claims[m].pass.stage.MayDelete?))
    && w.deletions <= 1
    && (w.deletions == 1 ==> !w.row.Pending?)
    && (w.recovered ==> !w.row.Pending? && (w.row.Running? || Observed(w.calls, w.row)))
  }

  lemma {:induction false} DeleteKeeps(w: World, worker: nat, d: Deed)
    requires Inv(w) && worker in w.claims && d.Delete? && Enabled(w.claims[worker].pass, d)
    ensures Inv(DoAct(w, worker, d, false))
  {
    assert ClaimOk(w, w.claims[worker]);
  }

  lemma {:induction false} BeginKeeps(w: World, worker: nat, d: Deed, durable: bool)
    requires Inv(w) && worker in w.claims && d.Begin? && Enabled(w.claims[worker].pass, d)
    ensures Inv(DoAct(w, worker, d, durable))
  {
    assert ClaimOk(w, w.claims[worker]);
  }

  lemma {:induction false} CompleteKeeps(w: World, worker: nat, d: Deed, durable: bool)
    requires Inv(w) && worker in w.claims && d.Complete? && Enabled(w.claims[worker].pass, d)
    ensures Inv(DoAct(w, worker, d, durable))
  {
    assert ClaimOk(w, w.claims[worker]);
  }

  lemma {:induction false} ActKeeps(w: World, worker: nat, d: Deed, durable: bool)
    requires Inv(w)
    ensures Inv(DoAct(w, worker, d, durable))
  {
    if worker in w.claims && Enabled(w.claims[worker].pass, d) {
      match d
      case Begin(_) => BeginKeeps(w, worker, d, durable);
      case Complete(_) => CompleteKeeps(w, worker, d, durable);
      case Delete(_, _) => DeleteKeeps(w, worker, d);
      case _ => assert ClaimOk(w, w.claims[worker]);
    }
  }

  lemma {:induction false} RunKeeps(es: seq<Event>)
    ensures Inv(Run(es))
  {
    if es != [] {
      RunKeeps(es[..|es| - 1]);
      var w := Run(es[..|es| - 1]);
      match es[|es| - 1]
      case Act(worker, d, durable) => ActKeeps(w, worker, d, durable);
      case _ =>
    }
  }

  /** Over every run the target is deleted at most once, and only under a durable intent; once a
      worker has recovered the intent, the row closes only as a recover-only call reported it. */
  lemma {:induction false} StorageCleanupIsSafe(es: seq<Event>)
    ensures var w := Run(es);
            && w.deletions <= 1
            && (w.deletions == 1 ==> !w.row.Pending?)
            && (w.recovered ==> w.row.Running? || Observed(w.calls, w.row))
  {
    RunKeeps(es);
  }

  /** Unlike the per-resource ledger nothing here overrides a recovered worker's verdict: a recovered
      row is never retained while no recover-only call has answered retained ... */
  lemma {:induction false} RecoveredIsNotRetained(es: seq<Event>)
    requires !Observed(Run(es).calls, Retained)
    ensures var w := Run(es); w.recovered ==> w.row.Running? || w.row.Confirmed() || w.row.Unknown?
  {
    RunKeeps(es);
  }

  lemma {:induction false} OneMore(es: seq<Event>, e: Event)
    ensures Run(es + [e]) == Do(Run(es), e)
  {
    assert (es + [e])[..|es|] == es;
  }

  /** ... and from every point where a recovered target's worker holds the lease, the answer it gets
      is what the row ends as: retained exactly when the adapter says retained. */
  lemma {:induction false} RecoveredEndsAsAnswered(es: seq<Event>, worker: nat, v: Row, durable: bool)
    requires var w := Run(es); worker in w.claims && Live(w, w.claims[worker]) && w.claims[worker].pass.stage.Ready? && w.recovered
    requires v.Final()
    ensures var w := Run(es + [Act(worker, Delete(true, Some(v)), durable)] + [Act(worker, Complete(true), durable)]);
            w.recovered && w.row == v && (w.row.Retained? <==> v.Retained?)
  {
    RunKeeps(es);
    assert ClaimOk(Run(es), Run(es).claims[worker]);
    var called := es + [Act(worker, Delete(true, Some(v)), durable)];
    OneMore(es, Act(worker, Delete(true, Some(v)), durable));
    OneMore(called, Act(worker, Complete(true), durable));
  }

  /** One such run to a retained target whose deletion may have happened. */
  lemma {:induction false} RetainedAfterRecovery()
    ensures var w := Run([TakeClaim(0), Act(0, Begin(Lost), true), TakeClaim(1),
                          Act(1, Delete(true, Some(Retained)), true), Act(1, Complete(true), true)]);
            w.recovered && w.row.Retained?
  {
    var es := [TakeClaim(0), Act(0, Begin(Lost), true), TakeClaim(1),
               Act(1, Delete(true, Some(Retained)), true), Act(1, Complete(true), true)];
    var w1 := DoClaim(ACCEPTED, 0);
    var w2 := DoAct(w1, 0, Begin(Lost), true);
    var w3 := DoClaim(w2, 1);
    var w4 := DoAct(w3, 1, Delete(true, Some(Retained)), true);
    assert w3.claims[1].pass == Pass(Running, Ready);
    assert w4.claims[1].pass == Pass(Running, Decided(Retained));
    assert es[..5] == es && es[..5][..4] == es[..4] && es[..4][..3] == es[..3];
    assert es[..3][..2] == es[..2] && es[..2][..1] == es[..1] && es[..1][..0] == [];
    assert Run(es[..1]) == w1;
    assert Run(es[..2]) == w2;
    assert Run(es[..3]) == w3;
    assert Run(es[..4]) == w4;
  }

  // ---------------------------------------------------------------- a pass finishes the operation

  function Acts(worker: nat, log: seq<Deed>): seq<Event> {
    if log == [] then [] else Acts(worker, log[..|log| - 1]) + [Act(worker, log[|log| - 1], true)]
  }

  /** The lease holder is where its own log says, and the row is as far as the log took it. */
  predicate Follows(w: World, worker: nat, p: Pass) {
    && worker in w.claims && Live(w, w.claims[worker]) && w.claims[worker].pass == p
    && (p.claimed.Pending? || w.row.Running?)
  }

  lemma {:induction false} DeedIsTaken(w: World, worker: nat, p: Pass, d: Deed)
    requires Inv(w) && Follows(w, worker, p) && Enabled(p, d) && !d.Complete?
    ensures Follows(DoAct(w, worker, d, true), worker, Step(p, d))
  {
    assert ClaimOk(w, w.claims[worker]);
  }

  lemma {:induction false} PassIsFollowed(es: seq<Event>, worker: nat, log: seq<Deed>)
    requires !Run(es).row.Final() && Replay(Run(es).row, log).Some? && forall k :: 0 <= k < |log| ==> !log[k].Complete?
    ensures Follows(Run(es + [TakeClaim(worker)] + Acts(worker, log)), worker, Replay(Run(es).row, log).value)
  {
    var claimed := es + [TakeClaim(worker)];
    if log == [] {
      assert claimed + [] == claimed;
      OneMore(es, TakeClaim(worker));
    } else {
      var init, d := log[..|log| - 1], log[|log| - 1];
      PassIsFollowed(es, worker, init);
      var before := claimed + Acts(worker, init);
      RunKeeps(before);
      OneMore(before, Act(worker, d, true));
      assert before + [Act(worker, d, true)] == claimed + Acts(worker, log);
      DeedIsTaken(Run(before), worker, Replay(Run(es).row, init).value, d);
    }
  }

  /** From any point of any run at which the operation is open, a worker that claims it and comes to a
      verdict, after whatever deeds its automaton allows, closes it with that verdict. */
  lemma {:induction false} PassFinishes(es: seq<Event>, worker: nat, log: seq<Deed>)
    requires !Run(es).row.Final() && Replay(Run(es).row, log).Some? && forall k :: 0 <= k < |log| ==> !log[k].Complete?
    requires Replay(Run(es).row, log).value.stage.Decided?
    ensures var w := Run(es + [TakeClaim(worker)] + Acts(worker, log) + [Act(worker, Complete(true), true)]);
            w.row == Replay(Run(es).row, log).value.stage.verdict && w.row.Final()
  {
    var decided := es + [TakeClaim(worker)] + Acts(worker, log);
    PassIsFollowed(es, worker, log);
    RunKeeps(decided);
    assert ClaimOk(Run(decided), Run(decided).claims[worker]);
    OneMore(decided, Act(worker, Complete(true), true));
  }
}
